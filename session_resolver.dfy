/**
 * The session resolver: for a (user, group, role) it reuses the stored session, mints a
 * local one for a provider that cannot create sessions, or creates one at the provider,
 * names it and primes it with the system prompt. The store is the `Store` of the storage
 * model; the provider is the router model with its transport.
 */
module SessionResolver {
  import opened Base
  import opened Text
  import opened Json
  import opened Storage
  import opened LlmRouter

  /** The fields of a role the resolver reads. */
  datatype Role = Role(roleId: int, roleName: string, baseSystemPrompt: string, extraInstruction: string, llmModel: Option<string>)

  /** The fields of a group's role binding the resolver reads. */
  datatype GroupRole = GroupRole(systemPromptOverride: Option<string>, modelOverride: Option<string>)

  datatype Group = Group(title: Option<string>)

  datatype Failure =
    | RouterFailure(fault: Fault)
      /** `get_group_role` found no row */
    | GroupRoleNotFound
      /** `get_group` found no row */
    | GroupNotFound

  /** The provider side: the router, the transport it sends requests through, and the parser
      of streamed lines. */
  datatype Backend = Backend(router: Router, transport: Request -> Reply, parse: string -> Option<Json>)

  /** The two tables the resolver changes. */
  datatype State = State(sessions: map<SessionKey, SessionRow>, turns: seq<Turn>)

  /** Python's `a or b` on optional strings: None and "" are falsy. */
  function OrElse(a: Option<string>, b: Option<string>): (r: Option<string>)
    ensures a.Some? && a.value != "" ==> r == a
    ensures (a.None? || a.value == "") ==> r == b
  {
    if a.Some? && a.value != "" then a else b
  }

  /** The system turn of a local session: only when the role has a base prompt or an extra
      instruction, built from the group's override when it is truthy and the base prompt
      otherwise, and only when it is not blank. */
  function LocalPrompt(role: Role, groupRole: GroupRole): (r: Option<string>)
    ensures role.baseSystemPrompt == "" && role.extraInstruction == "" ==> r.None?
    ensures r.Some? ==> r.value != ""
  {
    if role.baseSystemPrompt == "" && role.extraInstruction == "" then None
    else
      var base := OrElse(groupRole.systemPromptOverride, Some(role.baseSystemPrompt)).value;
      var prompt := Strip(base + "\n\n" + role.extraInstruction);
      if prompt == "" then None else Some(prompt)
  }

  /** The system turn of a local session is trimmed. */
  lemma LocalPromptTrimmed(role: Role, groupRole: GroupRole)
    ensures var r := LocalPrompt(role, groupRole);
      r.Some? ==> NoSpaceEnds(r.value)
  {
  }

  /** The priming prompt of a provider session: the group's override whenever it is set,
      even to "", else the base prompt, then the extra instruction, each trimmed. */
  function RemotePrompt(role: Role, groupRole: GroupRole): (r: string)
    ensures NoSpaceEnds(r)
  {
    var base := if groupRole.systemPromptOverride.Some? then Strip(groupRole.systemPromptOverride.value) else Strip(role.baseSystemPrompt);
    Strip(base + "\n\n" + Strip(role.extraInstruction))
  }

  /** An override set to "" hides the base prompt: only the extra instruction is sent. */
  lemma RemotePromptEmptyOverride(role: Role, groupRole: GroupRole)
    requires groupRole.systemPromptOverride == Some("")
    ensures RemotePrompt(role, groupRole) == Strip(role.extraInstruction)
  {
    assert Strip("") == "";
    assert "" + "\n\n" + Strip(role.extraInstruction) == "\n\n" + Strip(role.extraInstruction);
    StripLeadingSpace("\n\n", Strip(role.extraInstruction));
    StripIdempotent(role.extraInstruction);
  }

  /** The name a new provider session gets: `"<title> / @<role>"` in a group with a non-empty
      title, `"@<role>"` otherwise. It is never empty, so the rename is never skipped for it. */
  function ChatName(group: Group, roleName: string): (r: string)
    ensures r != ""
    ensures EndsWith(r, roleName)
    ensures group.title.Some? && group.title.value != "" ==> r == group.title.value + " / @" + roleName
    ensures !(group.title.Some? && group.title.value != "") ==> r == "@" + roleName
  {
    var name := if group.title.Some? && group.title.value != "" then group.title.value + " / @" + roleName else "@" + roleName;
    assert name[|name| - |roleName|..] == roleName;
    name
  }

  /** The `rename_session` call `_create_session` makes, as the session id and the name it
      sends: made exactly when the session was created in a known group and the provider
      supports renaming. */
  function RenameAttempt(backend: Backend, rows: seq<UserValue>, role: Role, groupRole: Option<GroupRole>,
                         group: Option<Group>, ref: Option<string>): (r: Option<(string, string)>)
    ensures r.Some? <==>
      groupRole.Some? && CreateSession(backend.router, backend.transport, rows, Some(role.roleId), ref).Ok?
      && group.Some? && Supports(backend.router, ref, "rename_session") == Ok(true)
    ensures r.Some? ==>
      r.value.0 == CreateSession(backend.router, backend.transport, rows, Some(role.roleId), ref).value
      && r.value.1 == ChatName(group.value, role.roleName)
  {
    if groupRole.None? || group.None? then None
    else
      match CreateSession(backend.router, backend.transport, rows, Some(role.roleId), ref)
      case Err(_) => None
      case Ok(sessionId) =>
        if Supports(backend.router, ref, "rename_session") == Ok(true)
        then Some((sessionId, ChatName(group.value, role.roleName)))
        else None
  }

  /** `send_message` as priming sees it: the outcome and the turns after it. */
  function Primed(backend: Backend, turns: seq<Turn>, rows: seq<UserValue>, sessionId: string, content: string,
                  ref: Option<string>, roleId: Option<int>): (r: (Result<string, Fault>, seq<Turn>))
    ensures r.0 == SendOutcome(backend.router, backend.transport, backend.parse, turns, rows, sessionId, content, ref, roleId)
    ensures r.0.Ok? ==> r.1 == turns + [Turn(sessionId, "user", content), Turn(sessionId, "assistant", r.0.value)]
    ensures r.0.Err? ==> r.1 == turns
  {
    var sent := SendOutcome(backend.router, backend.transport, backend.parse, turns, rows, sessionId, content, ref, roleId);
    (sent, if sent.Ok? then turns + [Turn(sessionId, "user", content), Turn(sessionId, "assistant", sent.value)] else turns)
  }

  /** Priming, which is skipped for a blank prompt. */
  function PrimeStep(backend: Backend, turns: seq<Turn>, rows: seq<UserValue>, sessionId: string, prompt: string,
                     ref: Option<string>, roleId: Option<int>): (r: (Result<string, Fault>, seq<Turn>))
    ensures prompt == "" ==> r == (Ok(""), turns)
    ensures prompt != "" ==> r == Primed(backend, turns, rows, sessionId, prompt, ref, roleId)
  {
    if prompt != "" then Primed(backend, turns, rows, sessionId, prompt, ref, roleId) else (Ok(""), turns)
  }

  /** The model reference priming is sent with: the caller's, else the group's override, else
      the role's model. */
  function PrimeRef(ref: Option<string>, groupRole: GroupRole, role: Role): (r: Option<string>)
    ensures ref.Some? && ref.value != "" ==> r == ref
    ensures (ref.None? || ref.value == "") && groupRole.modelOverride.Some? && groupRole.modelOverride.value != "" ==>
      r == groupRole.modelOverride
    ensures (ref.None? || ref.value == "") && (groupRole.modelOverride.None? || groupRole.modelOverride.value == "") ==>
      r == role.llmModel
  {
    OrElse(OrElse(ref, groupRole.modelOverride), role.llmModel)
  }

  /** `_create_session`: create at the provider, try to rename, prime with the system prompt
      (only an HTTP status error of the priming is tolerated), then store the mapping. */
  function CreateSpec(backend: Backend, st: State, rows: seq<UserValue>, userId: int, groupId: int, role: Role,
                      groupRole: Option<GroupRole>, group: Option<Group>, ref: Option<string>, now: int): (r: (Result<string, Failure>, State))
    ensures var key := SessionKey(userId, groupId, role.roleId);
      r.0.Ok? ==> r.1.sessions == SessionsSaved(st.sessions, key, r.0.value, now)
    ensures r.0.Ok? ==> CreateSession(backend.router, backend.transport, rows, Some(role.roleId), ref) == Ok(r.0.value)
    ensures r.0.Err? ==> r.1 == st
    ensures r.0.Ok? ==> r.1.turns == st.turns || |r.1.turns| == |st.turns| + 2
    ensures r.0.Ok? ==> groupRole.Some? && group.Some?
    ensures r.0.Ok? && groupRole.Some? ==>
      r.1.turns == PrimeStep(backend, st.turns, rows, r.0.value, RemotePrompt(role, groupRole.value),
                             PrimeRef(ref, groupRole.value, role), Some(role.roleId)).1
  {
    var key := SessionKey(userId, groupId, role.roleId);
    if groupRole.None? then (Err(GroupRoleNotFound), st)
    else
      var prompt := RemotePrompt(role, groupRole.value);
      match CreateSession(backend.router, backend.transport, rows, Some(role.roleId), ref)
      case Err(f) => (Err(RouterFailure(f)), st)
      case Ok(sessionId) =>
        if group.None? then (Err(GroupNotFound), st)
        else
          match Supports(backend.router, ref, "rename_session")
          case Err(f) => (Err(RouterFailure(f)), st)
          case Ok(_) =>
            var (sent, turns) := PrimeStep(backend, st.turns, rows, sessionId, prompt, PrimeRef(ref, groupRole.value, role), Some(role.roleId));
            if sent.Err? && !sent.error.HttpStatus? then (Err(RouterFailure(sent.error)), st)
            else (Ok(sessionId), State(SessionsSaved(st.sessions, key, sessionId, now), turns))
  }

  /** `ensure_session` */
  function EnsureSpec(backend: Backend, st: State, rows: seq<UserValue>, userId: int, groupId: int, role: Role,
                      groupRole: Option<GroupRole>, group: Option<Group>, ref: Option<string>,
                      existing: Option<set<string>>, freshId: string, now: int): (r: (Result<string, Failure>, State))
    ensures var key := SessionKey(userId, groupId, role.roleId);
      r.0.Ok? ==> key in r.1.sessions && r.1.sessions[key].sessionId == r.0.value
  {
    var key := SessionKey(userId, groupId, role.roleId);
    match Supports(backend.router, ref, "create_session")
    case Err(f) => (Err(RouterFailure(f)), st)
    case Ok(remote) =>
      if !remote then
        if groupRole.None? then (Err(GroupRoleNotFound), st)
        else if key in st.sessions then
          TouchKeepsBinding(st.sessions, key, now);
          (Ok(st.sessions[key].sessionId), State(SessionsTouched(st.sessions, key, now), st.turns))
        else
          var turns := match LocalPrompt(role, groupRole.value)
            case Some(p) => st.turns + [Turn(freshId, "system", p)]
            case None => st.turns;
          (Ok(freshId), State(SessionsSaved(st.sessions, key, freshId, now), turns))
      else if key in st.sessions && (existing.None? || st.sessions[key].sessionId in existing.value) then
        TouchKeepsBinding(st.sessions, key, now);
        (Ok(st.sessions[key].sessionId), State(SessionsTouched(st.sessions, key, now), st.turns))
      else CreateSpec(backend, st, rows, userId, groupId, role, groupRole, group, ref, now)
  }

  /** Without `create_session`, a stored session is touched and returned as it is. */
  lemma LocalReuse(backend: Backend, st: State, rows: seq<UserValue>, userId: int, groupId: int, role: Role,
                   groupRole: Option<GroupRole>, group: Option<Group>, ref: Option<string>,
                   existing: Option<set<string>>, freshId: string, now: int)
    requires Supports(backend.router, ref, "create_session") == Ok(false)
    requires groupRole.Some?
    requires SessionKey(userId, groupId, role.roleId) in st.sessions
    ensures var key := SessionKey(userId, groupId, role.roleId);
      EnsureSpec(backend, st, rows, userId, groupId, role, groupRole, group, ref, existing, freshId, now)
      == (Ok(st.sessions[key].sessionId), State(SessionsTouched(st.sessions, key, now), st.turns))
  {
  }

  /** Without `create_session` and no stored session, the fresh id is stored and returned, and
      at most the one system turn is added. */
  lemma LocalMint(backend: Backend, st: State, rows: seq<UserValue>, userId: int, groupId: int, role: Role,
                  groupRole: Option<GroupRole>, group: Option<Group>, ref: Option<string>,
                  existing: Option<set<string>>, freshId: string, now: int)
    requires Supports(backend.router, ref, "create_session") == Ok(false)
    requires groupRole.Some?
    requires SessionKey(userId, groupId, role.roleId) !in st.sessions
    ensures var key := SessionKey(userId, groupId, role.roleId);
      var r := EnsureSpec(backend, st, rows, userId, groupId, role, groupRole, group, ref, existing, freshId, now);
      r.0 == Ok(freshId) && r.1.sessions == st.sessions[key := SessionRow(freshId, now, now)]
      && (LocalPrompt(role, groupRole.value).None? ==> r.1.turns == st.turns)
      && (LocalPrompt(role, groupRole.value).Some? ==> r.1.turns == st.turns + [Turn(freshId, "system", LocalPrompt(role, groupRole.value).value)])
  {
  }

  /** The local path never reaches the provider: its outcome is the same whatever the
      transport answers. */
  lemma LocalIgnoresTransport(backend: Backend, transport: Request -> Reply, st: State, rows: seq<UserValue>, userId: int, groupId: int,
                              role: Role, groupRole: Option<GroupRole>, group: Option<Group>, ref: Option<string>,
                              existing: Option<set<string>>, freshId: string, now: int)
    requires Supports(backend.router, ref, "create_session") == Ok(false)
    ensures EnsureSpec(backend, st, rows, userId, groupId, role, groupRole, group, ref, existing, freshId, now)
         == EnsureSpec(backend.(transport := transport), st, rows, userId, groupId, role, groupRole, group, ref, existing, freshId, now)
  {
  }

  /** With `create_session`, a stored id is reused exactly when no list of live ids is given or
      the list holds it; otherwise a session is created. */
  lemma RemoteReuse(backend: Backend, st: State, rows: seq<UserValue>, userId: int, groupId: int, role: Role,
                    groupRole: Option<GroupRole>, group: Option<Group>, ref: Option<string>,
                    existing: Option<set<string>>, freshId: string, now: int)
    requires Supports(backend.router, ref, "create_session") == Ok(true)
    ensures var key := SessionKey(userId, groupId, role.roleId);
      var r := EnsureSpec(backend, st, rows, userId, groupId, role, groupRole, group, ref, existing, freshId, now);
      var reuse := key in st.sessions && (existing.None? || st.sessions[key].sessionId in existing.value);
      (reuse ==> r == (Ok(st.sessions[key].sessionId), State(SessionsTouched(st.sessions, key, now), st.turns)))
      && (!reuse ==> r == CreateSpec(backend, st, rows, userId, groupId, role, groupRole, group, ref, now))
  {
  }

  /** Resolving again returns the same id, with no new session: the id is stored by the first
      call (and, with a list of live ids, it must be on that list). */
  lemma EnsureStable(backend: Backend, st: State, rows: seq<UserValue>, userId: int, groupId: int, role: Role,
                     groupRole: Option<GroupRole>, group: Option<Group>, ref: Option<string>,
                     existing: Option<set<string>>, freshId: string, now: int,
                     existing': Option<set<string>>, freshId': string, now': int)
    requires var r := EnsureSpec(backend, st, rows, userId, groupId, role, groupRole, group, ref, existing, freshId, now);
      r.0.Ok? && (existing'.None? || r.0.value in existing'.value)
    ensures var key := SessionKey(userId, groupId, role.roleId);
      var r := EnsureSpec(backend, st, rows, userId, groupId, role, groupRole, group, ref, existing, freshId, now);
      EnsureSpec(backend, r.1, rows, userId, groupId, role, groupRole, group, ref, existing', freshId', now')
      == (r.0, State(SessionsTouched(r.1.sessions, key, now'), r.1.turns))
  {
    var key := SessionKey(userId, groupId, role.roleId);
    var r := EnsureSpec(backend, st, rows, userId, groupId, role, groupRole, group, ref, existing, freshId, now);
    assert key in r.1.sessions && r.1.sessions[key].sessionId == r.0.value;
    if Supports(backend.router, ref, "create_session") == Ok(false) {
      assert groupRole.Some?;
    }
  }

  /** A failed creation or a priming failure other than an HTTP status leaves no mapping
      behind; a priming HTTP status error does not stop the session from being stored. */
  lemma PrimingFailure(backend: Backend, st: State, rows: seq<UserValue>, userId: int, groupId: int, role: Role,
                       groupRole: Option<GroupRole>, group: Option<Group>, ref: Option<string>, now: int)
    requires groupRole.Some? && group.Some?
    requires CreateSession(backend.router, backend.transport, rows, Some(role.roleId), ref).Ok?
    requires Supports(backend.router, ref, "rename_session").Ok?
    requires RemotePrompt(role, groupRole.value) != ""
    ensures var sessionId := CreateSession(backend.router, backend.transport, rows, Some(role.roleId), ref).value;
      var sent := SendOutcome(backend.router, backend.transport, backend.parse, st.turns, rows, sessionId, RemotePrompt(role, groupRole.value),
                              PrimeRef(ref, groupRole.value, role), Some(role.roleId));
      var r := CreateSpec(backend, st, rows, userId, groupId, role, groupRole, group, ref, now);
      (sent.Err? && !sent.error.HttpStatus? ==> r == (Err(RouterFailure(sent.error)), st))
      && (sent.Err? && sent.error.HttpStatus? ==> r == (Ok(sessionId), State(SessionsSaved(st.sessions, SessionKey(userId, groupId, role.roleId), sessionId, now), st.turns)))
  {
    var sessionId := CreateSession(backend.router, backend.transport, rows, Some(role.roleId), ref).value;
    var prompt := RemotePrompt(role, groupRole.value);
    var primeRef := PrimeRef(ref, groupRole.value, role);
    var sent := SendOutcome(backend.router, backend.transport, backend.parse, st.turns, rows, sessionId, prompt, primeRef, Some(role.roleId));
    var step := PrimeStep(backend, st.turns, rows, sessionId, prompt, primeRef, Some(role.roleId));
    assert step.0 == sent;
    assert sent.Err? ==> step.1 == st.turns;
  }

  /** `ensure_session` against the store. */
  method EnsureSession(backend: Backend, store: Store, userId: int, groupId: int, role: Role,
                       groupRole: Option<GroupRole>, group: Option<Group>, ref: Option<string>,
                       existing: Option<set<string>>, freshId: string, now: int) returns (r: Result<string, Failure>)
    modifies store
    ensures (r, State(store.sessions, store.turns))
         == EnsureSpec(backend, State(old(store.sessions), old(store.turns)), old(store.userValues), userId, groupId, role, groupRole, group, ref, existing, freshId, now)
    ensures store.userValues == old(store.userValues)
  {
    var key := SessionKey(userId, groupId, role.roleId);
    var remote := Supports(backend.router, ref, "create_session");
    if remote.Err? {
      return Err(RouterFailure(remote.error));
    }
    if !remote.value {
      if groupRole.None? {
        return Err(GroupRoleNotFound);
      }
      var session := store.GetUserRoleSession(key);
      if session.Some? {
        store.TouchUserRoleSession(key, now);
        return Ok(session.value.sessionId);
      }
      store.SaveUserRoleSession(key, freshId, now);
      var prompt := LocalPrompt(role, groupRole.value);
      if prompt.Some? {
        store.AddConversationMessage(freshId, "system", prompt.value);
      }
      return Ok(freshId);
    }
    var session := store.GetUserRoleSession(key);
    if session.Some? && (existing.None? || session.value.sessionId in existing.value) {
      store.TouchUserRoleSession(key, now);
      return Ok(session.value.sessionId);
    }
    var renamed;
    r, renamed := CreateRemoteSession(backend, store, userId, groupId, role, groupRole, group, ref, now);
  }

  /** `resolve`: `ensure_session` without a list of live ids. */
  method Resolve(backend: Backend, store: Store, userId: int, groupId: int, role: Role,
                 groupRole: Option<GroupRole>, group: Option<Group>, ref: Option<string>, freshId: string, now: int) returns (r: Result<string, Failure>)
    modifies store
    ensures (r, State(store.sessions, store.turns))
         == EnsureSpec(backend, State(old(store.sessions), old(store.turns)), old(store.userValues), userId, groupId, role, groupRole, group, ref, None, freshId, now)
    ensures store.userValues == old(store.userValues)
  {
    r := EnsureSession(backend, store, userId, groupId, role, groupRole, group, ref, None, freshId, now);
  }

  /** `_create_session` against the store. */
  method CreateRemoteSession(backend: Backend, store: Store, userId: int, groupId: int, role: Role,
                             groupRole: Option<GroupRole>, group: Option<Group>, ref: Option<string>, now: int)
    returns (r: Result<string, Failure>, renamed: Option<(string, string)>)
    modifies store
    ensures (r, State(store.sessions, store.turns))
         == CreateSpec(backend, State(old(store.sessions), old(store.turns)), old(store.userValues), userId, groupId, role, groupRole, group, ref, now)
    ensures renamed == RenameAttempt(backend, old(store.userValues), role, groupRole, group, ref)
    ensures store.userValues == old(store.userValues)
  {
    renamed := None;
    if groupRole.None? {
      return Err(GroupRoleNotFound), renamed;
    }
    var prompt := RemotePrompt(role, groupRole.value);
    var created := CreateSession(backend.router, backend.transport, store.userValues, Some(role.roleId), ref);
    if created.Err? {
      return Err(RouterFailure(created.error)), renamed;
    }
    var sessionId := created.value;
    if group.None? {
      return Err(GroupNotFound), renamed;
    }
    var chatName := ChatName(group.value, role.roleName);
    var rename := Supports(backend.router, ref, "rename_session");
    if rename.Err? {
      // `create_session` found the provider, so `supports` finds it too.
      assert false;
    }
    if rename.value {
      // Any failure of the rename is logged and ignored.
      var _ := RenameSession(backend.router, backend.transport, store.userValues, sessionId, chatName, Some(role.roleId), ref);
      renamed := Some((sessionId, chatName));
    }
    var primeRef := PrimeRef(ref, groupRole.value, role);
    var sent := PrimeSession(backend, store, sessionId, prompt, primeRef, Some(role.roleId));
    if sent.Err? && !sent.error.HttpStatus? {
      return Err(RouterFailure(sent.error)), renamed;
    }
    store.SaveUserRoleSession(SessionKey(userId, groupId, role.roleId), sessionId, now);
    return Ok(sessionId), renamed;
  }

  /** The priming send of `_create_session`. */
  method PrimeSession(backend: Backend, store: Store, sessionId: string, prompt: string, ref: Option<string>, roleId: Option<int>)
    returns (sent: Result<string, Fault>)
    modifies store
    ensures (sent, store.turns) == PrimeStep(backend, old(store.turns), old(store.userValues), sessionId, prompt, ref, roleId)
    ensures store.sessions == old(store.sessions) && store.userValues == old(store.userValues)
  {
    if prompt == "" {
      return Ok("");
    }
    sent := SendMessage(backend.router, store, backend.transport, backend.parse, sessionId, prompt, ref, roleId);
  }
}
