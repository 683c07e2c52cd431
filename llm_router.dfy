/**
 * The backend-agnostic protocol adapter: it picks a provider from a `provider:model`
 * reference, gates operations on capabilities, renders request templates with user
 * fields and context values, talks to the provider through an abstract transport, and
 * extracts session ids and answer text from the replies.
 */
module LlmRouter {
  import opened Base
  import opened Text
  import opened Json
  import opened Providers
  import opened Storage

  /** The exceptions the adapter raises, one constructor per kind of failure. */
  datatype Fault =
    | MissingUserField(providerId: string, field: UserField, roleId: Option<int>)
    | UnknownUserField(key: string)
    | NotRegistered(providerId: string)
    | NoClient(providerId: string)
    | UnsupportedAdapter(providerId: string, adapter: string)
    | Unsupported(providerId: string, capability: string)
    | PathNotConfigured(operation: string)
    | NotAList
    | MissingSessionId
    | StreamEmpty
    | MissingContent
      /** `HTTPStatusError` from `raise_for_status` */
    | HttpStatus(code: int)
      /** any other transport error of the HTTP client */
    | Transport
      /** `resp.json()` on a body that is not JSON */
    | BadResponse
      /** an AttributeError or TypeError from a configuration value of the wrong kind */
    | Malformed

  /** The two faults that come from resolving a `[[[key]]]` placeholder. */
  predicate FieldFault(f: Fault)
  {
    f.UnknownUserField? || f.MissingUserField?
  }

  /** The router's fixed configuration: the registry, the ids that have an HTTP client,
      and the default provider. */
  datatype Router = Router(registry: map<string, ProviderConfig>, clients: set<string>, defaultProviderId: string)

  /** One HTTP exchange as the transport sees it. `payload` None means no JSON body. */
  datatype Request = Request(verb: Json, path: string, payload: Option<Json>, headers: Option<Json>, stream: bool)

  /** What the transport gives back: the decoded body (None when it is not JSON) and the
      body's lines, an error status, or a failure to connect. */
  datatype Reply = Answered(body: Option<Json>, lines: seq<string>) | StatusError(code: int) | TransportFailure

  // ---------------------------------------------------------------- provider selection

  /** `_split_model` */
  function SplitModel(router: Router, ref: Option<string>): (r: (string, Option<string>))
    ensures (ref.None? || ref.value == "") ==> r == (router.defaultProviderId, None)
    ensures ref.Some? && ref.value != "" && ':' !in ref.value && ref.value in router.registry ==> r == (ref.value, None)
    ensures ref.Some? && ref.value != "" && ':' !in ref.value && ref.value !in router.registry ==>
      r == (router.defaultProviderId, Some(ref.value))
    ensures ref.Some? && ':' in ref.value ==>
      ':' !in r.0 && r.0 + ":" + r.1.GetOr("") == ref.value && r.1 != Some("")
  {
    if ref.None? || ref.value == "" then (router.defaultProviderId, None)
    else
      var s := ref.value;
      var i := IndexOf(s, ':');
      if i < 0 then
        if s in router.registry then (s, None) else (router.defaultProviderId, Some(s))
      else
        assert s == s[..i] + ":" + s[i + 1..];
        var model := s[i + 1..];
        (s[..i], if model == "" then None else Some(model))
  }

  /** A model's composite id splits back into its provider and model. */
  lemma SplitFullId(router: Router, m: ProviderModel)
    requires ':' !in m.providerId && m.modelId != ""
    ensures SplitModel(router, Some(m.FullId())) == (m.providerId, Some(m.modelId))
  {
    var s := m.FullId();
    assert s[|m.providerId|] == ':';
    var i := IndexOf(s, ':');
    assert s[..|m.providerId|] == m.providerId;
    assert i == |m.providerId|;
    assert s[i + 1..] == m.modelId;
  }

  /** `capabilities.get(name, False)` */
  predicate Capable(provider: ProviderConfig, capability: string)
  {
    capability in provider.capabilities && provider.capabilities[capability]
  }

  /** `_get_provider` */
  function GetProvider(router: Router, providerId: string): (r: Result<ProviderConfig, Fault>)
    ensures r.Ok? <==> providerId in router.registry
    ensures r.Ok? ==> r.value == router.registry[providerId]
    ensures r.Err? ==> r.error == NotRegistered(providerId)
  {
    if providerId in router.registry then Ok(router.registry[providerId]) else Err(NotRegistered(providerId))
  }

  /** `_ensure_capability`: the provider is registered, uses the generic adapter, and
      declares the capability. */
  function EnsureCapability(router: Router, providerId: string, capability: string): (r: Result<ProviderConfig, Fault>)
    ensures r.Ok? <==> providerId in router.registry && router.registry[providerId].adapter == "generic"
                       && Capable(router.registry[providerId], capability)
    ensures r.Ok? ==> r.value == router.registry[providerId]
    ensures providerId !in router.registry ==> r == Err(NotRegistered(providerId))
  {
    if providerId !in router.registry then Err(NotRegistered(providerId))
    else
      var provider := router.registry[providerId];
      if provider.adapter != "generic" then Err(UnsupportedAdapter(providerId, provider.adapter))
      else if !Capable(provider, capability) then Err(Unsupported(providerId, capability))
      else Ok(provider)
  }

  /** `supports`: false for a capability the provider does not declare; an unregistered
      provider raises. No adapter check. */
  function Supports(router: Router, ref: Option<string>, capability: string): (r: Result<bool, Fault>)
    ensures var pid := SplitModel(router, ref).0;
      (pid !in router.registry ==> r == Err(NotRegistered(pid)))
      && (pid in router.registry ==> r == Ok(Capable(router.registry[pid], capability)))
    ensures var pid := SplitModel(router, ref).0;
      pid in router.registry && capability !in router.registry[pid].capabilities ==> r == Ok(false)
  {
    var pid := SplitModel(router, ref).0;
    match GetProvider(router, pid)
    case Err(e) => Err(e)
    case Ok(provider) => Ok(Capable(provider, capability))
  }

  // ---------------------------------------------------------------- user fields

  /** `_resolve_user_field`, against the rows of `provider_user_data`. */
  function ResolveUserField(provider: ProviderConfig, key: string, roleId: Option<int>, rows: seq<UserValue>): (r: Result<string, Fault>)
    ensures r.Err? ==> FieldFault(r.error)
  {
    if key !in provider.userFields then Err(UnknownUserField(key))
    else
      var field := provider.userFields[key];
      var scoped := if field.scope == ProviderScope then None else roleId;
      if field.scope == RoleScope && scoped.None? then Err(MissingUserField(provider.providerId, field, roleId))
      else
        match UserValueOf(rows, provider.providerId, key, scoped)
        case None => Err(MissingUserField(provider.providerId, field, scoped))
        case Some(v) => Ok(v)
  }

  /** An unknown key fails; a role-scoped field needs a role id; otherwise the value is the
      first row stored for the provider, the key and the scope's role id (NULL for a
      provider-scoped field), and its absence is reported with that same scope. */
  lemma ResolveUserFieldSpec(provider: ProviderConfig, key: string, roleId: Option<int>, rows: seq<UserValue>)
    ensures var r := ResolveUserField(provider, key, roleId, rows);
      key !in provider.userFields ==> r == Err(UnknownUserField(key))
    ensures var r := ResolveUserField(provider, key, roleId, rows);
      key in provider.userFields && provider.userFields[key].scope == RoleScope && roleId.None? ==>
        r == Err(MissingUserField(provider.providerId, provider.userFields[key], None))
    ensures var r := ResolveUserField(provider, key, roleId, rows);
      key in provider.userFields ==>
        var field := provider.userFields[key];
        var scoped := if field.scope == ProviderScope then None else roleId;
        (field.scope == ProviderScope || roleId.Some?) ==>
          match UserValueOf(rows, provider.providerId, key, scoped)
          case Some(v) => r == Ok(v)
          case None => r == Err(MissingUserField(provider.providerId, field, scoped))
  {
  }

  /** A provider-scoped field reads the NULL-role row whatever role id the caller passes. */
  lemma ProviderScopeIgnoresRole(provider: ProviderConfig, key: string, roleId: Option<int>, rows: seq<UserValue>)
    requires key in provider.userFields && provider.userFields[key].scope == ProviderScope
    ensures ResolveUserField(provider, key, roleId, rows) == ResolveUserField(provider, key, None, rows)
  {
  }

  // ---------------------------------------------------------------- templates

  /** The end of the non-greedy `(.+?)` of `\[\[\[(.+?)\]\]\]` whose match started at `start`,
      having consumed `s[start..j]` already (no newline, since `.` does not match one). */
  function CloseFrom(s: string, start: nat, j: nat): (r: Option<nat>)
    requires start < j <= |s|
    requires forall k :: start <= k < j ==> s[k] != '\n'
    ensures r.Some? ==> j <= r.value && r.value + 3 <= |s| && s[r.value..r.value + 3] == "]]]"
    ensures r.Some? ==> forall k :: start <= k < r.value ==> s[k] != '\n'
    decreases |s| - j
  {
    if j + 3 > |s| then None
    else if s[j..j + 3] == "]]]" then Some(j)
    else if s[j] == '\n' then None
    else CloseFrom(s, start, j + 1)
  }

  /** `re.findall(r"\[\[\[(.+?)\]\]\]", s)` restricted to `s[i..]`: the captured keys, in order. */
  function FieldKeys(s: string, i: nat): (keys: seq<string>)
    requires i <= |s|
    ensures forall k :: k in keys ==> k != "" && '\n' !in k && Contains(s, "[[[" + k + "]]]")
    decreases |s| - i
  {
    if i + 3 >= |s| then []
    else if s[i..i + 3] != "[[[" || s[i + 3] == '\n' then FieldKeys(s, i + 1)
    else
      match CloseFrom(s, i + 3, i + 4)
      case None => FieldKeys(s, i + 1)
      case Some(j) =>
        CapturedKey(s, i, j);
        [s[i + 3..j]] + FieldKeys(s, j + 3)
  }

  /** The key captured between a `[[[` at `i` and the `]]]` at `j` is a non-empty line whose
      placeholder occurs in the string. */
  lemma CapturedKey(s: string, i: nat, j: nat)
    requires i + 3 < j && j + 3 <= |s| && s[i..i + 3] == "[[[" && s[j..j + 3] == "]]]"
    requires forall k :: i + 3 <= k < j ==> s[k] != '\n'
    ensures var key := s[i + 3..j]; key != "" && '\n' !in key && Contains(s, "[[[" + key + "]]]")
  {
    var key := s[i + 3..j];
    assert s[i..j + 3] == "[[[" + key + "]]]";
    ContainsAt(s, "[[[" + key + "]]]", i);
    assert forall k :: 0 <= k < |key| ==> key[k] == s[i + 3 + k];
  }

  /** The `[[[key]]]` loop: each key found is resolved (trimmed) and every occurrence of its
      placeholder in the current result is replaced, key by key. */
  function SubstituteFields(s: string, keys: seq<string>, provider: ProviderConfig, roleId: Option<int>, rows: seq<UserValue>): (r: Result<string, Fault>)
    ensures r.Err? ==> FieldFault(r.error)
  {
    if keys == [] then Ok(s)
    else SubstituteField(SubstituteFields(s, keys[..|keys| - 1], provider, roleId, rows), keys[|keys| - 1], provider, roleId, rows)
  }

  /** The `[[[key]]]` loop succeeds exactly when every key, trimmed, resolves. */
  lemma {:induction false} SubstituteFieldsOk(s: string, keys: seq<string>, provider: ProviderConfig, roleId: Option<int>, rows: seq<UserValue>)
    ensures SubstituteFields(s, keys, provider, roleId, rows).Ok? <==> Resolvable(keys, provider, roleId, rows)
  {
    if keys != [] {
      var prefix := keys[..|keys| - 1];
      SubstituteFieldsOk(s, prefix, provider, roleId, rows);
      assert SubstituteFields(s, keys, provider, roleId, rows)
        == SubstituteField(SubstituteFields(s, prefix, provider, roleId, rows), keys[|keys| - 1], provider, roleId, rows);
      ResolvableSnoc(keys, provider, roleId, rows);
    }
  }

  /** Every key, trimmed, resolves to a stored value. */
  predicate Resolvable(keys: seq<string>, provider: ProviderConfig, roleId: Option<int>, rows: seq<UserValue>)
  {
    forall k :: 0 <= k < |keys| ==> ResolveUserField(provider, Strip(keys[k]), roleId, rows).Ok?
  }

  /** Every key resolves exactly when those before the last one do and the last one does. */
  lemma ResolvableSnoc(keys: seq<string>, provider: ProviderConfig, roleId: Option<int>, rows: seq<UserValue>)
    requires keys != []
    ensures Resolvable(keys, provider, roleId, rows) <==>
      Resolvable(keys[..|keys| - 1], provider, roleId, rows) && ResolveUserField(provider, Strip(keys[|keys| - 1]), roleId, rows).Ok?
  {
    if Resolvable(keys, provider, roleId, rows) {
      ResolvablePrefix(keys, provider, roleId, rows);
    }
    if Resolvable(keys[..|keys| - 1], provider, roleId, rows) && ResolveUserField(provider, Strip(keys[|keys| - 1]), roleId, rows).Ok? {
      ResolvableExtend(keys, provider, roleId, rows);
    }
  }

  lemma ResolvablePrefix(keys: seq<string>, provider: ProviderConfig, roleId: Option<int>, rows: seq<UserValue>)
    requires keys != [] && Resolvable(keys, provider, roleId, rows)
    ensures Resolvable(keys[..|keys| - 1], provider, roleId, rows)
  {
    var prefix := keys[..|keys| - 1];
    forall k | 0 <= k < |prefix|
      ensures ResolveUserField(provider, Strip(prefix[k]), roleId, rows).Ok?
    {
      assert prefix[k] == keys[k];
    }
  }

  lemma ResolvableExtend(keys: seq<string>, provider: ProviderConfig, roleId: Option<int>, rows: seq<UserValue>)
    requires keys != [] && Resolvable(keys[..|keys| - 1], provider, roleId, rows)
    requires ResolveUserField(provider, Strip(keys[|keys| - 1]), roleId, rows).Ok?
    ensures Resolvable(keys, provider, roleId, rows)
  {
    var prefix := keys[..|keys| - 1];
    forall k | 0 <= k < |keys|
      ensures ResolveUserField(provider, Strip(keys[k]), roleId, rows).Ok?
    {
      if k < |prefix| {
        assert keys[k] == prefix[k];
      }
    }
  }

  /** One turn of the `[[[key]]]` loop on the result so far: a failure stays, and otherwise
      the key is resolved and its placeholder replaced. */
  function SubstituteField(prev: Result<string, Fault>, key: string, provider: ProviderConfig, roleId: Option<int>, rows: seq<UserValue>): (r: Result<string, Fault>)
    requires prev.Err? ==> FieldFault(prev.error)
    ensures r.Ok? <==> prev.Ok? && ResolveUserField(provider, Strip(key), roleId, rows).Ok?
    ensures r.Err? ==> FieldFault(r.error)
    ensures prev.Err? ==> r == prev
  {
    match prev
    case Err(e) => Err(e)
    case Ok(t) =>
      match ResolveUserField(provider, Strip(key), roleId, rows)
      case Err(e) => Err(e)
      case Ok(v) => Ok(Replace(t, "[[[" + key + "]]]", v))
  }

  /** The loop over `keys[..n + 1]` is one more turn after the loop over `keys[..n]`. */
  lemma SubstituteFieldsStep(s: string, keys: seq<string>, n: nat, provider: ProviderConfig, roleId: Option<int>, rows: seq<UserValue>)
    requires n < |keys|
    ensures SubstituteFields(s, keys[..n + 1], provider, roleId, rows)
      == SubstituteField(SubstituteFields(s, keys[..n], provider, roleId, rows), keys[n], provider, roleId, rows)
  {
    assert keys[..n + 1][..n] == keys[..n];
  }

  /** A context value that the `{{key}}` loop substitutes: `str`, `int` (and so `bool`). */
  predicate Scalar(v: Json)
  {
    v.JStr? || v.JInt? || v.JBool?
  }

  /** The `{{key}}` loop over the context, in the context's order. */
  function SubstituteContext(s: string, ctx: seq<Field>): string
  {
    if ctx == [] then s
    else
      var t := SubstituteContext(s, ctx[..|ctx| - 1]);
      var f := ctx[|ctx| - 1];
      if Scalar(f.val) then Replace(t, "{{" + f.key + "}}", PyStr(f.val)) else t
  }

  /** With no scalar context key's placeholder in the string, the `{{key}}` loop changes
      nothing: an unknown `{{x}}` stays as it is. */
  lemma {:induction false} SubstituteContextAbsent(s: string, ctx: seq<Field>)
    requires forall k :: 0 <= k < |ctx| && Scalar(ctx[k].val) ==> !Contains(s, "{{" + ctx[k].key + "}}")
    ensures SubstituteContext(s, ctx) == s
  {
    if ctx != [] {
      var prefix := ctx[..|ctx| - 1];
      assert forall k :: 0 <= k < |prefix| ==> prefix[k] == ctx[k];
      SubstituteContextAbsent(s, prefix);
      var f := ctx[|ctx| - 1];
      if Scalar(f.val) {
        ReplaceAbsent(s, "{{" + f.key + "}}", PyStr(f.val));
      }
    }
  }

  /** `[[[` and `]]]` cannot overlap, so a string that opens and closes with them has room for both. */
  lemma FieldBracketsLength(s: string)
    requires StartsWith(s, "[[[") && EndsWith(s, "]]]")
    ensures |s| >= 6
  {
    assert s[2] == s[..3][2] == '[';
  }

  lemma ContextBracketsLength(s: string)
    requires StartsWith(s, "{{") && EndsWith(s, "}}")
    ensures |s| >= 4
  {
    assert s[1] == s[..2][1] == '{';
  }

  /** The string branch of `_render_template`. */
  function RenderStr(s: string, ctx: seq<Field>, provider: ProviderConfig, roleId: Option<int>, rows: seq<UserValue>): (r: Result<Json, Fault>)
    ensures r.Err? ==> FieldFault(r.error)
  {
    if WholeField(s) then
      match ResolveUserField(provider, FieldKeyOf(s), roleId, rows)
      case Err(e) => Err(e)
      case Ok(v) => Ok(JStr(v))
    else if WholeContext(s, ctx) then Ok(Lookup(ctx, ContextKeyOf(s)).value)
    else RenderInline(s, ctx, provider, roleId, rows)
  }

  /** The string is one `[[[key]]]` placeholder as a whole. */
  predicate WholeField(s: string)
  {
    StartsWith(s, "[[[") && EndsWith(s, "]]]")
  }

  /** The trimmed key of a whole-string `[[[key]]]`. */
  function FieldKeyOf(s: string): string
    requires WholeField(s)
  {
    FieldBracketsLength(s);
    Strip(s[3..|s| - 3])
  }

  /** The trimmed key of a whole-string `{{key}}`. */
  function ContextKeyOf(s: string): string
    requires StartsWith(s, "{{") && EndsWith(s, "}}")
  {
    ContextBracketsLength(s);
    Strip(s[2..|s| - 2])
  }

  /** The string is one `{{key}}` placeholder as a whole, for a key of the context. */
  predicate WholeContext(s: string, ctx: seq<Field>)
  {
    StartsWith(s, "{{") && EndsWith(s, "}}") && HasKey(ctx, ContextKeyOf(s))
  }

  /** Any other string: the `[[[key]]]` placeholders found, then the context's `{{key}}`s. */
  function RenderInline(s: string, ctx: seq<Field>, provider: ProviderConfig, roleId: Option<int>, rows: seq<UserValue>): (r: Result<Json, Fault>)
    ensures r.Err? ==> FieldFault(r.error)
  {
    var keys := if Contains(s, "[[[") then FieldKeys(s, 0) else [];
    match SubstituteFields(s, keys, provider, roleId, rows)
    case Err(e) => Err(e)
    case Ok(t) => Ok(JStr(SubstituteContext(t, ctx)))
  }

  /** The first failure of a list of rendered values, or all of the values. */
  function AllOk(rs: seq<Result<Json, Fault>>): (r: Result<seq<Json>, Fault>)
    ensures r.Ok? <==> forall i :: 0 <= i < |rs| ==> rs[i].Ok?
    ensures r.Ok? ==> |r.value| == |rs| && forall i :: 0 <= i < |rs| ==> rs[i] == Ok(r.value[i])
    ensures r.Err? ==> exists i :: 0 <= i < |rs| && rs[i] == Err(r.error)
  {
    if rs == [] then Ok([])
    else
      match rs[0]
      case Err(e) => Err(e)
      case Ok(v) =>
        match AllOk(rs[1..])
        case Err(e) => assert rs[1..][0] == rs[1]; Err(e)
        case Ok(vs) => Ok([v] + vs)
  }

  /** `_render_template`: strings are rendered, lists element-wise, dicts value-wise with their
      keys kept, and every other value is returned as it is. The first failure propagates. */
  function Render(v: Json, ctx: seq<Field>, provider: ProviderConfig, roleId: Option<int>, rows: seq<UserValue>): (r: Result<Json, Fault>)
    ensures (v.JNull? || v.JBool? || v.JInt?) ==> r == Ok(v)
    ensures r.Err? ==> FieldFault(r.error)
    ensures v.JList? && r.Ok? ==>
      r.value.JList? && |r.value.items| == |v.items|
      && forall i :: 0 <= i < |v.items| ==> Render(v.items[i], ctx, provider, roleId, rows) == Ok(r.value.items[i])
    ensures v.JMap? && r.Ok? ==>
      r.value.JMap? && Keys(r.value.entries) == Keys(v.entries)
      && forall i :: 0 <= i < |v.entries| ==> Render(v.entries[i].val, ctx, provider, roleId, rows) == Ok(r.value.entries[i].val)
    decreases v
  {
    match v
    case JStr(s) => RenderStr(s, ctx, provider, roleId, rows)
    case JList(xs) =>
      var rs := seq(|xs|, i requires 0 <= i < |xs| => Render(xs[i], ctx, provider, roleId, rows));
      (match AllOk(rs)
       case Err(e) => Err(e)
       case Ok(ys) => Ok(JList(ys)))
    case JMap(es) =>
      var rs := seq(|es|, i requires 0 <= i < |es| => Render(es[i].val, ctx, provider, roleId, rows));
      (match AllOk(rs)
       case Err(e) => Err(e)
       case Ok(ys) => Ok(JMap(seq(|es|, i requires 0 <= i < |es| => Field(es[i].key, ys[i])))))
    case _ => Ok(v)
  }

  /** A whole-string `[[[key]]]` renders to the stored value of the trimmed key. */
  lemma RenderWholeField(key: string, ctx: seq<Field>, provider: ProviderConfig, roleId: Option<int>, rows: seq<UserValue>)
    ensures var r := Render(JStr("[[[" + key + "]]]"), ctx, provider, roleId, rows);
      var f := ResolveUserField(provider, Strip(key), roleId, rows);
      (f.Ok? ==> r == Ok(JStr(f.value))) && (f.Err? ==> r == Err(f.error))
  {
    var s := "[[[" + key + "]]]";
    assert s[..3] == "[[[" && s[|s| - 3..] == "]]]";
    assert s[3..|s| - 3] == key;
    assert Render(JStr(s), ctx, provider, roleId, rows) == RenderStr(s, ctx, provider, roleId, rows);
  }

  /** A whole-string `{{key}}` whose trimmed key is in the context renders to the context value
      itself, even when that value is a list or a dict. */
  lemma RenderWholeContext(key: string, ctx: seq<Field>, provider: ProviderConfig, roleId: Option<int>, rows: seq<UserValue>)
    requires HasKey(ctx, Strip(key))
    ensures Render(JStr("{{" + key + "}}"), ctx, provider, roleId, rows) == Ok(Lookup(ctx, Strip(key)).value)
  {
    var s := "{{" + key + "}}";
    ContextShape(key);
    assert WholeContext(s, ctx);
    RenderStrWholeContext(s, ctx, provider, roleId, rows);
    assert Render(JStr(s), ctx, provider, roleId, rows) == RenderStr(s, ctx, provider, roleId, rows);
  }

  /** The string branch on a whole-string context placeholder that is no field placeholder. */
  lemma RenderStrWholeContext(s: string, ctx: seq<Field>, provider: ProviderConfig, roleId: Option<int>, rows: seq<UserValue>)
    requires !WholeField(s) && WholeContext(s, ctx)
    ensures RenderStr(s, ctx, provider, roleId, rows) == Ok(Lookup(ctx, ContextKeyOf(s)).value)
  {
  }

  /** `{{key}}` is a whole-string context placeholder of the trimmed key, and no field one. */
  lemma ContextShape(key: string)
    ensures var s := "{{" + key + "}}";
      !WholeField(s) && StartsWith(s, "{{") && EndsWith(s, "}}") && ContextKeyOf(s) == Strip(key)
  {
    var s := "{{" + key + "}}";
    assert s[0] == '{';
    assert !StartsWith(s, "[[[") by {
      if |s| >= 3 {
        assert s[..3][0] == '{';
      }
    }
    assert s[..2] == "{{" && s[|s| - 2..] == "}}";
    assert s[2..|s| - 2] == key;
  }

  /** A string with no `[[[` and no placeholder of a scalar context key renders to itself. */
  lemma RenderVerbatim(s: string, ctx: seq<Field>, provider: ProviderConfig, roleId: Option<int>, rows: seq<UserValue>)
    requires !Contains(s, "[[[")
    requires !(StartsWith(s, "{{") && EndsWith(s, "}}"))
    requires forall k :: 0 <= k < |ctx| && Scalar(ctx[k].val) ==> !Contains(s, "{{" + ctx[k].key + "}}")
    ensures Render(JStr(s), ctx, provider, roleId, rows) == Ok(JStr(s))
  {
    if StartsWith(s, "[[[") {
      ContainsAt(s, "[[[", 0);
    }
    SubstituteContextAbsent(s, ctx);
  }

  // ---------------------------------------------------------------- mixed strings

  /** No `[[[` starts inside a prefix `a` that holds none and does not end in `[`. */
  lemma NoFieldOpenIn(s: string, a: string)
    requires |a| <= |s| && s[..|a|] == a
    requires !Contains(a, "[[[") && !EndsWith(a, "[")
    ensures forall p :: 0 <= p < |a| ==> !OccursAt(s, "[[[", p)
  {
    forall p | 0 <= p < |a|
      ensures !OccursAt(s, "[[[", p)
    {
      if p + 3 <= |s| {
        if p + 3 <= |a| {
          assert s[p..p + 3] == a[p..p + 3];
          assert !OccursAt(a, "[[[", p);
        } else {
          assert a[|a| - 1..] == [a[|a| - 1]];
          assert s[p..p + 3][|a| - 1 - p] == s[|a| - 1] == a[|a| - 1];
        }
      }
    }
  }

  /** `findall` skips a stretch of the string in which no `[[[` starts. */
  lemma {:induction false} FieldKeysSkip(s: string, i: nat, n: nat)
    requires i <= n <= |s|
    requires forall p :: i <= p < n ==> !OccursAt(s, "[[[", p)
    ensures FieldKeys(s, i) == FieldKeys(s, n)
    decreases n - i
  {
    if i < n && i + 3 < |s| {
      assert !OccursAt(s, "[[[", i);
      FieldKeysSkip(s, i + 1, n);
    }
  }

  /** The lazy `(.+?)` stops at the first `]]]` when no `]` or newline comes before it. */
  lemma {:induction false} CloseFromKey(s: string, start: nat, j: nat, e: nat)
    requires start < j <= e && e + 3 <= |s| && s[e..e + 3] == "]]]"
    requires forall q :: start <= q < e ==> s[q] != '\n' && s[q] != ']'
    ensures CloseFrom(s, start, j) == Some(e)
    decreases e - j
  {
    if j < e {
      assert s[j..j + 3][0] == s[j];
      CloseFromKey(s, start, j + 1, e);
    }
  }

  /** At a `[[[key]]]` whose key holds no `]` or newline, `findall` captures that key and
      resumes after the closing brackets. */
  lemma FieldKeysAt(s: string, n: nat, key: string)
    requires n + |key| + 6 <= |s| && s[n..n + 3] == "[[[" && s[n + 3..n + 3 + |key|] == key
    requires s[n + 3 + |key|..n + 6 + |key|] == "]]]"
    requires key != "" && '\n' !in key && ']' !in key
    ensures FieldKeys(s, n) == [key] + FieldKeys(s, n + |key| + 6)
  {
    var e := n + 3 + |key|;
    KeyChars(s, n + 3, key);
    CloseFromKey(s, n + 3, n + 4, e);
    FieldKeysOpen(s, n, e);
  }

  /** Where a `[[[` opens a key that a `]]]` closes, `findall` captures it and resumes after. */
  lemma FieldKeysOpen(s: string, n: nat, e: nat)
    requires n + 3 < |s| && s[n..n + 3] == "[[[" && s[n + 3] != '\n'
    requires n + 3 < e && CloseFrom(s, n + 3, n + 4) == Some(e)
    ensures e + 3 <= |s| && FieldKeys(s, n) == [s[n + 3..e]] + FieldKeys(s, e + 3)
  {
  }

  /** The characters of a key embedded at `m` are neither newlines nor `]`. */
  lemma KeyChars(s: string, m: nat, key: string)
    requires m + |key| <= |s| && s[m..m + |key|] == key && '\n' !in key && ']' !in key
    ensures forall q :: m <= q < m + |key| ==> s[q] != '\n' && s[q] != ']'
  {
    forall q | m <= q < m + |key|
      ensures s[q] != '\n' && s[q] != ']'
    {
      assert s[q] == key[q - m];
    }
  }

  /** No `[[[` starts in a tail of the string that holds none. */
  lemma NoFieldOpenAfter(s: string, m: nat, b: string)
    requires m <= |s| && s[m..] == b && !Contains(b, "[[[")
    ensures forall p :: m <= p < |s| ==> !OccursAt(s, "[[[", p)
  {
    forall p | m <= p < |s|
      ensures !OccursAt(s, "[[[", p)
    {
      if OccursAt(s, "[[[", p) {
        assert b[p - m..p - m + 3] == s[p..p + 3];
        ContainsAt(b, "[[[", p - m);
      }
    }
  }

  /** Where each part of `a + "[[[" + key + "]]]" + b` sits. */
  lemma FieldParts(a: string, key: string, b: string)
    ensures var s := a + "[[[" + key + "]]]" + b; var n := |a|; var e := n + 6 + |key|;
      |s| == e + |b| && s[..n] == a && s[n..n + 3] == "[[[" && s[n + 3..n + 3 + |key|] == key
      && s[n + 3 + |key|..e] == "]]]" && s[e..] == b
  {
  }

  /** `findall` on a string in which no `[[[` starts outside one `[[[key]]]` finds exactly
      that key. */
  lemma FieldKeysOne(s: string, n: nat, key: string)
    requires n + |key| + 6 <= |s| && s[n..n + 3] == "[[[" && s[n + 3..n + 3 + |key|] == key
    requires s[n + 3 + |key|..n + 6 + |key|] == "]]]"
    requires key != "" && '\n' !in key && ']' !in key
    requires forall p :: 0 <= p < n ==> !OccursAt(s, "[[[", p)
    requires forall p :: n + 6 + |key| <= p < |s| ==> !OccursAt(s, "[[[", p)
    ensures FieldKeys(s, 0) == [key]
  {
    FieldKeysSkip(s, 0, n);
    FieldKeysLast(s, n, key);
  }

  /** A `[[[key]]]` after which no `[[[` starts is the last key `findall` captures. */
  lemma FieldKeysLast(s: string, n: nat, key: string)
    requires n + |key| + 6 <= |s| && s[n..n + 3] == "[[[" && s[n + 3..n + 3 + |key|] == key
    requires s[n + 3 + |key|..n + 6 + |key|] == "]]]"
    requires key != "" && '\n' !in key && ']' !in key
    requires forall p :: n + 6 + |key| <= p < |s| ==> !OccursAt(s, "[[[", p)
    ensures FieldKeys(s, n) == [key]
  {
    var e := n + |key| + 6;
    FieldKeysAt(s, n, key);
    FieldKeysSkip(s, e, |s|);
    FieldKeysEnd(s);
  }

  /** `findall` finds nothing in the empty tail. */
  lemma FieldKeysEnd(s: string)
    ensures FieldKeys(s, |s|) == []
  {
  }

  /** `findall` on a string holding one `[[[key]]]` finds exactly that key. */
  lemma FieldKeysSingle(a: string, key: string, b: string)
    requires !Contains(a, "[[[") && !EndsWith(a, "[") && !Contains(b, "[[[")
    requires key != "" && '\n' !in key && ']' !in key
    ensures FieldKeys(a + "[[[" + key + "]]]" + b, 0) == [key]
  {
    var s := a + "[[[" + key + "]]]" + b;
    FieldParts(a, key, b);
    NoFieldOpenIn(s, a);
    NoFieldOpenAfter(s, |a| + 6 + |key|, b);
    FieldKeysOne(s, |a|, key);
  }

  /** A string holding one `[[[key]]]` is a whole-string placeholder only when it is nothing
      else, and never a whole-string `{{key}}`. */
  lemma FieldNotWhole(a: string, key: string, b: string, v: string)
    requires !Contains(a, "[[[") && !EndsWith(a, "[")
    requires !Contains(b, "]]]") && !StartsWith(b, "]")
    requires !Contains(a + v + b, "{{")
    requires a != "" || b != ""
    ensures !WholeField(a + "[[[" + key + "]]]" + b) && !StartsWith(a + "[[[" + key + "]]]" + b, "{{")
  {
    var s := a + "[[[" + key + "]]]" + b;
    if a != "" {
      assert s[..|a|] == a;
      NoFieldOpenIn(s, a);
      assert !OccursAt(s, "[[[", 0);
      if |a| >= 2 {
        assert (a + v + b)[..2] == a[..2] == s[..2];
        assert !OccursAt(a + v + b, "{{", 0);
      } else {
        assert s[1] == '[';
      }
    } else {
      assert s[0] == '[';
      if |b| >= 3 {
        assert s[|s| - 3..] == b[|b| - 3..];
        assert !OccursAt(b, "]]]", |b| - 3);
      } else {
        assert b[..1] == [b[0]];
        assert s[|s| - 3..][3 - |b|] == b[0];
      }
    }
  }

  /** No `[[[key]]]` starts inside a prefix `a` that holds no `[[[` and does not end in `[`. */
  lemma NoFieldIn(s: string, a: string, key: string)
    requires |a| <= |s| && s[..|a|] == a
    requires !Contains(a, "[[[") && !EndsWith(a, "[")
    ensures forall p :: 0 <= p < |a| ==> !OccursAt(s, "[[[" + key + "]]]", p)
  {
    NoFieldOpenIn(s, a);
    forall p | 0 <= p < |a|
      ensures !OccursAt(s, "[[[" + key + "]]]", p)
    {
      assert "[[[" + key + "]]]" == "[[[" + (key + "]]]");
      if OccursAt(s, "[[[" + key + "]]]", p) {
        OccursPrefix(s, "[[[", key + "]]]", p);
      }
    }
  }

  /** `str.replace` of the one `[[[key]]]` of a string by a value. */
  lemma ReplaceFieldSingle(a: string, key: string, b: string, v: string)
    requires !Contains(a, "[[[") && !EndsWith(a, "[") && !Contains(b, "[[[")
    ensures Replace(a + "[[[" + key + "]]]" + b, "[[[" + key + "]]]", v) == a + v + b
  {
    var pat := "[[[" + key + "]]]";
    var s := a + pat + b;
    assert s == a + "[[[" + key + "]]]" + b;
    assert s[..|a|] == a;
    NoFieldIn(s, a, key);
    assert pat == "[[[" + (key + "]]]");
    if Contains(b, pat) {
      ContainsPrefix(b, "[[[", key + "]]]");
    }
    ReplaceSingle(a, pat, b, v);
  }

  /** The `[[[key]]]` loop on a string holding one such placeholder replaces it by the value. */
  lemma SubstituteFieldSingle(a: string, key: string, b: string, v: string,
                              provider: ProviderConfig, roleId: Option<int>, rows: seq<UserValue>)
    requires !Contains(a, "[[[") && !EndsWith(a, "[") && !Contains(b, "[[[")
    requires ResolveUserField(provider, Strip(key), roleId, rows) == Ok(v)
    ensures SubstituteFields(a + "[[[" + key + "]]]" + b, [key], provider, roleId, rows) == Ok(a + v + b)
  {
    var s := a + "[[[" + key + "]]]" + b;
    assert [key][..0] == [];
    ReplaceFieldSingle(a, key, b, v);
    assert SubstituteFields(s, [key], provider, roleId, rows)
      == SubstituteField(Ok(s), key, provider, roleId, rows);
  }

  /** The `{{key}}` loop leaves a string without `{{` as it is. */
  lemma SubstituteContextNoOpen(t: string, ctx: seq<Field>)
    requires !Contains(t, "{{")
    ensures SubstituteContext(t, ctx) == t
  {
    forall k | 0 <= k < |ctx| && Scalar(ctx[k].val)
      ensures !Contains(t, "{{" + ctx[k].key + "}}")
    {
      assert "{{" + ctx[k].key + "}}" == "{{" + (ctx[k].key + "}}");
      if Contains(t, "{{" + ctx[k].key + "}}") {
        ContainsPrefix(t, "{{", ctx[k].key + "}}");
      }
    }
    SubstituteContextAbsent(t, ctx);
  }

  /** A string that is neither a whole `[[[key]]]` nor opens with `{{` takes the inline branch. */
  lemma RenderMixed(s: string, ctx: seq<Field>, provider: ProviderConfig, roleId: Option<int>, rows: seq<UserValue>)
    requires !WholeField(s) && !(StartsWith(s, "{{") && EndsWith(s, "}}"))
    ensures Render(JStr(s), ctx, provider, roleId, rows) == RenderInline(s, ctx, provider, roleId, rows)
  {
    assert Render(JStr(s), ctx, provider, roleId, rows) == RenderStr(s, ctx, provider, roleId, rows);
  }

  /** The inline branch on a string holding one `[[[key]]]` and no `{{` around it. */
  lemma InlineFieldSingle(a: string, key: string, b: string, v: string, ctx: seq<Field>,
                          provider: ProviderConfig, roleId: Option<int>, rows: seq<UserValue>)
    requires !Contains(a, "[[[") && !EndsWith(a, "[") && !Contains(b, "[[[")
    requires key != "" && '\n' !in key && ']' !in key
    requires ResolveUserField(provider, Strip(key), roleId, rows) == Ok(v)
    requires !Contains(a + v + b, "{{")
    ensures RenderInline(a + "[[[" + key + "]]]" + b, ctx, provider, roleId, rows) == Ok(JStr(a + v + b))
  {
    var s := a + "[[[" + key + "]]]" + b;
    assert s[|a|..|a| + 3] == "[[[";
    ContainsAt(s, "[[[", |a|);
    FieldKeysSingle(a, key, b);
    SubstituteFieldSingle(a, key, b, v, provider, roleId, rows);
    SubstituteContextNoOpen(a + v + b, ctx);
  }

  /** In a mixed string, an inline `[[[key]]]` is replaced by the stored value of the trimmed
      key: this holds when the text around it holds no other placeholder and the key holds no
      `]` or newline, so that `findall` captures exactly that key. With nothing around it, the
      placeholder is a whole string, which `RenderWholeField` covers. */
  lemma RenderInlineField(a: string, key: string, b: string, v: string, ctx: seq<Field>,
                          provider: ProviderConfig, roleId: Option<int>, rows: seq<UserValue>)
    requires a != "" || b != ""
    requires !Contains(a, "[[[") && !EndsWith(a, "[")
    requires !Contains(b, "[[[") && !Contains(b, "]]]") && !StartsWith(b, "]")
    requires key != "" && '\n' !in key && ']' !in key
    requires ResolveUserField(provider, Strip(key), roleId, rows) == Ok(v)
    requires !Contains(a + v + b, "{{")
    ensures Render(JStr(a + "[[[" + key + "]]]" + b), ctx, provider, roleId, rows) == Ok(JStr(a + v + b))
  {
    var s := a + "[[[" + key + "]]]" + b;
    FieldNotWhole(a, key, b, v);
    RenderMixed(s, ctx, provider, roleId, rows);
    InlineFieldSingle(a, key, b, v, ctx, provider, roleId, rows);
  }

  /** In `a + "{{" + key + "}}" + b`, the only `{{` is the placeholder's own when `a` does not
      end in `{`, the key holds no `{`, and neither `a` nor `b` holds `{{`. */
  lemma ContextOpenOnlyAt(a: string, key: string, b: string)
    requires !Contains(a, "{{") && !EndsWith(a, "{") && '{' !in key && !Contains(b, "{{")
    ensures var s := a + "{{" + key + "}}" + b;
      forall p :: 0 <= p < |s| && p != |a| ==> !OccursAt(s, "{{", p)
  {
    var s := a + "{{" + key + "}}" + b;
    var m := |a| + 4 + |key|;
    assert s[..|a|] == a && s[|a|..|a| + 2] == "{{" && s[|a| + 2..m] == key + "}}" && s[m..] == b;
    forall q | |a| + 2 <= q < m
      ensures s[q] != '{'
    {
      assert s[q] == (key + "}}")[q - |a| - 2];
    }
    forall p | 0 <= p < |s| && p != |a|
      ensures !OccursAt(s, "{{", p)
    {
      if p + 2 <= |s| {
        if p + 2 <= |a| {
          assert s[p..p + 2] == a[p..p + 2];
          assert !OccursAt(a, "{{", p);
        } else if p < |a| {
          assert a[|a| - 1..] == [a[|a| - 1]];
          assert s[p..p + 2][0] == s[|a| - 1] == a[|a| - 1];
        } else if p == |a| + 1 {
          assert s[p..p + 2][1] == s[|a| + 2];
        } else if p < m {
          assert s[p..p + 2][0] == s[p];
        } else {
          assert s[p..p + 2] == b[p - m..p - m + 2];
          assert !OccursAt(b, "{{", p - m);
        }
      }
    }
  }

  /** A context placeholder found in that string, for a key without `}`, is the one there. */
  lemma ContextKeyOccurs(a: string, key: string, b: string, other: string, p: int)
    requires !Contains(a, "{{") && !EndsWith(a, "{") && '{' !in key && '}' !in key && !Contains(b, "{{")
    requires '}' !in other
    requires OccursAt(a + "{{" + key + "}}" + b, "{{" + other + "}}", p)
    ensures other == key
  {
    var s := a + "{{" + key + "}}" + b;
    ContextOccursAtOpen(a, key, b, other, p);
    BracketedAt(s, other, p);
    KeyPlaced(a, key, b, s);
    SameBracketed(s, p, key, other);
  }

  /** In `a + "{{" + key + "}}" + b`, the key follows the `{{` after `a`, then a `}`. */
  lemma KeyPlaced(a: string, key: string, b: string, s: string)
    requires s == a + "{{" + key + "}}" + b
    ensures |a| + |key| + 4 <= |s|
    ensures forall k :: 0 <= k < |key| ==> s[|a| + 2 + k] == key[k]
    ensures s[|a| + 2 + |key|] == '}'
  {
  }

  /** `{{other}}` can occur only where the one `{{` is. */
  lemma ContextOccursAtOpen(a: string, key: string, b: string, other: string, p: int)
    requires !Contains(a, "{{") && !EndsWith(a, "{") && '{' !in key && !Contains(b, "{{")
    requires OccursAt(a + "{{" + key + "}}" + b, "{{" + other + "}}", p)
    ensures p == |a|
  {
    var s := a + "{{" + key + "}}" + b;
    ContextOpenOnlyAt(a, key, b);
    assert "{{" + other + "}}" == "{{" + (other + "}}");
    OccursPrefix(s, "{{", other + "}}", p);
  }

  /** Two texts without `}` that both follow `{{` at `p` up to a `}` are the same. */
  lemma SameBracketed(s: string, p: int, t: string, u: string)
    requires '}' !in t && '}' !in u
    requires 0 <= p && p + |t| + 4 <= |s| && p + |u| + 4 <= |s|
    requires forall k :: 0 <= k < |t| ==> s[p + 2 + k] == t[k]
    requires forall k :: 0 <= k < |u| ==> s[p + 2 + k] == u[k]
    requires s[p + 2 + |t|] == '}' && s[p + 2 + |u|] == '}'
    ensures t == u
  {
    CharAt(u, |t|, '}');
    CharAt(t, |u|, '}');
    forall k | 0 <= k < |t|
      ensures t[k] == u[k]
    {
      assert s[p + 2 + k] == t[k];
    }
  }

  /** A character that is not in a string is at none of its positions. */
  lemma CharAt(u: string, i: int, c: char)
    ensures 0 <= i < |u| && c !in u ==> u[i] != c
  {
  }

  /** Where `{{t}}` occurs at `p`, the characters from `p + 2` on are those of `t`, then `}`. */
  lemma BracketedAt(s: string, t: string, p: int)
    requires OccursAt(s, "{{" + t + "}}", p)
    ensures p + |t| + 4 <= |s|
    ensures forall k :: 0 <= k < |t| ==> s[p + 2 + k] == t[k]
    ensures s[p + 2 + |t|] == '}'
  {
    var pat := "{{" + t + "}}";
    assert s[p..p + |pat|] == pat;
    forall k | 0 <= k < |t|
      ensures s[p + 2 + k] == t[k]
    {
      assert s[p + 2 + k] == s[p..p + |pat|][2 + k] == pat[2 + k];
    }
    assert s[p + 2 + |t|] == s[p..p + |pat|][2 + |t|] == pat[2 + |t|];
  }

  /** The `{{key}}` loop over a context in which only entry `i` occurs in `s` and no entry in
      its replacement `t`: the prefix before `i` leaves `s`, and from `i` on the result is `t`. */
  lemma {:induction false} ContextLoopSingle(s: string, t: string, ctx: seq<Field>, i: nat, n: nat)
    requires i < |ctx| && n <= |ctx| && Scalar(ctx[i].val)
    requires Replace(s, "{{" + ctx[i].key + "}}", PyStr(ctx[i].val)) == t
    requires forall j :: 0 <= j < |ctx| && j != i && Scalar(ctx[j].val) ==> !Contains(s, "{{" + ctx[j].key + "}}")
    requires forall j :: 0 <= j < |ctx| && Scalar(ctx[j].val) ==> !Contains(t, "{{" + ctx[j].key + "}}")
    ensures SubstituteContext(s, ctx[..n]) == if n <= i then s else t
  {
    if n > 0 {
      ContextLoopSingle(s, t, ctx, i, n - 1);
      assert ctx[..n][..n - 1] == ctx[..n - 1] && ctx[..n][n - 1] == ctx[n - 1];
      var f := ctx[n - 1];
      if Scalar(f.val) && n - 1 != i {
        ReplaceAbsent(if n - 1 < i then s else t, "{{" + f.key + "}}", PyStr(f.val));
      }
    }
  }

  /** A string holding one `{{key}}` and no field placeholder is no whole-string placeholder
      when there is text around it. */
  lemma ContextNotWhole(a: string, key: string, b: string)
    requires !EndsWith(a, "{") && !Contains(a, "{{") && !Contains(b, "}}") && !StartsWith(b, "}")
    requires a != "" || b != ""
    requires !Contains(a + "{{" + key + "}}" + b, "[[[")
    ensures var s := a + "{{" + key + "}}" + b;
      !WholeField(s) && !(StartsWith(s, "{{") && EndsWith(s, "}}"))
  {
    var s := a + "{{" + key + "}}" + b;
    assert !OccursAt(s, "[[[", 0);
    if a != "" {
      if |a| >= 2 {
        assert s[..2] == a[..2];
        assert !OccursAt(a, "{{", 0);
      } else {
        assert a[|a| - 1..] == [a[0]];
        assert s[..2][0] == a[0];
      }
    } else if |b| >= 2 {
      assert s[|s| - 2..] == b[|b| - 2..];
      assert !OccursAt(b, "}}", |b| - 2);
    } else {
      assert b[..1] == [b[0]];
      assert s[|s| - 2..][1] == b[0];
    }
  }

  /** `replace` of the placeholder in a string where it is the only `{{`. */
  lemma ReplaceContextSingle(a: string, key: string, b: string, rep: string)
    requires !Contains(a, "{{") && !EndsWith(a, "{") && '{' !in key && !Contains(b, "{{")
    ensures Replace(a + "{{" + key + "}}" + b, "{{" + key + "}}", rep) == a + rep + b
  {
    var s := a + "{{" + key + "}}" + b;
    var pat := "{{" + key + "}}";
    ContextOpenOnlyAt(a, key, b);
    assert s == a + pat + b;
    assert pat == "{{" + (key + "}}");
    forall p | 0 <= p < |a|
      ensures !OccursAt(s, pat, p)
    {
      if OccursAt(s, pat, p) {
        OccursPrefix(s, "{{", key + "}}", p);
      }
    }
    if Contains(b, pat) {
      ContainsPrefix(b, "{{", key + "}}");
    }
    ReplaceSingle(a, pat, b, rep);
  }

  /** No other context key's placeholder occurs in a string holding one `{{key}}`. */
  lemma ContextOthersAbsent(a: string, key: string, b: string, ctx: seq<Field>, i: nat)
    requires i < |ctx| && ctx[i].key == key
    requires forall j :: 0 <= j < |ctx| && j != i ==> ctx[j].key != key
    requires forall j :: 0 <= j < |ctx| ==> '}' !in ctx[j].key
    requires !Contains(a, "{{") && !EndsWith(a, "{") && '{' !in key && !Contains(b, "{{")
    ensures forall j :: 0 <= j < |ctx| && j != i ==> !Contains(a + "{{" + key + "}}" + b, "{{" + ctx[j].key + "}}")
  {
    var s := a + "{{" + key + "}}" + b;
    forall j | 0 <= j < |ctx| && j != i
      ensures !Contains(s, "{{" + ctx[j].key + "}}")
    {
      if Contains(s, "{{" + ctx[j].key + "}}") {
        var p :| 0 <= p <= |s| - |"{{" + ctx[j].key + "}}"| && OccursAt(s, "{{" + ctx[j].key + "}}", p);
        ContextKeyOccurs(a, key, b, ctx[j].key, p);
      }
    }
  }

  /** The context loop on a string holding one `{{key}}` of a scalar context value. */
  lemma SubstituteContextSingle(a: string, key: string, b: string, ctx: seq<Field>, i: nat)
    requires i < |ctx| && ctx[i].key == key && Scalar(ctx[i].val)
    requires forall j :: 0 <= j < |ctx| && j != i ==> ctx[j].key != key
    requires forall j :: 0 <= j < |ctx| ==> '}' !in ctx[j].key
    requires '{' !in key && !EndsWith(a, "{")
    requires !Contains(a + PyStr(ctx[i].val) + b, "{{")
    ensures SubstituteContext(a + "{{" + key + "}}" + b, ctx) == a + PyStr(ctx[i].val) + b
  {
    var s := a + "{{" + key + "}}" + b;
    var t := a + PyStr(ctx[i].val) + b;
    NotContainsParts(a, PyStr(ctx[i].val), b, "{{");
    ReplaceContextSingle(a, key, b, PyStr(ctx[i].val));
    ContextOthersAbsent(a, key, b, ctx, i);
    forall j | 0 <= j < |ctx| && Scalar(ctx[j].val)
      ensures !Contains(t, "{{" + ctx[j].key + "}}")
    {
      assert "{{" + ctx[j].key + "}}" == "{{" + (ctx[j].key + "}}");
      if Contains(t, "{{" + ctx[j].key + "}}") {
        ContainsPrefix(t, "{{", ctx[j].key + "}}");
      }
    }
    ContextLoopSingle(s, t, ctx, i, |ctx|);
    assert ctx[..|ctx|] == ctx;
  }

  /** In a mixed string, an inline `{{key}}` of a `str` or `int` context value is replaced by
      `str()` of that value: this holds when the context keys hold no `}`, the key itself no
      `{`, and the text around it holds no other placeholder. */
  lemma RenderInlineContext(a: string, key: string, b: string, ctx: seq<Field>, i: nat,
                            provider: ProviderConfig, roleId: Option<int>, rows: seq<UserValue>)
    requires i < |ctx| && ctx[i].key == key && Scalar(ctx[i].val)
    requires forall j :: 0 <= j < |ctx| && j != i ==> ctx[j].key != key
    requires forall j :: 0 <= j < |ctx| ==> '}' !in ctx[j].key
    requires '{' !in key && !EndsWith(a, "{") && !Contains(b, "}}") && !StartsWith(b, "}")
    requires a != "" || b != ""
    requires !Contains(a + "{{" + key + "}}" + b, "[[[")
    requires !Contains(a + PyStr(ctx[i].val) + b, "{{")
    ensures Render(JStr(a + "{{" + key + "}}" + b), ctx, provider, roleId, rows) == Ok(JStr(a + PyStr(ctx[i].val) + b))
  {
    var s := a + "{{" + key + "}}" + b;
    NotContainsParts(a, PyStr(ctx[i].val), b, "{{");
    ContextNotWhole(a, key, b);
    RenderMixed(s, ctx, provider, roleId, rows);
    SubstituteContextSingle(a, key, b, ctx, i);
  }

  /** Once a prefix of the keys fails, the whole `[[[key]]]` loop fails with the same fault. */
  lemma {:induction false} SubstituteFieldsErrSticks(s: string, keys: seq<string>, n: nat, provider: ProviderConfig, roleId: Option<int>, rows: seq<UserValue>)
    requires n <= |keys|
    requires SubstituteFields(s, keys[..n], provider, roleId, rows).Err?
    ensures SubstituteFields(s, keys, provider, roleId, rows) == SubstituteFields(s, keys[..n], provider, roleId, rows)
    decreases |keys| - n
  {
    if n < |keys| {
      SubstituteFieldsStep(s, keys, n, provider, roleId, rows);
      SubstituteFieldsErrSticks(s, keys, n + 1, provider, roleId, rows);
    } else {
      assert keys[..n] == keys;
    }
  }

  /** The string branch of `_render_template` with its two loops: the placeholders found by
      `findall`, then the context entries. */
  method RenderString(s: string, ctx: seq<Field>, provider: ProviderConfig, roleId: Option<int>, rows: seq<UserValue>) returns (r: Result<Json, Fault>)
    ensures r == RenderStr(s, ctx, provider, roleId, rows)
  {
    if WholeField(s) {
      var f := ResolveUserField(provider, FieldKeyOf(s), roleId, rows);
      if f.Err? {
        return Err(f.error);
      }
      return Ok(JStr(f.value));
    }
    if WholeContext(s, ctx) {
      return Ok(Lookup(ctx, ContextKeyOf(s)).value);
    }
    r := RenderInlineString(s, ctx, provider, roleId, rows);
  }

  /** A string that is not one placeholder as a whole: the field loop, then the context loop. */
  method RenderInlineString(s: string, ctx: seq<Field>, provider: ProviderConfig, roleId: Option<int>, rows: seq<UserValue>) returns (r: Result<Json, Fault>)
    ensures r == RenderInline(s, ctx, provider, roleId, rows)
  {
    var keys := if Contains(s, "[[[") then FieldKeys(s, 0) else [];
    var fields := ReplaceFields(s, keys, provider, roleId, rows);
    if fields.Err? {
      return Err(fields.error);
    }
    var result := ReplaceContext(fields.value, ctx);
    return Ok(JStr(result));
  }

  /** One turn of the loop below: a key that fails to resolve ends the whole loop with its
      fault, and one that resolves has its placeholder replaced. */
  lemma SubstituteFieldsTurn(s: string, keys: seq<string>, i: nat, result: string, provider: ProviderConfig,
                             roleId: Option<int>, rows: seq<UserValue>)
    requires i < |keys| && SubstituteFields(s, keys[..i], provider, roleId, rows) == Ok(result)
    ensures var f := ResolveUserField(provider, Strip(keys[i]), roleId, rows);
      (f.Err? ==> SubstituteFields(s, keys, provider, roleId, rows) == Err(f.error))
      && (f.Ok? ==> SubstituteFields(s, keys[..i + 1], provider, roleId, rows) == Ok(Replace(result, "[[[" + keys[i] + "]]]", f.value)))
  {
    SubstituteFieldsStep(s, keys, i, provider, roleId, rows);
    if ResolveUserField(provider, Strip(keys[i]), roleId, rows).Err? {
      SubstituteFieldsErrSticks(s, keys, i + 1, provider, roleId, rows);
    }
  }

  /** The `for key in re.findall(...)` loop. */
  method ReplaceFields(s: string, keys: seq<string>, provider: ProviderConfig, roleId: Option<int>, rows: seq<UserValue>) returns (r: Result<string, Fault>)
    ensures r == SubstituteFields(s, keys, provider, roleId, rows)
  {
    var result := s;
    var i := 0;
    while i < |keys|
      invariant 0 <= i <= |keys|
      invariant SubstituteFields(s, keys[..i], provider, roleId, rows) == Ok(result)
    {
      SubstituteFieldsTurn(s, keys, i, result, provider, roleId, rows);
      var replacement := ResolveUserField(provider, Strip(keys[i]), roleId, rows);
      if replacement.Err? {
        return Err(replacement.error);
      }
      result := Replace(result, "[[[" + keys[i] + "]]]", replacement.value);
      i := i + 1;
    }
    assert keys[..i] == keys;
    return Ok(result);
  }

  /** The `for key, ctx_value in context.items()` loop. */
  method ReplaceContext(s: string, ctx: seq<Field>) returns (r: string)
    ensures r == SubstituteContext(s, ctx)
  {
    r := s;
    var j := 0;
    while j < |ctx|
      invariant 0 <= j <= |ctx|
      invariant SubstituteContext(s, ctx[..j]) == r
    {
      assert ctx[..j + 1][..j] == ctx[..j];
      if Scalar(ctx[j].val) {
        r := Replace(r, "{{" + ctx[j].key + "}}", PyStr(ctx[j].val));
      }
      j := j + 1;
    }
    assert ctx[..j] == ctx;
  }

  // ---------------------------------------------------------------- log redaction

  /** `_redact`: a long string keeps its first and last four characters, anything else
      becomes `***`. */
  function Mask(v: Json): (r: string)
    ensures |r| <= 9
    ensures v.JStr? && |v.s| > 8 ==> |r| == 9 && r[..4] == v.s[..4] && r[4] == '\U{2026}' && r[5..] == v.s[|v.s| - 4..]
    ensures !(v.JStr? && |v.s| > 8) ==> r == "***"
  {
    if v.JStr? && |v.s| > 8 then v.s[..4] + "\U{2026}" + v.s[|v.s| - 4..] else "***"
  }

  /** Masking a masked value changes nothing. */
  lemma MaskIdempotent(v: Json)
    ensures Mask(JStr(Mask(v))) == Mask(v)
  {
  }

  /** A key whose lower-cased form mentions a token, a cookie, authorization or a session. */
  predicate Sensitive(key: string)
  {
    var k := Lower(key);
    Contains(k, "token") || Contains(k, "cookie") || Contains(k, "authorization") || Contains(k, "session")
  }

  /** `_redact_dict`: the dict with the same keys, the values of sensitive keys masked, nested
      dicts redacted, and every element of a list value masked. */
  function Redacted(v: Json): (r: Json)
    requires v.JMap?
    ensures r.JMap? && Keys(r.entries) == Keys(v.entries)
    ensures forall i :: 0 <= i < |v.entries| && Sensitive(v.entries[i].key) ==>
      r.entries[i].val == JStr(Mask(v.entries[i].val))
    ensures forall i :: 0 <= i < |v.entries| && !Sensitive(v.entries[i].key) && !v.entries[i].val.JMap? && !v.entries[i].val.JList? ==>
      r.entries[i].val == v.entries[i].val
    decreases v, 0
  {
    var es := v.entries;
    JMap(seq(|es|, i requires 0 <= i < |es| => assert es[i] in es; Field(es[i].key, RedactedEntry(es[i].key, es[i].val))))
  }

  function RedactedEntry(key: string, val: Json): Json
    decreases val, 1
  {
    if Sensitive(key) then JStr(Mask(val))
    else if val.JMap? then Redacted(val)
    else if val.JList? then JList(seq(|val.items|, k requires 0 <= k < |val.items| => JStr(Mask(val.items[k]))))
    else val
  }

  /** What a redacted dict shows: no string longer than a mask under a sensitive key or in a
      list, at any depth. */
  predicate NoLongSecrets(v: Json)
    requires v.JMap?
    decreases v, 0
  {
    forall i :: 0 <= i < |v.entries| ==> assert v.entries[i] in v.entries; SafeEntry(v.entries[i].key, v.entries[i].val)
  }

  predicate SafeEntry(key: string, val: Json)
    decreases val, 1
  {
    if Sensitive(key) then val.JStr? && |val.s| <= 9
    else if val.JMap? then NoLongSecrets(val)
    else if val.JList? then forall k :: 0 <= k < |val.items| ==> val.items[k].JStr? && |val.items[k].s| <= 9
    else true
  }

  /** A redacted dict shows no secret longer than its mask. */
  lemma {:induction false} RedactedHidesSecrets(v: Json)
    requires v.JMap?
    ensures NoLongSecrets(Redacted(v))
    decreases v
  {
    var r := Redacted(v);
    forall i | 0 <= i < |r.entries|
      ensures SafeEntry(r.entries[i].key, r.entries[i].val)
    {
      var f := v.entries[i];
      assert r.entries[i] == Field(f.key, RedactedEntry(f.key, f.val));
      if !Sensitive(f.key) && f.val.JMap? {
        RedactedHidesSecrets(f.val);
      }
    }
  }

  /** Redacting twice is redacting once. */
  lemma {:induction false} RedactedIdempotent(v: Json)
    requires v.JMap?
    ensures Redacted(Redacted(v)) == Redacted(v)
    decreases v
  {
    var r := Redacted(v);
    var rr := Redacted(r);
    assert |rr.entries| == |r.entries|;
    forall i | 0 <= i < |r.entries|
      ensures rr.entries[i] == r.entries[i]
    {
      var f := v.entries[i];
      assert r.entries[i] == Field(f.key, RedactedEntry(f.key, f.val));
      assert rr.entries[i] == Field(f.key, RedactedEntry(f.key, r.entries[i].val));
      if Sensitive(f.key) {
        MaskIdempotent(f.val);
      } else if f.val.JMap? {
        RedactedIdempotent(f.val);
      } else if f.val.JList? {
        var xs := r.entries[i].val.items;
        assert forall k :: 0 <= k < |xs| ==> Mask(xs[k]) == xs[k].s by {
          forall k | 0 <= k < |xs| ensures Mask(xs[k]) == xs[k].s {
            MaskIdempotent(f.val.items[k]);
          }
        }
      }
    }
  }

  /** `_redact_dict` with its loop over the entries. */
  method RedactDict(data: Json) returns (r: Json)
    requires data.JMap?
    ensures r == Redacted(data)
    decreases data
  {
    var es := data.entries;
    var redacted: seq<Field> := [];
    var i := 0;
    while i < |es|
      invariant 0 <= i <= |es|
      invariant redacted == Redacted(data).entries[..i]
    {
      var key := es[i].key;
      var val := es[i].val;
      var out: Json;
      if Sensitive(key) {
        out := JStr(Mask(val));
      } else if val.JMap? {
        out := RedactDict(val);
      } else if val.JList? {
        out := JList(seq(|val.items|, k requires 0 <= k < |val.items| => JStr(Mask(val.items[k]))));
      } else {
        out := val;
      }
      redacted := redacted + [Field(key, out)];
      i := i + 1;
    }
    return JMap(redacted);
  }

  // ---------------------------------------------------------------- paths into replies

  /** Following dot-separated keys into nested dicts; anything that is not a dict on the way
      gives None. */
  function Walk(data: Json, parts: seq<string>): Json
    decreases |parts|
  {
    if parts == [] then data
    else if data.JMap? then Walk(Get(data.entries, parts[0]), parts[1..])
    else JNull
  }

  /** `_extract_path` */
  function ExtractPathOf(data: Json, path: Option<string>): (r: Json)
    ensures path.None? ==> r == JNull
  {
    if path.None? then JNull else Walk(data, Split(path.value, "."))
  }

  /** `_extract_path` with its loop over the parts. */
  method ExtractPath(data: Json, path: Option<string>) returns (r: Json)
    ensures r == ExtractPathOf(data, path)
  {
    if path.None? {
      return JNull;
    }
    var parts := Split(path.value, ".");
    var current := data;
    var i := 0;
    while i < |parts|
      invariant 0 <= i <= |parts|
      invariant Walk(data, parts) == Walk(current, parts[i..])
    {
      assert parts[i..][1..] == parts[i + 1..];
      if current.JMap? {
        current := Get(current.entries, parts[i]);
      } else {
        return JNull;
      }
      i := i + 1;
    }
    return current;
  }

  lemma {:induction false} WalkNull(parts: seq<string>)
    ensures Walk(JNull, parts) == JNull
  {
  }

  /** Walking a concatenation of key lists is walking one after the other. */
  lemma {:induction false} WalkAppend(data: Json, p: seq<string>, q: seq<string>)
    ensures Walk(data, p + q) == Walk(Walk(data, p), q)
    decreases |p|
  {
    if p == [] {
      assert p + q == q;
    } else if data.JMap? {
      assert (p + q)[1..] == p[1..] + q;
      WalkAppend(Get(data.entries, p[0]), p[1..], q);
    } else {
      WalkNull(q);
    }
  }

  /** A key with no dot is a path of one part. */
  lemma SplitUndotted(a: string)
    requires '.' !in a
    ensures Split(a, ".") == [a]
  {
    NotContainsChar(a, '.');
    FindContains(a, ".");
  }

  /** The first dot of `a.b` is the one after `a`. */
  lemma SplitAtFirstDot(a: string, b: string)
    requires '.' !in a
    ensures Split(a + "." + b, ".") == [a] + Split(b, ".")
  {
    var s := a + "." + b;
    assert OccursAt(s, ".", |a|) by {
      assert s[|a|..|a| + 1] == ".";
    }
    forall k | 0 <= k < |a|
      ensures !OccursAt(s, ".", k)
    {
      assert s[k] == a[k];
    }
    assert Find(s, ".", 0) == |a|;
    assert s[..|a|] == a && s[|a| + 1..] == b;
  }

  /** `_extract_path(d, "a.b")` is `_extract_path(_extract_path(d, "a"), "b")`. */
  lemma ExtractPathDotted(data: Json, a: string, b: string)
    requires '.' !in a
    ensures ExtractPathOf(data, Some(a + "." + b)) == ExtractPathOf(ExtractPathOf(data, Some(a)), Some(b))
  {
    SplitAtFirstDot(a, b);
    SplitUndotted(a);
    WalkAppend(data, [a], Split(b, "."));
  }

  /** An undotted path reads one key of a dict, and gives None on anything else. */
  lemma ExtractPathKey(data: Json, a: string)
    requires '.' !in a
    ensures ExtractPathOf(data, Some(a)) == if data.JMap? then Get(data.entries, a) else JNull
  {
    SplitUndotted(a);
    assert [a][1..] == [];
    if data.JMap? {
      assert Walk(data, [a]) == Walk(Get(data.entries, a), []);
    }
  }

  /** A configuration value used as a path: None, a string, or anything else, which the
      source would fail on with AttributeError at `.split`. */
  function PathArg(v: Json): (r: Result<Option<string>, Fault>)
    ensures v.JNull? <==> r == Ok(None)
    ensures v.JStr? <==> r.Ok? && r.value.Some?
    ensures r.Ok? && r.value.Some? ==> v == JStr(r.value.value)
  {
    match v
    case JNull => Ok(None)
    case JStr(p) => Ok(Some(p))
    case _ => Err(Malformed)
  }

  /** `_extract_path(data, path) if path else fallback` */
  function PathOr(data: Json, path: Json, fallback: Json): (r: Result<Json, Fault>)
    ensures !Truthy(path) ==> r == Ok(fallback)
    ensures path.JStr? && path.s != "" ==> r == Ok(ExtractPathOf(data, Some(path.s)))
    ensures r.Err? ==> Truthy(path) && !path.JStr? && r.error == Malformed
  {
    if !Truthy(path) then Ok(fallback)
    else
      match PathArg(path)
      case Err(e) => Err(e)
      case Ok(p) => Ok(ExtractPathOf(data, p))
  }

  // ---------------------------------------------------------------- endpoint configuration

  /** `a or b` */
  function Or(a: Json, b: Json): Json
  {
    if Truthy(a) then a else b
  }

  /** `x or {}` */
  function OrEmpty(v: Json): (r: Json)
    ensures Truthy(v) ==> r == v
    ensures !Truthy(v) ==> r == JMap([])
  {
    Or(v, JMap([]))
  }

  /** `provider.endpoints.get(name) or {}`; a non-dict on the way is a failure. */
  function EndpointOf(provider: ProviderConfig, name: string): (r: Result<seq<Field>, Fault>)
    ensures provider.endpoints.JMap? && Get(provider.endpoints.entries, name).JMap? ==>
      r == Ok(Get(provider.endpoints.entries, name).entries)
    ensures provider.endpoints.JMap? && !Truthy(Get(provider.endpoints.entries, name)) ==> r == Ok([])
    ensures r.Err? ==> r.error == Malformed
  {
    if !provider.endpoints.JMap? then Err(Malformed)
    else
      match DictOrEmpty(Get(provider.endpoints.entries, name))
      case None => Err(Malformed)
      case Some(es) => Ok(es)
  }

  /** `endpoint.get(section, {}) or {}` for the `request` and `response` sections. */
  function SectionOf(endpoint: seq<Field>, section: string): (r: Result<seq<Field>, Fault>)
    ensures !HasKey(endpoint, section) ==> r == Ok([])
    ensures r.Err? ==> r.error == Malformed
  {
    match DictOrEmpty(GetOr(endpoint, section, JMap([])))
    case None => Err(Malformed)
    case Some(es) => Ok(es)
  }

  /** `endpoint.get("path")`, which must be set; a path that is not a string is a failure. */
  function PathOf(endpoint: seq<Field>, operation: string): (r: Result<string, Fault>)
    ensures !Truthy(Get(endpoint, "path")) <==> r == Err(PathNotConfigured(operation))
    ensures r.Ok? ==> r.value != "" && Get(endpoint, "path") == JStr(r.value)
  {
    var p := Get(endpoint, "path");
    if !Truthy(p) then Err(PathNotConfigured(operation))
    else if p.JStr? then Ok(p.s)
    else Err(Malformed)
  }

  /** `path.format(session_id=...)` for a path whose only placeholder is `{session_id}`. */
  function FormatPath(path: string, sessionId: string): string
  {
    Replace(path, "{session_id}", sessionId)
  }

  /** A path without the placeholder is used as it is. */
  lemma FormatPathPlain(path: string, sessionId: string)
    requires !Contains(path, "{session_id}")
    ensures FormatPath(path, sessionId) == path
  {
    ReplaceAbsent(path, "{session_id}", sessionId);
  }

  /** `headers or None` */
  function HeadersArg(h: Json): (r: Option<Json>)
    ensures r.Some? <==> Truthy(h)
  {
    if Truthy(h) then Some(h) else None
  }

  /** `raise_for_status()` and the transport's own failures. */
  function Raised(reply: Reply): (r: Option<Fault>)
    ensures r.None? <==> reply.Answered?
    ensures r.Some? ==> r.value.HttpStatus? || r.value.Transport?
  {
    match reply
    case StatusError(code) => Some(HttpStatus(code))
    case TransportFailure => Some(Transport)
    case Answered(_, _) => None
  }

  /** `raise_for_status()` then `resp.json()` */
  function ReplyBody(reply: Reply): (r: Result<Json, Fault>)
    ensures r.Ok? <==> reply.Answered? && reply.body.Some?
    ensures r.Ok? ==> r.value == reply.body.value
  {
    match Raised(reply)
    case Some(f) => Err(f)
    case None => if reply.body.None? then Err(BadResponse) else Ok(reply.body.value)
  }

  // ---------------------------------------------------------------- list_sessions

  /** The loop of `_list_sessions_generic` over the items: each item's string form without an
      id path, otherwise the string form of each id found. */
  function SessionIdsOf(items: seq<Json>, idPath: Json): (r: Result<seq<string>, Fault>)
    ensures r.Err? ==> Truthy(idPath) && !idPath.JStr?
  {
    if items == [] then Ok([])
    else SessionIdStep(SessionIdsOf(items[..|items| - 1], idPath), items[|items| - 1], idPath)
  }

  /** One turn of that loop on the ids so far. */
  function SessionIdStep(prev: Result<seq<string>, Fault>, item: Json, idPath: Json): (r: Result<seq<string>, Fault>)
    ensures prev.Err? ==> r == prev
    ensures r.Err? ==> prev.Err? || (Truthy(idPath) && !idPath.JStr?)
  {
    match prev
    case Err(e) => Err(e)
    case Ok(ids) =>
      if !Truthy(idPath) then Ok(ids + [PyStr(item)])
      else
        match PathArg(idPath)
        case Err(e) => Err(e)
        case Ok(p) =>
          var v := ExtractPathOf(item, p);
          if v.JNull? then Ok(ids) else Ok(ids + [PyStr(v)])
  }

  /** Without an id path, every item is listed by its string form, in order. */
  lemma {:induction false} SessionIdsPlain(items: seq<Json>, idPath: Json)
    requires !Truthy(idPath)
    ensures var r := SessionIdsOf(items, idPath);
      r.Ok? && |r.value| == |items| && forall i :: 0 <= i < |items| ==> r.value[i] == PyStr(items[i])
  {
    if items != [] {
      var prefix := items[..|items| - 1];
      SessionIdsPlain(prefix, idPath);
      assert forall i :: 0 <= i < |prefix| ==> prefix[i] == items[i];
    }
  }

  /** An id the item holds at `path`. */
  predicate IdFound(items: seq<Json>, path: string, id: string)
  {
    exists i :: 0 <= i < |items| && ExtractPathOf(items[i], Some(path)) != JNull
                && id == PyStr(ExtractPathOf(items[i], Some(path)))
  }

  /** With an id path, the listing succeeds, has at most one id per item, and each id is the
      string form of a value found at the path in some item. */
  lemma {:induction false} SessionIdsFound(items: seq<Json>, path: string)
    requires path != ""
    ensures var r := SessionIdsOf(items, JStr(path));
      r.Ok? && |r.value| <= |items| && forall k :: 0 <= k < |r.value| ==> IdFound(items, path, r.value[k])
  {
    if items != [] {
      var prefix := items[..|items| - 1];
      SessionIdsFound(prefix, path);
      var ids := SessionIdsOf(prefix, JStr(path)).value;
      var item := items[|items| - 1];
      var r := SessionIdsOf(items, JStr(path)).value;
      forall k | 0 <= k < |r|
        ensures IdFound(items, path, r[k])
      {
        if k < |ids| {
          assert IdFound(prefix, path, ids[k]);
          var i :| 0 <= i < |prefix| && ExtractPathOf(prefix[i], Some(path)) != JNull
                   && ids[k] == PyStr(ExtractPathOf(prefix[i], Some(path)));
          assert prefix[i] == items[i];
        } else {
          assert items[|items| - 1] == item;
        }
      }
    }
  }

  /** The ids listed for an id path, front to back: the string form of the value each item
      holds at the path, skipping the items that hold none. */
  function IdsAt(items: seq<Json>, path: string): seq<string>
  {
    if items == [] then []
    else
      var v := ExtractPathOf(items[0], Some(path));
      (if v.JNull? then [] else [PyStr(v)]) + IdsAt(items[1..], path)
  }

  /** One more item at the back adds its id, if any, at the back. */
  lemma {:induction false} IdsAtSnoc(items: seq<Json>, item: Json, path: string)
    ensures var v := ExtractPathOf(item, Some(path));
      IdsAt(items + [item], path) == IdsAt(items, path) + (if v.JNull? then [] else [PyStr(v)])
    decreases |items|
  {
    var all := items + [item];
    if items == [] {
      assert all == [item] && all[1..] == [];
    } else {
      assert all[0] == items[0];
      assert all[1..] == items[1..] + [item];
      IdsAtSnoc(items[1..], item, path);
    }
  }

  /** With a non-empty id path, the listing is exactly the ids found at the path, in item order. */
  lemma {:induction false} SessionIdsAt(items: seq<Json>, path: string)
    requires path != ""
    ensures SessionIdsOf(items, JStr(path)) == Ok(IdsAt(items, path))
  {
    if items != [] {
      var prefix := items[..|items| - 1];
      var item := items[|items| - 1];
      SessionIdsAt(prefix, path);
      IdsAtSnoc(prefix, item, path);
      assert prefix + [item] == items;
      assert Truthy(JStr(path)) && PathArg(JStr(path)) == Ok(Some(path));
      assert SessionIdsOf(items, JStr(path)) == SessionIdStep(Ok(IdsAt(prefix, path)), item, JStr(path));
      assert IdsAt(prefix, path) + [] == IdsAt(prefix, path);
    }
  }

  /** Once a prefix of the items fails, the whole loop fails the same way. */
  lemma {:induction false} SessionIdsErrSticks(items: seq<Json>, idPath: Json, n: nat)
    requires n <= |items|
    requires SessionIdsOf(items[..n], idPath).Err?
    ensures SessionIdsOf(items, idPath) == SessionIdsOf(items[..n], idPath)
    decreases |items| - n
  {
    if n < |items| {
      assert items[..n + 1][..n] == items[..n];
      SessionIdsErrSticks(items, idPath, n + 1);
    } else {
      assert items[..n] == items;
    }
  }

  /** The same loop, step by step. */
  method CollectSessionIds(items: seq<Json>, idPath: Json) returns (r: Result<seq<string>, Fault>)
    ensures r == SessionIdsOf(items, idPath)
  {
    var result: seq<string> := [];
    var i := 0;
    while i < |items|
      invariant 0 <= i <= |items|
      invariant SessionIdsOf(items[..i], idPath) == Ok(result)
    {
      assert items[..i + 1][..i] == items[..i];
      var item := items[i];
      if !Truthy(idPath) {
        result := result + [PyStr(item)];
      } else {
        var p := PathArg(idPath);
        if p.Err? {
          SessionIdsErrSticks(items, idPath, i + 1);
          return Err(p.error);
        }
        var value := ExtractPath(item, p.value);
        if !value.JNull? {
          result := result + [PyStr(value)];
        }
      }
      i := i + 1;
    }
    assert items[..i] == items;
    return Ok(result);
  }

  /** `_list_sessions_generic` */
  function ListSessionsGeneric(router: Router, provider: ProviderConfig, transport: Request -> Reply, rows: seq<UserValue>): (r: Result<seq<string>, Fault>)
    ensures r.Ok? ==> provider.providerId in router.clients
  {
    match EndpointOf(provider, "list_sessions")
    case Err(e) => Err(e)
    case Ok(endpoint) =>
      match PathOf(endpoint, "list_sessions")
      case Err(e) => Err(e)
      case Ok(path) =>
        if provider.providerId !in router.clients then Err(NoClient(provider.providerId))
        else
          match SectionOf(endpoint, "request")
          case Err(e) => Err(e)
          case Ok(requestCfg) =>
            var headersTemplate := Or(Get(requestCfg, "headers"), Get(endpoint, "headers"));
            match Render(OrEmpty(headersTemplate), [], provider, None, rows)
            case Err(e) => Err(e)
            case Ok(headers) =>
              var reply := transport(Request(GetOr(endpoint, "method", JStr("GET")), path, None, HeadersArg(headers), false));
              match ReplyBody(reply)
              case Err(e) => Err(e)
              case Ok(data) =>
                match SectionOf(endpoint, "response")
                case Err(e) => Err(e)
                case Ok(responseCfg) => ListedIds(responseCfg, data)
  }

  /** What `_list_sessions_generic` reads from the decoded reply `data`: the value at
      `list_path` (the reply itself when that is falsy), which must be a list, and the ids of
      its items, which `SessionIdsAt` and `SessionIdsPlain` describe. */
  function ListedIds(responseCfg: seq<Field>, data: Json): (r: Result<seq<string>, Fault>)
    ensures !Truthy(Get(responseCfg, "list_path")) ==>
      (!data.JList? ==> r == Err(NotAList))
      && (data.JList? ==> r == SessionIdsOf(data.items, Get(responseCfg, "item_id_path")))
    ensures var listPath := Get(responseCfg, "list_path");
      listPath.JStr? && listPath.s != "" ==>
        var items := ExtractPathOf(data, Some(listPath.s));
        (!items.JList? ==> r == Err(NotAList))
        && (items.JList? ==> r == SessionIdsOf(items.items, Get(responseCfg, "item_id_path")))
    ensures Truthy(Get(responseCfg, "list_path")) && !Get(responseCfg, "list_path").JStr? ==> r == Err(Malformed)
  {
    match PathOr(data, Get(responseCfg, "list_path"), data)
    case Err(e) => Err(e)
    case Ok(items) =>
      if !items.JList? then Err(NotAList)
      else SessionIdsOf(items.items, Get(responseCfg, "item_id_path"))
  }

  /** Once the listing request is answered with a JSON body `data`, the listing is what
      `ListedIds` reads from it. */
  lemma ListSessionsReads(router: Router, provider: ProviderConfig, transport: Request -> Reply, rows: seq<UserValue>,
                          endpoint: seq<Field>, path: string, requestCfg: seq<Field>, headers: Json,
                          data: Json, responseCfg: seq<Field>)
    requires EndpointOf(provider, "list_sessions") == Ok(endpoint)
    requires PathOf(endpoint, "list_sessions") == Ok(path)
    requires provider.providerId in router.clients
    requires SectionOf(endpoint, "request") == Ok(requestCfg)
    requires Render(OrEmpty(Or(Get(requestCfg, "headers"), Get(endpoint, "headers"))), [], provider, None, rows) == Ok(headers)
    requires ReplyBody(transport(Request(GetOr(endpoint, "method", JStr("GET")), path, None, HeadersArg(headers), false))) == Ok(data)
    requires SectionOf(endpoint, "response") == Ok(responseCfg)
    ensures ListSessionsGeneric(router, provider, transport, rows) == ListedIds(responseCfg, data)
  {
  }

  // ---------------------------------------------------------------- create_session, rename_session

  /** `_create_session_generic`: the session id found in the reply, as a string. */
  function CreateSessionGeneric(router: Router, provider: ProviderConfig, transport: Request -> Reply, rows: seq<UserValue>, roleId: Option<int>): (r: Result<string, Fault>)
    ensures r.Ok? ==> r.value != "" && provider.providerId in router.clients
  {
    match EndpointOf(provider, "create_session")
    case Err(e) => Err(e)
    case Ok(endpoint) =>
      match PathOf(endpoint, "create_session")
      case Err(e) => Err(e)
      case Ok(path) =>
        match SectionOf(endpoint, "request")
        case Err(e) => Err(e)
        case Ok(requestCfg) =>
          var bodyTemplate := Or(Get(requestCfg, "body_template"), Get(endpoint, "body"));
          var headersTemplate := Or(Get(requestCfg, "headers"), Get(endpoint, "headers"));
          if provider.providerId !in router.clients then Err(NoClient(provider.providerId))
          else
            match Render(OrEmpty(bodyTemplate), [], provider, roleId, rows)
            case Err(e) => Err(e)
            case Ok(payload) =>
              match Render(OrEmpty(headersTemplate), [], provider, roleId, rows)
              case Err(e) => Err(e)
              case Ok(headers) =>
                var reply := transport(Request(GetOr(endpoint, "method", JStr("POST")), path, Some(payload), HeadersArg(headers), false));
                match ReplyBody(reply)
                case Err(e) => Err(e)
                case Ok(data) =>
                  match SectionOf(endpoint, "response")
                  case Err(e) => Err(e)
                  case Ok(responseCfg) => CreatedId(endpoint, responseCfg, data)
  }

  /** What `_create_session_generic` reads from the decoded reply `data`: the value at
      `session_id_path`, or at the endpoint's `response_session_id_field` when that path is
      falsy; a falsy value is a missing session id, and any other is turned into a string. */
  function CreatedId(endpoint: seq<Field>, responseCfg: seq<Field>, data: Json): (r: Result<string, Fault>)
    ensures r.Ok? ==> r.value != ""
    ensures var idPath := Get(responseCfg, "session_id_path");
      idPath.JStr? && idPath.s != "" ==>
        var v := ExtractPathOf(data, Some(idPath.s));
        r == (if Truthy(v) then Ok(PyStr(v)) else Err(MissingSessionId))
    ensures var field := Get(endpoint, "response_session_id_field");
      !Truthy(Get(responseCfg, "session_id_path")) && field.JStr? && field.s != "" ==>
        var v := ExtractPathOf(data, Some(field.s));
        r == (if Truthy(v) then Ok(PyStr(v)) else Err(MissingSessionId))
    ensures !Truthy(Get(responseCfg, "session_id_path")) && Get(endpoint, "response_session_id_field").JNull? ==>
      r == Err(MissingSessionId)
  {
    var idPath := Or(Get(responseCfg, "session_id_path"), Get(endpoint, "response_session_id_field"));
    match PathArg(idPath)
    case Err(e) => Err(e)
    case Ok(p) =>
      var sessionId := ExtractPathOf(data, p);
      if !Truthy(sessionId) then Err(MissingSessionId)
      else PyStrTruthy(sessionId); Ok(PyStr(sessionId))
  }

  /** Once the creation request is answered with a JSON body `data`, the created id is what
      `CreatedId` reads from it. */
  lemma CreateSessionReads(router: Router, provider: ProviderConfig, transport: Request -> Reply, rows: seq<UserValue>,
                           roleId: Option<int>, endpoint: seq<Field>, path: string, requestCfg: seq<Field>,
                           payload: Json, headers: Json, data: Json, responseCfg: seq<Field>)
    requires EndpointOf(provider, "create_session") == Ok(endpoint)
    requires PathOf(endpoint, "create_session") == Ok(path)
    requires SectionOf(endpoint, "request") == Ok(requestCfg)
    requires provider.providerId in router.clients
    requires Render(OrEmpty(Or(Get(requestCfg, "body_template"), Get(endpoint, "body"))), [], provider, roleId, rows) == Ok(payload)
    requires Render(OrEmpty(Or(Get(requestCfg, "headers"), Get(endpoint, "headers"))), [], provider, roleId, rows) == Ok(headers)
    requires ReplyBody(transport(Request(GetOr(endpoint, "method", JStr("POST")), path, Some(payload), HeadersArg(headers), false))) == Ok(data)
    requires SectionOf(endpoint, "response") == Ok(responseCfg)
    ensures CreateSessionGeneric(router, provider, transport, rows, roleId) == CreatedId(endpoint, responseCfg, data)
  {
  }

  /** `_rename_session_generic`: the context of its templates holds the session id and the name. */
  function RenameSessionGeneric(router: Router, provider: ProviderConfig, transport: Request -> Reply, rows: seq<UserValue>,
                                sessionId: string, name: string, roleId: Option<int>): (r: Result<(), Fault>)
    ensures r.Ok? ==> provider.providerId in router.clients
  {
    match EndpointOf(provider, "rename_session")
    case Err(e) => Err(e)
    case Ok(endpoint) =>
      match PathOf(endpoint, "rename_session")
      case Err(e) => Err(e)
      case Ok(path) =>
        if provider.providerId !in router.clients then Err(NoClient(provider.providerId))
        else
          match SectionOf(endpoint, "request")
          case Err(e) => Err(e)
          case Ok(requestCfg) =>
            var bodyTemplate := Or(Get(requestCfg, "body_template"), Get(endpoint, "body"));
            var headersTemplate := Or(Get(requestCfg, "headers"), Get(endpoint, "headers"));
            var ctx := [Field("session_id", JStr(sessionId)), Field("name", JStr(name))];
            match Render(OrEmpty(bodyTemplate), ctx, provider, roleId, rows)
            case Err(e) => Err(e)
            case Ok(payload) =>
              match Render(OrEmpty(headersTemplate), ctx, provider, roleId, rows)
              case Err(e) => Err(e)
              case Ok(headers) =>
                var reply := transport(Request(GetOr(endpoint, "method", JStr("POST")), FormatPath(path, sessionId), Some(payload), HeadersArg(headers), false));
                match Raised(reply)
                case Some(f) => Err(f)
                case None => Ok(())
  }

  // ---------------------------------------------------------------- send_message

  /** The `stream_*` settings of a `response` section. */
  datatype StreamConfig = StreamConfig(contentPath: Json, donePath: Json, linePrefix: Json, doneValue: Json)

  function StreamConfigOf(responseCfg: seq<Field>): StreamConfig
  {
    StreamConfig(Get(responseCfg, "stream_content_path"), Get(responseCfg, "stream_done_path"),
                 Get(responseCfg, "stream_line_prefix"), Get(responseCfg, "stream_done_value"))
  }

  /** A line after prefix handling: a line that starts with the prefix loses it and is trimmed.
      None when the prefix is a truthy non-string (the source fails at `startswith`). */
  function StreamLine(cfg: StreamConfig, line: string): Option<string>
  {
    if !Truthy(cfg.linePrefix) then Some(line)
    else if !cfg.linePrefix.JStr? then None
    else if StartsWith(line, cfg.linePrefix.s) then Some(Strip(line[|cfg.linePrefix.s|..]))
    else Some(line)
  }

  /** `done_value is not None and line == done_value` */
  predicate IsDoneValue(cfg: StreamConfig, line: string)
  {
    cfg.doneValue.JStr? && line == cfg.doneValue.s
  }

  /** The loop over the streamed lines, from `lines` on with `acc` collected so far: empty lines
      and lines that are not JSON are skipped, a truthy chunk is collected, and the done value
      or a truthy done flag ends the stream. `parse` stands for `json.loads`. */
  function StreamParts(cfg: StreamConfig, parse: string -> Option<Json>, lines: seq<string>, acc: seq<string>): (r: Result<seq<string>, Fault>)
    ensures r.Ok? ==> |acc| <= |r.value| && r.value[..|acc|] == acc
    ensures r.Ok? ==> forall k :: |acc| <= k < |r.value| ==> r.value[k] != ""
    ensures r.Err? ==> r.error == Malformed
    decreases |lines|
  {
    if lines == [] then Ok(acc)
    else if lines[0] == "" then StreamParts(cfg, parse, lines[1..], acc)
    else
      match StreamLine(cfg, lines[0])
      case None => Err(Malformed)
      case Some(line) =>
        if IsDoneValue(cfg, line) then Ok(acc)
        else
          match parse(line)
          case None => StreamParts(cfg, parse, lines[1..], acc)
          case Some(data) =>
            match PathOr(data, cfg.contentPath, JNull)
            case Err(e) => Err(e)
            case Ok(chunk) =>
              var acc' := if Truthy(chunk) then PyStrTruthy(chunk); acc + [PyStr(chunk)] else acc;
              match PathOr(data, cfg.donePath, JNull)
              case Err(e) => Err(e)
              case Ok(done) =>
                if Truthy(done) then Ok(acc')
                else
                  var r := StreamParts(cfg, parse, lines[1..], acc');
                  assert r.Ok? ==> r.value[..|acc|] == r.value[..|acc'|][..|acc|];
                  r
  }

  /** A line the loop passes over: empty, or not JSON and not the done value. */
  predicate SkippedLine(cfg: StreamConfig, parse: string -> Option<Json>, line: string)
  {
    line == "" || (StreamLine(cfg, line).Some? && !IsDoneValue(cfg, StreamLine(cfg, line).value) && parse(StreamLine(cfg, line).value).None?)
  }

  /** A line that ends the stream by matching the done value. */
  predicate DoneLine(cfg: StreamConfig, line: string)
  {
    line != "" && StreamLine(cfg, line).Some? && IsDoneValue(cfg, StreamLine(cfg, line).value)
  }

  /** A skipped line can be dropped from anywhere in the stream. */
  lemma {:induction false} StreamSkipsLine(cfg: StreamConfig, parse: string -> Option<Json>, pre: seq<string>, line: string, post: seq<string>, acc: seq<string>)
    requires SkippedLine(cfg, parse, line)
    ensures StreamParts(cfg, parse, pre + [line] + post, acc) == StreamParts(cfg, parse, pre + post, acc)
    decreases |pre|
  {
    if pre == [] {
      assert ([line] + post)[1..] == post;
      assert pre + [line] + post == [line] + post;
      assert pre + post == post;
    } else {
      var lines := pre + [line] + post;
      assert lines[0] == (pre + post)[0] == pre[0];
      assert lines[1..] == pre[1..] + [line] + post;
      assert (pre + post)[1..] == pre[1..] + post;
      forall acc' {
        StreamSkipsLine(cfg, parse, pre[1..], line, post, acc');
      }
    }
  }

  /** Nothing after a line with the done value is read. */
  lemma {:induction false} StreamStopsAtDone(cfg: StreamConfig, parse: string -> Option<Json>, pre: seq<string>, line: string, post: seq<string>, acc: seq<string>)
    requires DoneLine(cfg, line)
    ensures StreamParts(cfg, parse, pre + [line] + post, acc) == StreamParts(cfg, parse, pre + [line], acc)
    decreases |pre|
  {
    if pre == [] {
      assert pre + [line] + post == [line] + post;
      assert pre + [line] == [line];
    } else {
      var lines := pre + [line] + post;
      assert lines[0] == (pre + [line])[0] == pre[0];
      assert lines[1..] == pre[1..] + [line] + post;
      assert (pre + [line])[1..] == pre[1..] + [line];
      forall acc' {
        StreamStopsAtDone(cfg, parse, pre[1..], line, post, acc');
      }
    }
  }

  /** A JSON line that is not the done value adds its chunk when the chunk is truthy, and ends
      the stream when its done flag is truthy. */
  lemma StreamDataLine(cfg: StreamConfig, parse: string -> Option<Json>, line: string, data: Json, rest: seq<string>, acc: seq<string>)
    requires line != "" && StreamLine(cfg, line).Some? && !IsDoneValue(cfg, StreamLine(cfg, line).value)
    requires parse(StreamLine(cfg, line).value) == Some(data)
    requires PathOr(data, cfg.contentPath, JNull).Ok? && PathOr(data, cfg.donePath, JNull).Ok?
    ensures var chunk := PathOr(data, cfg.contentPath, JNull).value;
      var acc' := if Truthy(chunk) then acc + [PyStr(chunk)] else acc;
      StreamParts(cfg, parse, [line] + rest, acc)
        == if Truthy(PathOr(data, cfg.donePath, JNull).value) then Ok(acc') else StreamParts(cfg, parse, rest, acc')
  {
    assert ([line] + rest)[0] == line && ([line] + rest)[1..] == rest;
  }

  /** The stream loop, step by step. */
  method CollectStream(cfg: StreamConfig, parse: string -> Option<Json>, lines: seq<string>) returns (r: Result<seq<string>, Fault>)
    ensures r == StreamParts(cfg, parse, lines, [])
  {
    var parts: seq<string> := [];
    var i := 0;
    while i < |lines|
      invariant 0 <= i <= |lines|
      invariant StreamParts(cfg, parse, lines, []) == StreamParts(cfg, parse, lines[i..], parts)
    {
      assert lines[i..][0] == lines[i] && lines[i..][1..] == lines[i + 1..];
      if lines[i] != "" {
        var line := StreamLine(cfg, lines[i]);
        if line.None? {
          return Err(Malformed);
        }
        if IsDoneValue(cfg, line.value) {
          return Ok(parts);
        }
        var data := parse(line.value);
        if data.Some? {
          var chunk := PathOr(data.value, cfg.contentPath, JNull);
          if chunk.Err? {
            return Err(chunk.error);
          }
          if Truthy(chunk.value) {
            parts := parts + [PyStr(chunk.value)];
          }
          var done := PathOr(data.value, cfg.donePath, JNull);
          if done.Err? {
            return Err(done.error);
          }
          if Truthy(done.value) {
            return Ok(parts);
          }
        }
      }
      i := i + 1;
    }
    return Ok(parts);
  }

  /** The streamed answer: the collected parts joined and trimmed, which must not be empty. */
  function StreamAnswer(cfg: StreamConfig, parse: string -> Option<Json>, reply: Reply): (r: Result<string, Fault>)
    ensures r.Ok? ==> r.value != "" && NoSpaceEnds(r.value)
    ensures r.Err? ==> r.error.HttpStatus? || r.error.Transport? || r.error.Malformed? || r.error.StreamEmpty?
    ensures !reply.Answered? ==> r == Err(Raised(reply).value)
    ensures reply.Answered? ==>
      var parts := StreamParts(cfg, parse, reply.lines, []);
      (parts.Err? ==> r == Err(parts.error))
      && (parts.Ok? && Strip(Concat(parts.value)) == "" ==> r == Err(StreamEmpty))
      && (parts.Ok? && Strip(Concat(parts.value)) != "" ==> r == Ok(Strip(Concat(parts.value))))
  {
    match Raised(reply)
    case Some(f) => Err(f)
    case None =>
      match StreamParts(cfg, parse, reply.lines, [])
      case Err(e) => Err(e)
      case Ok(parts) =>
        var result := Strip(Concat(parts));
        if result == "" then Err(StreamEmpty) else Ok(result)
  }

  /** The plain answer: the value at `content_path` (the whole body without one), which must
      be truthy, as a string. */
  function PlainAnswer(responseCfg: seq<Field>, reply: Reply): (r: Result<string, Fault>)
    ensures r.Ok? ==> r.value != ""
    ensures r.Err? ==> r.error.HttpStatus? || r.error.Transport? || r.error.BadResponse? || r.error.Malformed? || r.error.MissingContent?
    ensures reply.Answered? && reply.body.Some? && !Truthy(Get(responseCfg, "content_path")) ==>
      (Truthy(reply.body.value) ==> r == Ok(PyStr(reply.body.value)))
      && (!Truthy(reply.body.value) ==> r == Err(MissingContent))
    ensures var contentPath := Get(responseCfg, "content_path");
      reply.Answered? && reply.body.Some? && contentPath.JStr? && contentPath.s != "" ==>
        var v := ExtractPathOf(reply.body.value, Some(contentPath.s));
        r == (if Truthy(v) then Ok(PyStr(v)) else Err(MissingContent))
    ensures var contentPath := Get(responseCfg, "content_path");
      reply.Answered? && reply.body.Some? && Truthy(contentPath) && !contentPath.JStr? ==> r == Err(Malformed)
    ensures reply.Answered? && reply.body.None? ==> r == Err(BadResponse)
    ensures !reply.Answered? ==> r == Err(Raised(reply).value)
  {
    match ReplyBody(reply)
    case Err(e) => Err(e)
    case Ok(data) =>
      match PathOr(data, Get(responseCfg, "content_path"), data)
      case Err(e) => Err(e)
      case Ok(value) =>
        if !Truthy(value) then Err(MissingContent)
        else PyStrTruthy(value); Ok(PyStr(value))
  }

  /** The context of a send: the session id, the new text, the model, and the stored history
      as a list of role/content dicts. */
  function SendContext(sessionId: string, content: string, modelId: Option<string>, history: seq<Message>): (ctx: seq<Field>)
    ensures Keys(ctx) == ["session_id", "content", "model", "messages"]
    ensures Lookup(ctx, "content") == Some(JStr(content))
  {
    [Field("session_id", JStr(sessionId)), Field("content", JStr(content)),
     Field("model", if modelId.Some? then JStr(modelId.value) else JNull),
     Field("messages", JList(seq(|history|, i requires 0 <= i < |history| =>
       JMap([Field("role", JStr(history[i].role)), Field("content", JStr(history[i].content))]))))]
  }

  /** The request `_send_generic` makes and the `response` section it reads the reply with. */
  function SendRequest(provider: ProviderConfig, turns: seq<Turn>, rows: seq<UserValue>, sessionId: string, content: string,
                       modelId: Option<string>, roleId: Option<int>): (r: Result<(Request, seq<Field>), Fault>)
    ensures r.Err? ==> FieldFault(r.error) || r.error.Malformed? || r.error.PathNotConfigured?
    ensures r.Ok? ==> r.value.0.payload.Some? && r.value.0.stream == Truthy(Get(r.value.1, "stream"))
  {
    match EndpointOf(provider, "send_message")
    case Err(e) => Err(e)
    case Ok(endpoint) =>
      match PathOf(endpoint, "send_message")
      case Err(e) => Err(e)
      case Ok(path) =>
        var history := if provider.historyEnabled then History(turns, sessionId, provider.historyLimit) else [];
        var ctx := SendContext(sessionId, content, modelId, history);
        match SectionOf(endpoint, "request")
        case Err(e) => Err(e)
        case Ok(requestCfg) =>
          var bodyTemplate := OrEmpty(Get(requestCfg, "body_template"));
          var headersTemplate := Or(Get(requestCfg, "headers"), Get(endpoint, "headers"));
          match Render(bodyTemplate, ctx, provider, roleId, rows)
          case Err(e) => Err(e)
          case Ok(payload) =>
            var verb := GetOr(endpoint, "method", JStr("POST"));
            match Render(OrEmpty(headersTemplate), ctx, provider, roleId, rows)
            case Err(e) => Err(e)
            case Ok(headers) =>
              match SectionOf(endpoint, "response")
              case Err(e) => Err(e)
              case Ok(responseCfg) =>
                var stream := Truthy(Get(responseCfg, "stream"));
                Ok((Request(verb, FormatPath(path, sessionId), Some(payload), HeadersArg(headers), stream), responseCfg))
  }

  /** The failures of building a request and reading its reply; none is about the provider
      being registered, having a client, its adapter or its capabilities. */
  predicate SendFault(f: Fault)
  {
    FieldFault(f) || f.Malformed? || f.PathNotConfigured? || f.HttpStatus? || f.Transport? || f.BadResponse?
    || f.MissingContent? || f.StreamEmpty?
  }

  /** `_send_generic`: the request goes out, and the reply is read as a stream or as one body. */
  function SendGeneric(provider: ProviderConfig, transport: Request -> Reply, parse: string -> Option<Json>,
                       turns: seq<Turn>, rows: seq<UserValue>, sessionId: string, content: string,
                       modelId: Option<string>, roleId: Option<int>): (r: Result<string, Fault>)
    ensures r.Ok? ==> r.value != ""
    ensures r.Err? ==> SendFault(r.error)
  {
    match SendRequest(provider, turns, rows, sessionId, content, modelId, roleId)
    case Err(e) => Err(e)
    case Ok((request, responseCfg)) => Answer(request.stream, responseCfg, parse, transport(request))
  }

  /** The reply read as a stream or as one body: a non-empty answer, or a failure of the
      transport or of the reply. */
  function Answer(stream: bool, responseCfg: seq<Field>, parse: string -> Option<Json>, reply: Reply): (r: Result<string, Fault>)
    ensures r.Ok? ==> r.value != ""
    ensures r.Err? ==> r.error.HttpStatus? || r.error.Transport? || r.error.BadResponse? || r.error.Malformed?
                       || r.error.MissingContent? || r.error.StreamEmpty?
  {
    if stream then StreamAnswer(StreamConfigOf(responseCfg), parse, reply) else PlainAnswer(responseCfg, reply)
  }

  /** The provider and model id a send goes to: the model id is dropped when the provider does
      not declare `model_select`. No capability is checked. */
  function SendTarget(router: Router, ref: Option<string>): (r: Result<(ProviderConfig, Option<string>), Fault>)
    ensures var pid := SplitModel(router, ref).0;
      (r.Ok? <==> pid in router.registry && pid in router.clients)
      && (r.Ok? ==> r.value.0 == router.registry[pid])
    ensures r.Ok? && !Capable(r.value.0, "model_select") ==> r.value.1 == None
    ensures r.Ok? && Capable(r.value.0, "model_select") ==> r.value.1 == SplitModel(router, ref).1
    ensures r.Err? ==> r.error.NotRegistered? || r.error.NoClient?
  {
    var (pid, model) := SplitModel(router, ref);
    match GetProvider(router, pid)
    case Err(e) => Err(e)
    case Ok(provider) =>
      var modelId := if Capable(provider, "model_select") then model else None;
      if pid !in router.clients then Err(NoClient(pid)) else Ok((provider, modelId))
  }

  /** `send_message`: the answer, or the first failure. Sending never fails for want of a
      capability or because of the adapter kind: those are checked only by the session
      operations. */
  function SendOutcome(router: Router, transport: Request -> Reply, parse: string -> Option<Json>,
                       turns: seq<Turn>, rows: seq<UserValue>, sessionId: string, content: string,
                       ref: Option<string>, roleId: Option<int>): (r: Result<string, Fault>)
    ensures r.Ok? ==> r.value != ""
    ensures r.Err? ==> SendFault(r.error) || r.error.NotRegistered? || r.error.NoClient?
  {
    match SendTarget(router, ref)
    case Err(e) => Err(e)
    case Ok((provider, modelId)) => SendGeneric(provider, transport, parse, turns, rows, sessionId, content, modelId, roleId)
  }

  /** `send_message` against the store: on success the user's text and the answer are appended
      to the session's history, in that order; on failure nothing is stored. */
  method SendMessage(router: Router, store: Store, transport: Request -> Reply, parse: string -> Option<Json>,
                     sessionId: string, content: string, ref: Option<string>, roleId: Option<int>) returns (r: Result<string, Fault>)
    modifies store
    ensures r == SendOutcome(router, transport, parse, old(store.turns), old(store.userValues), sessionId, content, ref, roleId)
    ensures r.Ok? ==> store.turns == old(store.turns) + [Turn(sessionId, "user", content), Turn(sessionId, "assistant", r.value)]
    ensures r.Err? ==> store.turns == old(store.turns)
    ensures store.sessions == old(store.sessions) && store.userValues == old(store.userValues)
  {
    r := SendOutcome(router, transport, parse, store.turns, store.userValues, sessionId, content, ref, roleId);
    if r.Ok? {
      store.AddConversationMessage(sessionId, "user", content);
      store.AddConversationMessage(sessionId, "assistant", r.value);
    }
  }

  // ---------------------------------------------------------------- public operations

  /** `provider_id_for_model` and `auth_mode_for_model`: the provider's auth mode, `none` when empty. */
  function AuthModeForModel(router: Router, ref: Option<string>): (r: Result<string, Fault>)
    ensures var pid := SplitModel(router, ref).0;
      (r.Ok? <==> pid in router.registry)
      && (r.Ok? && router.registry[pid].authMode != "" ==> r.value == router.registry[pid].authMode)
      && (r.Ok? && router.registry[pid].authMode == "" ==> r.value == "none")
  {
    match GetProvider(router, SplitModel(router, ref).0)
    case Err(e) => Err(e)
    case Ok(provider) => Ok(if provider.authMode == "" then "none" else provider.authMode)
  }

  /** `list_sessions`: only for a generic provider that declares `list_sessions`. */
  function ListSessions(router: Router, transport: Request -> Reply, rows: seq<UserValue>, ref: Option<string>): (r: Result<seq<string>, Fault>)
    ensures r.Ok? ==> EnsureCapability(router, SplitModel(router, ref).0, "list_sessions").Ok?
    ensures EnsureCapability(router, SplitModel(router, ref).0, "list_sessions").Err? ==>
      r == Err(EnsureCapability(router, SplitModel(router, ref).0, "list_sessions").error)
  {
    match EnsureCapability(router, SplitModel(router, ref).0, "list_sessions")
    case Err(e) => Err(e)
    case Ok(provider) => ListSessionsGeneric(router, provider, transport, rows)
  }

  /** `create_session`: only for a generic provider that declares `create_session`. */
  function CreateSession(router: Router, transport: Request -> Reply, rows: seq<UserValue>, roleId: Option<int>, ref: Option<string>): (r: Result<string, Fault>)
    ensures r.Ok? ==> EnsureCapability(router, SplitModel(router, ref).0, "create_session").Ok? && r.value != ""
    ensures EnsureCapability(router, SplitModel(router, ref).0, "create_session").Err? ==>
      r == Err(EnsureCapability(router, SplitModel(router, ref).0, "create_session").error)
  {
    match EnsureCapability(router, SplitModel(router, ref).0, "create_session")
    case Err(e) => Err(e)
    case Ok(provider) => CreateSessionGeneric(router, provider, transport, rows, roleId)
  }

  /** `rename_session`: only for a generic provider that declares `rename_session`. */
  function RenameSession(router: Router, transport: Request -> Reply, rows: seq<UserValue>, sessionId: string, name: string,
                         roleId: Option<int>, ref: Option<string>): (r: Result<(), Fault>)
    ensures r.Ok? ==> EnsureCapability(router, SplitModel(router, ref).0, "rename_session").Ok?
    ensures EnsureCapability(router, SplitModel(router, ref).0, "rename_session").Err? ==>
      r == Err(EnsureCapability(router, SplitModel(router, ref).0, "rename_session").error)
  {
    match EnsureCapability(router, SplitModel(router, ref).0, "rename_session")
    case Err(e) => Err(e)
    case Ok(provider) => RenameSessionGeneric(router, provider, transport, rows, sessionId, name, roleId)
  }
}
