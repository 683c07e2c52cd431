/**
 * The three SQLite tables the core reads and writes: the session bound to each
 * (user, group, role), the per-session message history, and per-user provider values.
 * Timestamps are the caller's clock reading, as integers.
 */
module Storage {
  import opened Base

  /** The primary key of `user_role_sessions`. */
  datatype SessionKey = SessionKey(userId: int, groupId: int, roleId: int)

  datatype SessionRow = SessionRow(sessionId: string, createdAt: int, lastUsedAt: int)

  /** A row of `conversation_messages`; the sequence order is the `message_id` order. */
  datatype Turn = Turn(sessionId: string, role: string, content: string)

  /** A `(role, content)` pair as the history query returns it. */
  datatype Message = Message(role: string, content: string)

  /** A row of `provider_user_data`; `roleId` None is SQL NULL (a provider-scoped value). */
  datatype UserValue = UserValue(providerId: string, key: string, roleId: Option<int>, value: string)

  // ---------------------------------------------------------------- user_role_sessions

  /** `save_user_role_session`: an upsert that keeps `created_at` of an existing row. */
  function SessionsSaved(sessions: map<SessionKey, SessionRow>, k: SessionKey, sessionId: string, now: int): (r: map<SessionKey, SessionRow>)
    ensures k in r && r[k].sessionId == sessionId && r[k].lastUsedAt == now
    ensures r[k].createdAt == (if k in sessions then sessions[k].createdAt else now)
    ensures r.Keys == sessions.Keys + {k}
    ensures forall o :: o in sessions && o != k ==> r[o] == sessions[o]
  {
    var created := if k in sessions then sessions[k].createdAt else now;
    sessions[k := SessionRow(sessionId, created, now)]
  }

  /** `touch_user_role_session`: an UPDATE, so a missing row stays missing. */
  function SessionsTouched(sessions: map<SessionKey, SessionRow>, k: SessionKey, now: int): (r: map<SessionKey, SessionRow>)
    ensures r.Keys == sessions.Keys
    ensures k in sessions ==> r[k] == sessions[k].(lastUsedAt := now)
    ensures forall o :: o in sessions && o != k ==> r[o] == sessions[o]
  {
    if k in sessions then sessions[k := sessions[k].(lastUsedAt := now)] else sessions
  }

  /** `delete_user_role_session` */
  function SessionsDeleted(sessions: map<SessionKey, SessionRow>, k: SessionKey): (r: map<SessionKey, SessionRow>)
    ensures r.Keys == sessions.Keys - {k}
    ensures forall o :: o in r ==> r[o] == sessions[o]
  {
    sessions - {k}
  }

  /** Touching never changes which session a key is bound to. */
  lemma TouchKeepsBinding(sessions: map<SessionKey, SessionRow>, k: SessionKey, now: int)
    requires k in sessions
    ensures SessionsTouched(sessions, k, now)[k].sessionId == sessions[k].sessionId
    ensures SessionsTouched(sessions, k, now)[k].createdAt == sessions[k].createdAt
  {
  }

  // ---------------------------------------------------------------- conversation_messages

  /** Every message of one session, oldest first (`ORDER BY message_id ASC`). */
  function SessionHistory(turns: seq<Turn>, sessionId: string): (r: seq<Message>)
    ensures |r| <= |turns|
    ensures forall m :: m in r ==> exists t :: t in turns && t.sessionId == sessionId && m == Message(t.role, t.content)
  {
    if turns == [] then []
    else
      var before := SessionHistory(turns[..|turns| - 1], sessionId);
      var t := turns[|turns| - 1];
      if t.sessionId == sessionId then before + [Message(t.role, t.content)] else before
  }

  /** `list_conversation_messages`: with a limit, the newest `limit` messages in ascending
      order. SQLite reads a negative LIMIT as no limit at all. */
  function History(turns: seq<Turn>, sessionId: string, limit: Option<int>): (r: seq<Message>)
    ensures var all := SessionHistory(turns, sessionId);
      |r| <= |all| && r == all[|all| - |r|..]
    ensures var all := SessionHistory(turns, sessionId);
      (limit.None? || limit.value < 0) ==> r == all
    ensures var all := SessionHistory(turns, sessionId);
      (limit.Some? && 0 <= limit.value) ==> |r| == (if limit.value < |all| then limit.value else |all|)
  {
    var all := SessionHistory(turns, sessionId);
    if limit.None? || limit.value < 0 || limit.value >= |all| then all
    else all[|all| - limit.value..]
  }

  /** Appending a message extends its own session's history by exactly that message
      and leaves every other session's history as it was. */
  lemma HistoryAfterAppend(turns: seq<Turn>, t: Turn, sessionId: string)
    ensures t.sessionId == sessionId ==>
      SessionHistory(turns + [t], sessionId) == SessionHistory(turns, sessionId) + [Message(t.role, t.content)]
    ensures t.sessionId != sessionId ==> SessionHistory(turns + [t], sessionId) == SessionHistory(turns, sessionId)
  {
    assert (turns + [t])[..|turns|] == turns;
  }

  // ---------------------------------------------------------------- provider_user_data

  predicate Matches(row: UserValue, providerId: string, key: string, roleId: Option<int>)
  {
    row.providerId == providerId && row.key == key && row.roleId == roleId
  }

  /** `get_provider_user_value`: `role_id IS ?` matches NULL to NULL; the first matching row. */
  function UserValueOf(rows: seq<UserValue>, providerId: string, key: string, roleId: Option<int>): (r: Option<string>)
    ensures r.Some? <==> AnyMatch(rows, providerId, key, roleId)
    ensures rows != [] && Matches(rows[0], providerId, key, roleId) ==> r == Some(rows[0].value)
  {
    if rows == [] then None
    else if Matches(rows[0], providerId, key, roleId) then Some(rows[0].value)
    else UserValueOf(rows[1..], providerId, key, roleId)
  }

  /** The read finds nothing exactly when no row matches, and otherwise the value of a
      matching row. */
  lemma {:induction false} UserValueOfSpec(rows: seq<UserValue>, providerId: string, key: string, roleId: Option<int>)
    ensures var r := UserValueOf(rows, providerId, key, roleId);
      r.None? <==> forall i :: 0 <= i < |rows| ==> !Matches(rows[i], providerId, key, roleId)
    ensures var r := UserValueOf(rows, providerId, key, roleId);
      r.Some? ==> exists i :: 0 <= i < |rows| && Matches(rows[i], providerId, key, roleId) && rows[i].value == r.value
  {
    if rows != [] && !Matches(rows[0], providerId, key, roleId) {
      UserValueOfSpec(rows[1..], providerId, key, roleId);
      assert forall i :: 1 <= i < |rows| ==> rows[i] == rows[1..][i - 1];
    }
  }

  function Overwrite(rows: seq<UserValue>, providerId: string, key: string, roleId: Option<int>, value: string): (r: seq<UserValue>)
    ensures |r| == |rows|
    ensures forall i :: 0 <= i < |rows| ==> r[i] == if Matches(rows[i], providerId, key, roleId) then rows[i].(value := value) else rows[i]
  {
    seq(|rows|, i requires 0 <= i < |rows| =>
      if Matches(rows[i], providerId, key, roleId) then rows[i].(value := value) else rows[i])
  }

  predicate AnyMatch(rows: seq<UserValue>, providerId: string, key: string, roleId: Option<int>)
  {
    exists i :: 0 <= i < |rows| && Matches(rows[i], providerId, key, roleId)
  }

  /** `set_provider_user_value` AS WRITTEN: `ON CONFLICT(provider_id, key, role_id)` never fires
      when `role_id` is NULL, because SQLite treats NULLs in a key as distinct, so a
      provider-scoped value is appended as a further row every time. */
  function UserValuesSetAsWritten(rows: seq<UserValue>, providerId: string, key: string, roleId: Option<int>, value: string): (r: seq<UserValue>)
    ensures roleId.None? ==> r == rows + [UserValue(providerId, key, roleId, value)]
    ensures UserValueOf(r, providerId, key, roleId) ==
      (if roleId.None? && UserValueOf(rows, providerId, key, roleId).Some? then UserValueOf(rows, providerId, key, roleId)
       else Some(value))
    ensures forall p, k, o :: !(p == providerId && k == key && o == roleId) ==>
      UserValueOf(r, p, k, o) == UserValueOf(rows, p, k, o)
  {
    var row := UserValue(providerId, key, roleId, value);
    if roleId.Some? && AnyMatch(rows, providerId, key, roleId) then
      var r := Overwrite(rows, providerId, key, roleId, value);
      OverwriteReads(rows, providerId, key, roleId, value);
      r
    else
      var r := rows + [row];
      AppendRead(rows, row);
      UserValueOfSpec(rows, providerId, key, roleId);
      r
  }

  /** Appending a row changes only the reads that found nothing and that the row matches. */
  lemma {:induction false} AppendRead(rows: seq<UserValue>, row: UserValue)
    ensures forall p, k, o ::
      UserValueOf(rows + [row], p, k, o) ==
        (if UserValueOf(rows, p, k, o).Some? then UserValueOf(rows, p, k, o)
         else if Matches(row, p, k, o) then Some(row.value) else None)
  {
    if rows != [] {
      assert (rows + [row])[1..] == rows[1..] + [row];
      AppendRead(rows[1..], row);
    }
  }

  /** Writing a provider-scoped value twice, as written: the read returns the first value. */
  lemma StaleProviderScopedValue()
    ensures var once := UserValuesSetAsWritten([], "p", "auth_token", None, "old-token");
      var twice := UserValuesSetAsWritten(once, "p", "auth_token", None, "new-token");
      UserValueOf(twice, "p", "auth_token", None) == Some("old-token")
  {
    var once := UserValuesSetAsWritten([], "p", "auth_token", None, "old-token");
    assert once == [UserValue("p", "auth_token", None, "old-token")];
    var twice := UserValuesSetAsWritten(once, "p", "auth_token", None, "new-token");
    assert twice[0] == UserValue("p", "auth_token", None, "old-token");
  }

  /** `set_provider_user_value` as intended: an upsert on (provider, key, role), NULL included. */
  function UserValuesSet(rows: seq<UserValue>, providerId: string, key: string, roleId: Option<int>, value: string): (r: seq<UserValue>)
    ensures UserValueOf(r, providerId, key, roleId) == Some(value)
    ensures forall p, k, o :: !(p == providerId && k == key && o == roleId) ==>
      UserValueOf(r, p, k, o) == UserValueOf(rows, p, k, o)
  {
    if AnyMatch(rows, providerId, key, roleId) then
      var r := Overwrite(rows, providerId, key, roleId, value);
      OverwriteReads(rows, providerId, key, roleId, value);
      r
    else
      var r := rows + [UserValue(providerId, key, roleId, value)];
      AppendReads(rows, UserValue(providerId, key, roleId, value));
      r
  }

  lemma {:induction false} OverwriteReads(rows: seq<UserValue>, providerId: string, key: string, roleId: Option<int>, value: string)
    requires AnyMatch(rows, providerId, key, roleId)
    ensures UserValueOf(Overwrite(rows, providerId, key, roleId, value), providerId, key, roleId) == Some(value)
    ensures forall p, k, o :: !(p == providerId && k == key && o == roleId) ==>
      UserValueOf(Overwrite(rows, providerId, key, roleId, value), p, k, o) == UserValueOf(rows, p, k, o)
  {
    var r := Overwrite(rows, providerId, key, roleId, value);
    assert r[1..] == Overwrite(rows[1..], providerId, key, roleId, value);
    if !Matches(rows[0], providerId, key, roleId) {
      var i :| 0 <= i < |rows| && Matches(rows[i], providerId, key, roleId);
      assert Matches(rows[1..][i - 1], providerId, key, roleId);
      OverwriteReads(rows[1..], providerId, key, roleId, value);
    } else if AnyMatch(rows[1..], providerId, key, roleId) {
      OverwriteReads(rows[1..], providerId, key, roleId, value);
    } else {
      OverwriteNone(rows[1..], providerId, key, roleId, value);
    }
  }

  lemma OverwriteNone(rows: seq<UserValue>, providerId: string, key: string, roleId: Option<int>, value: string)
    requires !AnyMatch(rows, providerId, key, roleId)
    ensures Overwrite(rows, providerId, key, roleId, value) == rows
  {
  }

  lemma {:induction false} AppendReads(rows: seq<UserValue>, row: UserValue)
    requires !AnyMatch(rows, row.providerId, row.key, row.roleId)
    ensures UserValueOf(rows + [row], row.providerId, row.key, row.roleId) == Some(row.value)
    ensures forall p, k, o :: !(p == row.providerId && k == row.key && o == row.roleId) ==>
      UserValueOf(rows + [row], p, k, o) == UserValueOf(rows, p, k, o)
  {
    if rows != [] {
      assert (rows + [row])[1..] == rows[1..] + [row];
      assert !AnyMatch(rows[1..], row.providerId, row.key, row.roleId) by {
        forall i | 0 <= i < |rows[1..]|
          ensures !Matches(rows[1..][i], row.providerId, row.key, row.roleId)
        {
          assert rows[1..][i] == rows[i + 1];
        }
      }
      AppendReads(rows[1..], row);
    }
  }

  /** `delete_provider_user_value`: removes every matching row. */
  function UserValuesDeleted(rows: seq<UserValue>, providerId: string, key: string, roleId: Option<int>): (r: seq<UserValue>)
    ensures UserValueOf(r, providerId, key, roleId).None?
    ensures forall p, k, o :: !(p == providerId && k == key && o == roleId) ==>
      UserValueOf(r, p, k, o) == UserValueOf(rows, p, k, o)
  {
    if rows == [] then []
    else
      var rest := UserValuesDeleted(rows[1..], providerId, key, roleId);
      if Matches(rows[0], providerId, key, roleId) then rest else [rows[0]] + rest
  }

  /** The database, table by table. */
  class Store {
    var sessions: map<SessionKey, SessionRow>
    var turns: seq<Turn>
    var userValues: seq<UserValue>

    constructor()
      ensures sessions == map[] && turns == [] && userValues == []
    {
      sessions := map[];
      turns := [];
      userValues := [];
    }

    function GetUserRoleSession(k: SessionKey): (r: Option<SessionRow>)
      reads this
      ensures r.Some? <==> k in sessions
      ensures r.Some? ==> r.value == sessions[k]
    {
      if k in sessions then Some(sessions[k]) else None
    }

    method SaveUserRoleSession(k: SessionKey, sessionId: string, now: int)
      modifies this
      ensures sessions == SessionsSaved(old(sessions), k, sessionId, now)
      ensures turns == old(turns) && userValues == old(userValues)
    {
      sessions := SessionsSaved(sessions, k, sessionId, now);
    }

    method TouchUserRoleSession(k: SessionKey, now: int)
      modifies this
      ensures sessions == SessionsTouched(old(sessions), k, now)
      ensures turns == old(turns) && userValues == old(userValues)
    {
      sessions := SessionsTouched(sessions, k, now);
    }

    method DeleteUserRoleSession(k: SessionKey)
      modifies this
      ensures sessions == SessionsDeleted(old(sessions), k)
      ensures turns == old(turns) && userValues == old(userValues)
    {
      sessions := SessionsDeleted(sessions, k);
    }

    method AddConversationMessage(sessionId: string, role: string, content: string)
      modifies this
      ensures turns == old(turns) + [Turn(sessionId, role, content)]
      ensures sessions == old(sessions) && userValues == old(userValues)
    {
      turns := turns + [Turn(sessionId, role, content)];
    }

    function ListConversationMessages(sessionId: string, limit: Option<int>): (r: seq<Message>)
      reads this
      ensures r == History(turns, sessionId, limit)
    {
      History(turns, sessionId, limit)
    }

    function GetProviderUserValue(providerId: string, key: string, roleId: Option<int>): (r: Option<string>)
      reads this
      ensures r == UserValueOf(userValues, providerId, key, roleId)
    {
      UserValueOf(userValues, providerId, key, roleId)
    }

    method SetProviderUserValue(providerId: string, key: string, roleId: Option<int>, value: string)
      modifies this
      ensures userValues == UserValuesSetAsWritten(old(userValues), providerId, key, roleId, value)
      ensures sessions == old(sessions) && turns == old(turns)
    {
      userValues := UserValuesSetAsWritten(userValues, providerId, key, roleId, value);
    }

    method DeleteProviderUserValue(providerId: string, key: string, roleId: Option<int>)
      modifies this
      ensures userValues == UserValuesDeleted(old(userValues), providerId, key, roleId)
      ensures sessions == old(sessions) && turns == old(turns)
    {
      userValues := UserValuesDeleted(userValues, providerId, key, roleId);
    }
  }
}
