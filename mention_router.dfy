/**
 * Routing of a group message to the roles it addresses: only the owner's messages are
 * routed, the bot must be mentioned when so configured, `@all` addresses every role, and
 * otherwise the longest mentioned role name wins.
 */
module MentionRouter {
  import opened Base
  import opened Text
  import opened Utils
  import opened SessionResolver

  /** `RouteResult` */
  datatype RouteResult = RouteResult(roles: seq<Role>, content: string, isAll: bool)

  /** `{role.role_name.lower(): role for role in roles}`: a later role wins a shared name. */
  function RoleMap(roles: seq<Role>): (m: map<string, Role>)
    ensures forall k :: k in m ==> Lower(m[k].roleName) == k
    ensures |m| <= |roles|
  {
    if roles == [] then map[]
    else
      var last := roles[|roles| - 1];
      RoleMap(roles[..|roles| - 1])[Lower(last.roleName) := last]
  }

  /** The keys are the lower-cased names, and each maps to a role of that name. */
  lemma {:induction false} RoleMapKeys(roles: seq<Role>)
    ensures forall k :: k in RoleMap(roles) ==> RoleMap(roles)[k] in roles && Lower(RoleMap(roles)[k].roleName) == k
    ensures forall i :: 0 <= i < |roles| ==> Lower(roles[i].roleName) in RoleMap(roles)
  {
    if roles != [] {
      var init := roles[..|roles| - 1];
      RoleMapKeys(init);
      assert roles == init + [roles[|roles| - 1]];
      forall i | 0 <= i < |roles| - 1
        ensures Lower(roles[i].roleName) in RoleMap(roles)
      {
        assert roles[i] == init[i];
      }
    }
  }

  /** The last role with a name is the one the name maps to. */
  lemma {:induction false} RoleMapLastWins(roles: seq<Role>, j: nat)
    requires j < |roles|
    requires forall i :: j < i < |roles| ==> Lower(roles[i].roleName) != Lower(roles[j].roleName)
    ensures Lower(roles[j].roleName) in RoleMap(roles) && RoleMap(roles)[Lower(roles[j].roleName)] == roles[j]
  {
    var init := roles[..|roles| - 1];
    if j < |roles| - 1 {
      assert init[j] == roles[j];
      RoleMapLastWins(init, j);
    }
  }

  /** The bot is mentioned: `@` and its lower-cased name occur in the lower-cased text. */
  predicate BotMentioned(text: string, botUsername: string)
  {
    Contains(Lower(text), "@" + Lower(botUsername))
  }

  /** `extract_role_mentions` over the role names, in the set's iteration order `keyOrder`. */
  function RoleMentions(cleaned: string, keyOrder: seq<string>): seq<string>
  {
    SortByLength(Mentioned(cleaned, keyOrder))
  }

  /** The first mention is a key of the role map, already lower-cased. */
  lemma FirstMentionKey(roles: seq<Role>, keyOrder: seq<string>, cleaned: string)
    requires forall k :: k in keyOrder <==> k in RoleMap(roles)
    requires RoleMentions(cleaned, keyOrder) != []
    ensures var key := RoleMentions(cleaned, keyOrder)[0]; key in RoleMap(roles) && Lower(key) == key
  {
    var key := RoleMentions(cleaned, keyOrder)[0];
    RoleMentionsExactly(cleaned, keyOrder);
    assert key in RoleMentions(cleaned, keyOrder);
    RoleMapKeys(roles);
    LowerIdempotent(RoleMap(roles)[key].roleName);
  }

  /** `route_message`. `keyOrder` is the order in which the set of role-map keys is iterated. */
  function RouteMessage(text: string, botUsername: string, roles: seq<Role>, keyOrder: seq<string>,
                        ownerUserId: int, authorUserId: int, requireBotMention: bool): (r: Option<RouteResult>)
    requires forall k :: k in keyOrder <==> k in RoleMap(roles)
    ensures authorUserId != ownerUserId ==> r.None?
    ensures requireBotMention && !BotMentioned(text, botUsername) ==> r.None?
    ensures r.Some? ==> forall x :: x in r.value.roles ==> x in roles
    ensures r.Some? ==> (r.value.isAll <==> Contains(Lower(StripBotMention(text, botUsername)), "@all"))
    ensures r.Some? && r.value.isAll ==> r.value.roles == roles
    ensures r.Some? && !r.value.isAll ==> |r.value.roles| == 1
  {
    if authorUserId != ownerUserId then None
    else if requireBotMention && !BotMentioned(text, botUsername) then None
    else
      var roleMap := RoleMap(roles);
      var cleaned := StripBotMention(text, botUsername);
      if Contains(Lower(cleaned), "@all") then
        Some(RouteResult(roles, Strip(Replace(cleaned, "@all", "")), true))
      else
        var mentioned := RoleMentions(cleaned, keyOrder);
        if mentioned == [] then None
        else
          FirstMentionKey(roles, keyOrder, cleaned);
          RoleMapKeys(roles);
          var role := roleMap[Lower(mentioned[0])];
          Some(RouteResult([role], Strip(ReplaceFirst(cleaned, "@" + role.roleName, "")), false))
  }

  /** A single routed role is mentioned, no mentioned role has a longer name, and the content
      is the cleaned text without the first `@name` of that role, stripped. */
  lemma RouteChoosesLongest(text: string, botUsername: string, roles: seq<Role>, keyOrder: seq<string>,
                            ownerUserId: int, authorUserId: int, requireBotMention: bool)
    requires forall k :: k in keyOrder <==> k in RoleMap(roles)
    ensures var r := RouteMessage(text, botUsername, roles, keyOrder, ownerUserId, authorUserId, requireBotMention);
      var cleaned := StripBotMention(text, botUsername);
      r.Some? && !r.value.isAll ==>
        Mentions(cleaned, r.value.roles[0].roleName)
        && (forall x :: x in roles && Mentions(cleaned, x.roleName) ==> |x.roleName| <= |r.value.roles[0].roleName|)
        && r.value.content == Strip(ReplaceFirst(cleaned, "@" + r.value.roles[0].roleName, ""))
  {
    var r := RouteMessage(text, botUsername, roles, keyOrder, ownerUserId, authorUserId, requireBotMention);
    var cleaned := StripBotMention(text, botUsername);
    if r.Some? && !r.value.isAll {
      var mentioned := RoleMentions(cleaned, keyOrder);
      RoleMentionsExactly(cleaned, keyOrder);
      RoleMapKeys(roles);
      FirstMentionKey(roles, keyOrder, cleaned);
      var key := mentioned[0];
      var role := r.value.roles[0];
      assert role == RoleMap(roles)[key];
      LowerIdempotent(role.roleName);
      assert key in mentioned;
      assert Mentions(cleaned, key);
      forall x | x in roles && Mentions(cleaned, x.roleName)
        ensures |x.roleName| <= |role.roleName|
      {
        var k := Lower(x.roleName);
        LowerIdempotent(x.roleName);
        var i :| 0 <= i < |roles| && roles[i] == x;
        assert k in RoleMap(roles);
        assert k in mentioned;
        var m :| 0 <= m < |mentioned| && mentioned[m] == k;
        if m > 0 {
          assert |mentioned[0]| >= |mentioned[m]|;
        }
      }
    }
  }

  /** Without `@all` and without any role mentioned there is no route. */
  lemma RouteNeedsMention(text: string, botUsername: string, roles: seq<Role>, keyOrder: seq<string>,
                          ownerUserId: int, authorUserId: int, requireBotMention: bool)
    requires forall k :: k in keyOrder <==> k in RoleMap(roles)
    requires authorUserId == ownerUserId && (requireBotMention ==> BotMentioned(text, botUsername))
    ensures var cleaned := StripBotMention(text, botUsername);
      RouteMessage(text, botUsername, roles, keyOrder, ownerUserId, authorUserId, requireBotMention).None?
      <==> !Contains(Lower(cleaned), "@all") && forall x :: x in roles ==> !Mentions(cleaned, x.roleName)
  {
    var cleaned := StripBotMention(text, botUsername);
    var mentioned := RoleMentions(cleaned, keyOrder);
    RoleMentionsExactly(cleaned, keyOrder);
    RoleMapKeys(roles);
    if !Contains(Lower(cleaned), "@all") {
      if mentioned == [] {
        forall x | x in roles
          ensures !Mentions(cleaned, x.roleName)
        {
          var i :| 0 <= i < |roles| && roles[i] == x;
          LowerIdempotent(x.roleName);
          assert Lower(x.roleName) in keyOrder;
        }
      } else {
        var key := mentioned[0];
        assert key in mentioned;
        assert key in RoleMap(roles);
        var x := RoleMap(roles)[key];
        LowerIdempotent(x.roleName);
        assert x in roles && Mentions(cleaned, x.roleName);
      }
    }
  }
}
