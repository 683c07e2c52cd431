/**
 * Model and provider selection for a role, and the assembly of the text sent to the model
 * from the user's message, the group's instructions and the message replied to.
 */
module PromptBuilder {
  import opened Base
  import opened Text
  import opened Providers
  import opened LlmRouter

  /** `provider_id_from_model` */
  function ProviderIdFromModel(ref: Option<string>, defaultProviderId: string, registry: map<string, ProviderConfig>): (r: string)
    ensures ref.Some? && ':' in ref.value ==> ':' !in r && StartsWith(ref.value, r + ":")
  {
    if ref.None? || ref.value == "" then defaultProviderId
    else
      var s := ref.value;
      if ':' in s then
        var i := IndexOf(s, ':');
        assert (s[..i] + ":") == s[..i + 1];
        s[..i]
      else if s in registry then s
      else defaultProviderId
  }

  /** The helper picks the same provider as the router's own split of a reference. */
  lemma ProviderIdMatchesRouter(ref: Option<string>, defaultProviderId: string, registry: map<string, ProviderConfig>, clients: set<string>)
    ensures ProviderIdFromModel(ref, defaultProviderId, registry) == SplitModel(Router(registry, clients, defaultProviderId), ref).0
  {
  }

  /** `role_requires_auth`: an unknown provider needs auth; a known one unless its mode is `none`. */
  function RoleRequiresAuth(registry: map<string, ProviderConfig>, ref: Option<string>, defaultProviderId: string): (r: bool)
    ensures ProviderIdFromModel(ref, defaultProviderId, registry) !in registry ==> r
  {
    var providerId := ProviderIdFromModel(ref, defaultProviderId, registry);
    providerId !in registry || registry[providerId].authMode != "none"
  }

  /** For a registered provider with a non-empty auth mode, needing auth is the router's auth
      mode not being `none`. */
  lemma RequiresAuthMatchesRouter(registry: map<string, ProviderConfig>, ref: Option<string>, defaultProviderId: string, clients: set<string>)
    requires var pid := ProviderIdFromModel(ref, defaultProviderId, registry); pid in registry && registry[pid].authMode != ""
    ensures RoleRequiresAuth(registry, ref, defaultProviderId)
      <==> AuthModeForModel(Router(registry, clients, defaultProviderId), ref) != Ok("none")
  {
    ProviderIdMatchesRouter(ref, defaultProviderId, registry, clients);
  }

  /** `resolve_provider_model`: the selection when it names a model or a provider, else the
      first loaded model; no model at all is an error. */
  function ResolveProviderModel(models: seq<ProviderModel>, modelKeys: set<string>, registry: map<string, ProviderConfig>,
                                selected: Option<string>): (r: Result<string, ()>)
    ensures selected.Some? && selected.value != "" && (selected.value in modelKeys || selected.value in registry) ==> r == Ok(selected.value)
    ensures !(selected.Some? && selected.value != "" && (selected.value in modelKeys || selected.value in registry)) ==>
      (models == [] ==> r.Err?) && (models != [] ==> r == Ok(models[0].FullId()))
  {
    if selected.Some? && selected.value != "" && selected.value in modelKeys then Ok(selected.value)
    else if selected.Some? && selected.value != "" && selected.value in registry then Ok(selected.value)
    else if models == [] then Err(())
    else Ok(models[0].FullId())
  }

  const UserRequest: string := "#USER_REQUEST"
  const Sep: string := "\n\n"

  /** Python's truthiness of an optional string. */
  predicate Given(s: Option<string>)
  {
    s.Some? && s.value != ""
  }

  /** The general instructions section. */
  function GeneralSection(suffix: Option<string>): seq<string>
  {
    if Given(suffix) then ["#GENERAL_INSTRUCTIONS", suffix.value] else []
  }

  /** The context section: its instruction header, the reply prefix and the replied text. */
  function ContextSection(prefix: Option<string>, reply: Option<string>): seq<string>
  {
    if Given(reply) || Given(prefix) then
      ["#CONTEXT_INSTRUCTIONS"] + (if Given(prefix) then [prefix.value] else []) + (if Given(reply) then ["#CONTEXT", reply.value] else [])
    else []
  }

  /** The instruction and context sections that come before the user request. */
  function Preamble(suffix: Option<string>, prefix: Option<string>, reply: Option<string>): (parts: seq<string>)
  {
    GeneralSection(suffix) + ContextSection(prefix, reply)
  }

  /** The preamble is empty exactly when nothing is given; the general section comes first and
      the replied text last. */
  lemma PreambleSpec(suffix: Option<string>, prefix: Option<string>, reply: Option<string>)
    ensures var parts := Preamble(suffix, prefix, reply);
      (parts == [] <==> !Given(suffix) && !Given(reply) && !Given(prefix))
      && (Given(suffix) ==> |parts| >= 2 && parts[..2] == ["#GENERAL_INSTRUCTIONS", suffix.value])
      && (!Given(suffix) && (Given(reply) || Given(prefix)) ==> parts[0] == "#CONTEXT_INSTRUCTIONS")
      && (Given(reply) ==> |parts| >= 3 && parts[|parts| - 2..] == ["#CONTEXT", reply.value])
      && (Given(suffix) && !Given(reply) && !Given(prefix) ==> parts == ["#GENERAL_INSTRUCTIONS", suffix.value])
  {
    var general := GeneralSection(suffix);
    var context := ContextSection(prefix, reply);
    var parts := general + context;
    assert Given(suffix) ==> parts[..2] == general;
    assert Given(reply) ==> parts[|parts| - 2..] == ["#CONTEXT", reply.value];
  }

  /** The sections of the assembled text, before empty parts are dropped. */
  function ContentParts(userText: string, suffix: Option<string>, prefix: Option<string>, reply: Option<string>): (parts: seq<string>)
  {
    Preamble(suffix, prefix, reply) + [UserRequest, userText]
  }

  /** `part for part in parts if part` */
  function NonEmpty(parts: seq<string>): (r: seq<string>)
    ensures |r| <= |parts|
    ensures forall i :: 0 <= i < |r| ==> r[i] != ""
  {
    if parts == [] then [] else (if parts[0] == "" then [] else [parts[0]]) + NonEmpty(parts[1..])
  }

  /** The filter keeps exactly the non-empty parts. */
  lemma {:induction false} NonEmptyMembers(parts: seq<string>, x: string)
    ensures x in NonEmpty(parts) <==> x in parts && x != ""
  {
    if parts != [] {
      NonEmptyMembers(parts[1..], x);
      assert parts == [parts[0]] + parts[1..];
    }
  }

  lemma {:induction false} NonEmptyAppend(a: seq<string>, b: seq<string>)
    ensures NonEmpty(a + b) == NonEmpty(a) + NonEmpty(b)
  {
    if a == [] {
      assert a + b == b;
    } else {
      assert (a + b)[0] == a[0] && (a + b)[1..] == a[1..] + b;
      NonEmptyAppend(a[1..], b);
    }
  }

  /** The context block of `build_llm_content`: its header, the reply prefix when given and
      the replied text under its own header when given. */
  method AppendContext(parts: seq<string>, prefix: Option<string>, reply: Option<string>) returns (out: seq<string>)
    requires Given(reply) || Given(prefix)
    ensures out == parts + ContextSection(prefix, reply)
  {
    out := parts + ["#CONTEXT_INSTRUCTIONS"];
    if Given(prefix) {
      out := out + [prefix.value];
    }
    if Given(reply) {
      out := out + ["#CONTEXT"];
      out := out + [reply.value];
    }
  }

  /** `build_llm_content` with its list of parts. */
  method BuildLlmContent(userText: string, suffix: Option<string>, prefix: Option<string>, reply: Option<string>) returns (r: string)
    ensures !Given(suffix) && !Given(reply) && !Given(prefix) ==> r == userText
    ensures (Given(suffix) || Given(reply) || Given(prefix)) ==>
      r == Strip(Join(NonEmpty(ContentParts(userText, suffix, prefix, reply)), Sep))
  {
    var hasGeneral := Given(suffix);
    var hasReply := Given(reply);
    var hasContextInstructions := Given(prefix);
    if !hasGeneral && !hasReply && !hasContextInstructions {
      return userText;
    }
    var parts: seq<string> := [];
    if hasGeneral {
      parts := parts + ["#GENERAL_INSTRUCTIONS"];
      parts := parts + [suffix.value];
    }
    assert parts == GeneralSection(suffix);
    if hasReply || hasContextInstructions {
      parts := AppendContext(parts, prefix, reply);
    }
    assert parts == Preamble(suffix, prefix, reply);
    ghost var front := parts;
    parts := parts + [UserRequest];
    parts := parts + [userText];
    assert parts == front + [UserRequest, userText];
    r := Strip(Join(NonEmpty(parts), Sep));
  }

  lemma JoinHead(xs: seq<string>, sep: string)
    requires xs != [] && xs[0] != ""
    ensures Join(xs, sep) != "" && Join(xs, sep)[0] == xs[0][0]
  {
  }

  lemma NonEmptyPair(x: string, y: string)
    requires x != "" && y != ""
    ensures NonEmpty([x, y]) == [x, y]
  {
    assert [x, y][1..] == [y];
    assert [y][1..] == [];
  }

  /** The request section survives the filter whole, behind what is kept of the preamble. */
  lemma ContentKept(userText: string, suffix: Option<string>, prefix: Option<string>, reply: Option<string>)
    requires userText != ""
    ensures NonEmpty(ContentParts(userText, suffix, prefix, reply)) == NonEmpty(Preamble(suffix, prefix, reply)) + [UserRequest, userText]
  {
    var parts := ContentParts(userText, suffix, prefix, reply);
    var front := Preamble(suffix, prefix, reply);
    assert parts == front + [UserRequest, userText];
    NonEmptyAppend(front, [UserRequest, userText]);
    NonEmptyPair(UserRequest, userText);
  }

  /** The kept preamble opens with its section header. */
  lemma PreambleHead(suffix: Option<string>, prefix: Option<string>, reply: Option<string>)
    requires Given(suffix) || Given(reply) || Given(prefix)
    ensures var kept := NonEmpty(Preamble(suffix, prefix, reply)); kept != [] && kept[0] != "" && kept[0][0] == '#'
  {
    var front := Preamble(suffix, prefix, reply);
    PreambleSpec(suffix, prefix, reply);
    assert front[0][0] == '#';
    assert NonEmpty(front) == [front[0]] + NonEmpty(front[1..]);
  }

  /** Joining parts and then a header `h` and a text is joining the parts and appending both. */
  lemma JoinTwoMore(kept: seq<string>, h: string, userText: string, sep: string)
    requires kept != []
    ensures Join(kept + [h, userText], sep) == Join(kept, sep) + sep + (h + sep + userText)
  {
    assert kept + [h, userText] == (kept + [h]) + [userText];
    JoinAppend(kept + [h], userText, sep);
    JoinAppend(kept, h, sep);
  }

  /** A text that opens with `head` and closes with `tail` keeps their outer characters. */
  lemma ConcatEnds(head: string, mid: string, tail: string)
    requires head != [] && tail != []
    ensures var s := head + mid + tail;
      s[0] == head[0] && s[|s| - 1] == tail[|tail| - 1] && EndsWith(s, tail)
  {
    var s := head + mid + tail;
    assert s[|s| - |tail|..] == tail;
  }

  /** Joining a non-empty list of parts that opens with a header, then a header `h` and the
      user's text. */
  lemma JoinedShape(kept: seq<string>, h: string, userText: string, sep: string)
    requires kept != [] && kept[0] != "" && kept[0][0] == '#'
    requires userText != "" && !IsSpace(userText[|userText| - 1])
    ensures var joined := Join(kept + [h, userText], sep);
      NoSpaceEnds(joined) && joined[0] == '#' && EndsWith(joined, h + sep + userText)
  {
    JoinTwoMore(kept, h, userText, sep);
    JoinHead(kept, sep);
    var tail := h + sep + userText;
    assert tail[|tail| - 1] == userText[|userText| - 1];
    ConcatEnds(Join(kept, sep), sep, tail);
  }

  /** With any instruction or context, the text opens with a section header and, for a user
      text without trailing whitespace, ends with the user request section, which nothing is
      stripped from. */
  lemma ContentLayout(userText: string, suffix: Option<string>, prefix: Option<string>, reply: Option<string>)
    requires Given(suffix) || Given(reply) || Given(prefix)
    requires userText != "" && !IsSpace(userText[|userText| - 1])
    ensures var joined := Join(NonEmpty(ContentParts(userText, suffix, prefix, reply)), Sep);
      Strip(joined) == joined && joined[0] == '#' && EndsWith(joined, UserRequest + Sep + userText)
  {
    ContentKept(userText, suffix, prefix, reply);
    PreambleHead(suffix, prefix, reply);
    var kept := NonEmpty(Preamble(suffix, prefix, reply));
    var joined := Join(kept + [UserRequest, userText], Sep);
    assert Join(NonEmpty(ContentParts(userText, suffix, prefix, reply)), Sep) == joined;
    JoinedShape(kept, UserRequest, userText, Sep);
    StripKeeps(joined);
  }
}
