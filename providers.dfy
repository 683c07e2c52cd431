/**
 * Provider descriptors: parsing one already-decoded provider document into a configuration,
 * and building the registry from the documents of a directory in sorted file order.
 */
module Providers {
  import opened Base
  import opened Text
  import opened Json

  /** One model a provider offers; its composite identity is `provider:model`. */
  datatype ProviderModel = ProviderModel(providerId: string, modelId: string, display: string)
  {
    /** `full_id` */
    function FullId(): string
    {
      providerId + ":" + modelId
    }

    /** `label_full` */
    function LabelFull(): string
    {
      providerId + " / " + display
    }
  }

  datatype Scope = ProviderScope | RoleScope

  /** A value the end user supplies once (a token, say), scoped to the provider or to a role. */
  datatype UserField = UserField(key: string, prompt: string, scope: Scope)

  datatype ProviderConfig = ProviderConfig(
    providerId: string,
    display: string,
    baseUrl: string,
    tlsCaCertPath: Json,
    adapter: string,
    capabilities: map<string, bool>,
    authMode: string,
    endpoints: Json,
    models: seq<ProviderModel>,
    historyEnabled: bool,
    historyLimit: Option<int>,
    userFields: map<string, UserField>)

  /** What parsing one file gives: a configuration, a logged skip (the source returns None),
      or a crash (an AttributeError or TypeError that the source does not catch). */
  datatype ParseOutcome = Parsed(config: ProviderConfig) | Skipped | Crashed

  datatype Registry = Registry(providers: map<string, ProviderConfig>, models: seq<ProviderModel>)

  /** A provider document that the source would fail on with an uncaught exception. */
  datatype LoadFailure = MalformedDocument

  /** `str(value.get("scope", "provider")).strip() or "provider"`, then the invalid-scope fallback. */
  function ScopeOf(doc: seq<Field>): (sc: Scope)
    ensures sc == RoleScope <==> Strip(PyStr(GetOr(doc, "scope", JStr("provider")))) == "role"
  {
    var raw := Strip(PyStr(GetOr(doc, "scope", JStr("provider"))));
    var scope := if raw == "" then "provider" else raw;
    if scope == "role" then RoleScope else ProviderScope
  }

  /** No later entry of the list has the key of entry `i`: in a dict built from the list,
      entry `i` has the last word on its key. */
  predicate LastWithKey(es: seq<Field>, i: int)
    requires 0 <= i < |es|
  {
    forall j :: i < j < |es| ==> es[j].key != es[i].key
  }

  /** `str(value.get("prompt", "")).strip()` */
  function PromptOf(entries: seq<Field>): string
  {
    Strip(PyStr(GetOr(entries, "prompt", JStr(""))))
  }

  /** A `user_fields` entry the loop stores: a dict with a non-blank prompt. */
  predicate Usable(e: Field)
  {
    e.val.JMap? && PromptOf(e.val.entries) != ""
  }

  /** The field a usable entry is stored as. */
  function FieldFor(e: Field): (f: UserField)
    requires e.val.JMap?
    ensures f.key == e.key && f.prompt == PromptOf(e.val.entries) && f.scope == ScopeOf(e.val.entries)
  {
    UserField(e.key, PromptOf(e.val.entries), ScopeOf(e.val.entries))
  }

  /** The effect of one `user_fields` entry on the map being filled: a non-dict value or a
      blank prompt is skipped, a usable entry is stored under its key, and every other key
      keeps what it had. */
  function AddUserField(fields: map<string, UserField>, e: Field): (r: map<string, UserField>)
    ensures forall k :: k in r ==> (k in fields && r[k] == fields[k]) || (k == e.key && r[k].key == k && r[k].prompt != "")
    ensures !Usable(e) ==> r == fields
    ensures Usable(e) ==> e.key in r && r[e.key] == FieldFor(e)
    ensures forall k :: k != e.key ==> (k in r <==> k in fields) && (k in fields ==> r[k] == fields[k])
  {
    if !e.val.JMap? then fields
    else
      var prompt := PromptOf(e.val.entries);
      if prompt == "" then fields
      else fields[e.key := FieldFor(e)]
  }

  /** The `user_fields` map after the loop has seen the entries `es`, in order. */
  function UserFieldsOf(es: seq<Field>): (fields: map<string, UserField>)
    ensures forall k :: k in fields ==> fields[k].key == k && fields[k].prompt != ""
    ensures forall k :: k in fields ==> HasKey(es, k)
  {
    if es == [] then map[]
    else
      var before := UserFieldsOf(es[..|es| - 1]);
      HasKeyLast(es);
      AddUserField(before, es[|es| - 1])
  }

  /** Entry `i` of a list keeps the last word on its key in the list without its last entry. */
  lemma LastWithKeyInit(es: seq<Field>, i: int)
    requires 0 <= i < |es| - 1 && LastWithKey(es, i)
    ensures LastWithKey(es[..|es| - 1], i)
    ensures es[|es| - 1].key != es[i].key
  {
    var init := es[..|es| - 1];
    forall j | i < j < |init|
      ensures init[j].key != init[i].key
    {
      assert init[j] == es[j];
    }
  }

  /** Each usable entry that has the last word on its key is stored with its stripped prompt
      and its scope. */
  lemma {:induction false} UserFieldsOfComplete(es: seq<Field>)
    ensures forall i :: 0 <= i < |es| && Usable(es[i]) && LastWithKey(es, i) ==>
      es[i].key in UserFieldsOf(es) && UserFieldsOf(es)[es[i].key] == FieldFor(es[i])
  {
    if es != [] {
      var init := es[..|es| - 1];
      UserFieldsOfComplete(init);
      forall i | 0 <= i < |es| && Usable(es[i]) && LastWithKey(es, i)
        ensures es[i].key in UserFieldsOf(es) && UserFieldsOf(es)[es[i].key] == FieldFor(es[i])
      {
        if i < |es| - 1 {
          LastWithKeyInit(es, i);
          assert init[i] == es[i];
        }
      }
    }
  }

  /** Each stored field comes from a usable entry with its key. */
  lemma {:induction false} UserFieldsOfSound(es: seq<Field>)
    ensures forall k :: k in UserFieldsOf(es) ==>
      exists i :: 0 <= i < |es| && es[i].key == k && Usable(es[i]) && UserFieldsOf(es)[k] == FieldFor(es[i])
  {
    if es != [] {
      var init := es[..|es| - 1];
      var last := es[|es| - 1];
      UserFieldsOfSound(init);
      var before := UserFieldsOf(init);
      var fields := UserFieldsOf(es);
      forall k | k in fields
        ensures exists i :: 0 <= i < |es| && es[i].key == k && Usable(es[i]) && fields[k] == FieldFor(es[i])
      {
        if k == last.key && Usable(last) {
          assert es[|es| - 1] == last;
        } else {
          assert k in before && fields[k] == before[k];
          var i :| 0 <= i < |init| && init[i].key == k && Usable(init[i]) && before[k] == FieldFor(init[i]);
          assert es[i] == init[i];
        }
      }
    }
  }

  /** `str(model.get("id", "")).strip()` */
  function ModelIdOf(entries: seq<Field>): string
  {
    Strip(PyStr(GetOr(entries, "id", JStr(""))))
  }

  /** The model one dict entry of `models` describes; its label defaults to its id. */
  function ModelFor(providerId: string, entries: seq<Field>): (m: ProviderModel)
    ensures m.providerId == providerId && m.modelId == ModelIdOf(entries)
    ensures !HasKey(entries, "label") ==> m.display == m.modelId
    ensures Lookup(entries, "label").Some? && Lookup(entries, "label").value.JStr? ==>
      m.display == Lookup(entries, "label").value.s
  {
    var modelId := ModelIdOf(entries);
    ProviderModel(providerId, modelId, PyStr(GetOr(entries, "label", JStr(modelId))))
  }

  /** The effect of one entry of `models`; None when the entry is not a dict (`model.get` fails). */
  function AddModel(models: seq<ProviderModel>, providerId: string, item: Json): Option<seq<ProviderModel>>
  {
    if !item.JMap? then None
    else Some(models + KeptOne(providerId, item))
  }

  /** The `models` list after the loop has seen `items`, in order. */
  function ModelsOf(items: seq<Json>, providerId: string): (r: Option<seq<ProviderModel>>)
    ensures r.Some? ==> forall m :: m in r.value ==> m.providerId == providerId && m.modelId != ""
  {
    if items == [] then Some([])
    else
      match ModelsOf(items[..|items| - 1], providerId)
      case None => None
      case Some(ms) => AddModel(ms, providerId, items[|items| - 1])
  }

  /** Every item of the list is a dict. */
  predicate AllDicts(items: seq<Json>)
  {
    forall i :: 0 <= i < |items| ==> items[i].JMap?
  }

  /** The models one entry of `models` contributes: none for a non-dict (the loop crashes on
      it) or a blank id. */
  function KeptOne(providerId: string, item: Json): seq<ProviderModel>
  {
    if !item.JMap? || ModelIdOf(item.entries) == "" then [] else [ModelFor(providerId, item.entries)]
  }

  /** The models of a list of entries, front to back: each dict with a non-blank id gives one
      model, and any other entry gives none. */
  function KeptModels(items: seq<Json>, providerId: string): seq<ProviderModel>
  {
    if items == [] then []
    else KeptModels(items[..|items| - 1], providerId) + KeptOne(providerId, items[|items| - 1])
  }

  /** One more entry at the back adds its model, if any, at the back. */
  lemma KeptModelsSnoc(items: seq<Json>, item: Json, providerId: string)
    ensures KeptModels(items + [item], providerId) == KeptModels(items, providerId) + KeptOne(providerId, item)
  {
    assert (items + [item])[..|items|] == items;
  }

  /** The models loop over the first `n` entries crashes exactly on a non-dict among them. */
  lemma {:induction false} ModelsOfPrefixCrash(items: seq<Json>, n: nat, providerId: string)
    requires n <= |items|
    ensures ModelsOf(items[..n], providerId).Some? <==> AllDicts(items[..n])
  {
    if n > 0 {
      var pre := items[..n - 1];
      ModelsOfPrefixCrash(items, n - 1, providerId);
      ModelsOfStep(items, n - 1, providerId);
      AllDictsPrefix(items, n);
    }
  }

  /** The first `n` entries are all dicts exactly when the first `n - 1` are and entry `n - 1` is. */
  lemma AllDictsPrefix(items: seq<Json>, n: nat)
    requires 0 < n <= |items|
    ensures AllDicts(items[..n]) <==> AllDicts(items[..n - 1]) && items[n - 1].JMap?
  {
    var all := items[..n];
    var pre := items[..n - 1];
    if AllDicts(all) {
      assert all[n - 1] == items[n - 1];
      forall i | 0 <= i < |pre|
        ensures pre[i].JMap?
      {
        assert pre[i] == all[i];
      }
    }
    if AllDicts(pre) && items[n - 1].JMap? {
      forall i | 0 <= i < |all|
        ensures all[i].JMap?
      {
        if i < n - 1 {
          assert all[i] == pre[i];
        }
      }
    }
  }

  /** Over the first `n` entries, all dicts, the models loop keeps their models in order. */
  lemma {:induction false} ModelsOfPrefixKept(items: seq<Json>, n: nat, providerId: string)
    requires n <= |items| && AllDicts(items[..n])
    ensures ModelsOf(items[..n], providerId) == Some(KeptModels(items[..n], providerId))
  {
    if n == 0 {
      assert items[..0] == [];
    } else {
      var pre := items[..n - 1];
      var last := items[n - 1];
      AllDictsPrefix(items, n);
      ModelsOfPrefixKept(items, n - 1, providerId);
      ModelsOfStep(items, n - 1, providerId);
      assert items[..n][..n - 1] == pre;
      assert KeptModels(items[..n], providerId) == KeptModels(pre, providerId) + KeptOne(providerId, last);
    }
  }

  /** The models loop crashes exactly on a non-dict entry; on a list of dicts it keeps, in
      order, one model per entry with a non-blank id. */
  lemma ModelsOfKept(items: seq<Json>, providerId: string)
    ensures ModelsOf(items, providerId).Some? <==> AllDicts(items)
    ensures AllDicts(items) ==> ModelsOf(items, providerId) == Some(KeptModels(items, providerId))
  {
    assert items[..|items|] == items;
    ModelsOfPrefixCrash(items, |items|, providerId);
    if AllDicts(items) {
      ModelsOfPrefixKept(items, |items|, providerId);
    }
  }

  /** `raw.get("models", []) or []`, iterated: a truthy non-list cannot be iterated into dicts. */
  function ModelItems(doc: seq<Field>): (r: Option<seq<Json>>)
    ensures var v := GetOr(doc, "models", JList([]));
      (r.Some? <==> v.JList? || !Truthy(v)) && (r.Some? && v.JList? ==> r.value == v.items)
      && (r.Some? && !Truthy(v) ==> r.value == [])
  {
    var v := GetOr(doc, "models", JList([]));
    if v.JList? then Some(v.items) else if !Truthy(v) then Some([]) else None
  }

  /** `{str(k): bool(v) for k, v in capabilities.items()}` */
  function CapabilitiesOf(es: seq<Field>): (caps: map<string, bool>)
    ensures forall k :: k in caps <==> HasKey(es, k)
  {
    if es == [] then map[]
    else
      var before := CapabilitiesOf(es[..|es| - 1]);
      HasKeyLast(es);
      before[es[|es| - 1].key := Truthy(es[|es| - 1].val)]
  }

  /** Each key's value is `bool()` of the entry that has the last word on it. */
  lemma {:induction false} CapabilitiesOfValues(es: seq<Field>)
    ensures forall i :: 0 <= i < |es| && LastWithKey(es, i) ==>
      es[i].key in CapabilitiesOf(es) && CapabilitiesOf(es)[es[i].key] == Truthy(es[i].val)
  {
    if es != [] {
      var init := es[..|es| - 1];
      CapabilitiesOfValues(init);
      forall i | 0 <= i < |es| && LastWithKey(es, i)
        ensures es[i].key in CapabilitiesOf(es) && CapabilitiesOf(es)[es[i].key] == Truthy(es[i].val)
      {
        if i < |es| - 1 {
          LastWithKeyInit(es, i);
          assert init[i] == es[i];
        }
      }
    }
  }

  /** `max_messages` after the int() conversion: absent, None and a value `int()` rejects
      give None, and an integer is kept. */
  function HistoryLimitOf(history: seq<Field>): (r: Option<int>)
    ensures Lookup(history, "max_messages").None? ==> r.None?
    ensures r.Some? ==> Lookup(history, "max_messages").Some? && PyInt(Lookup(history, "max_messages").value) == r
    ensures Lookup(history, "max_messages").Some? && PyInt(Lookup(history, "max_messages").value).None? ==> r.None?
    ensures Lookup(history, "max_messages").Some? && Lookup(history, "max_messages").value.JInt? ==>
      r == Some(Lookup(history, "max_messages").value.i)
  {
    match Lookup(history, "max_messages")
    case None => None
    case Some(v) => if v.JNull? then None else PyInt(v)
  }

  /** The sub-objects the parser reads, after each `x or {}` / `x or []`. */
  datatype Sections = Sections(
    tls: seq<Field>, capabilities: seq<Field>, auth: seq<Field>,
    modelItems: seq<Json>, userFields: seq<Field>, history: seq<Field>)

  /** A section the parser reads without failing: a dict, or a falsy value read as empty. */
  predicate Readable(v: Json)
  {
    v.JMap? || !Truthy(v)
  }

  /** `entries` is what `v or {}` gives for a readable `v`. */
  predicate ReadAs(v: Json, entries: seq<Field>)
  {
    (v.JMap? ==> entries == v.entries) && (!Truthy(v) ==> entries == [])
  }

  /** `v or {}` is readable exactly when `v` is a dict or falsy, and then reads as `ReadAs` says. */
  lemma SectionRead(v: Json)
    ensures DictOrEmpty(v).Some? <==> Readable(v)
    ensures DictOrEmpty(v).Some? ==> ReadAs(v, DictOrEmpty(v).value)
  {
  }

  /** None when one of them is a truthy value of the wrong kind, on which the source crashes. */
  function SectionsOf(doc: seq<Field>): (r: Option<Sections>)
    ensures var models := GetOr(doc, "models", JList([]));
      r.Some? <==> Readable(GetOr(doc, "tls", JMap([]))) && Readable(GetOr(doc, "capabilities", JMap([])))
                   && Readable(GetOr(doc, "auth", JMap([]))) && Readable(GetOr(doc, "user_fields", JMap([])))
                   && Readable(GetOr(doc, "history", JMap([]))) && (models.JList? || !Truthy(models))
    ensures r.Some? ==>
      ReadAs(GetOr(doc, "tls", JMap([])), r.value.tls) && ReadAs(GetOr(doc, "capabilities", JMap([])), r.value.capabilities)
      && ReadAs(GetOr(doc, "auth", JMap([])), r.value.auth) && ReadAs(GetOr(doc, "user_fields", JMap([])), r.value.userFields)
      && ReadAs(GetOr(doc, "history", JMap([])), r.value.history)
    ensures var models := GetOr(doc, "models", JList([]));
      r.Some? ==> (models.JList? ==> r.value.modelItems == models.items) && (!Truthy(models) ==> r.value.modelItems == [])
  {
    SectionRead(GetOr(doc, "tls", JMap([])));
    SectionRead(GetOr(doc, "capabilities", JMap([])));
    SectionRead(GetOr(doc, "auth", JMap([])));
    SectionRead(GetOr(doc, "user_fields", JMap([])));
    SectionRead(GetOr(doc, "history", JMap([])));
    var tls := DictOrEmpty(GetOr(doc, "tls", JMap([])));
    var caps := DictOrEmpty(GetOr(doc, "capabilities", JMap([])));
    var auth := DictOrEmpty(GetOr(doc, "auth", JMap([])));
    var items := ModelItems(doc);
    var fieldsRaw := DictOrEmpty(GetOr(doc, "user_fields", JMap([])));
    var history := DictOrEmpty(GetOr(doc, "history", JMap([])));
    if tls.None? || caps.None? || auth.None? || items.None? || fieldsRaw.None? || history.None? then None
    else Some(Sections(tls.value, caps.value, auth.value, items.value, fieldsRaw.value, history.value))
  }

  /** The `ProviderConfig(...)` call at the end of the parser. */
  function Assemble(doc: seq<Field>, providerId: string, baseUrl: string, sec: Sections,
                    models: seq<ProviderModel>, fields: map<string, UserField>): (c: ProviderConfig)
    ensures c.providerId == providerId && c.baseUrl == baseUrl && c.models == models && c.userFields == fields
  {
    var endpointsRaw := GetOr(doc, "endpoints", JMap([]));
    ProviderConfig(
      providerId := providerId,
      display := PyStr(GetOr(doc, "label", JStr(providerId))),
      baseUrl := baseUrl,
      tlsCaCertPath := Get(sec.tls, "ca_cert_path"),
      adapter := PyStr(GetOr(doc, "adapter", JStr("generic"))),
      capabilities := CapabilitiesOf(sec.capabilities),
      authMode := PyStr(GetOr(sec.auth, "mode", JStr("none"))),
      endpoints := if Truthy(endpointsRaw) then endpointsRaw else JMap([]),
      models := models,
      historyEnabled := Truthy(GetOr(sec.history, "enabled", JBool(false))),
      historyLimit := HistoryLimitOf(sec.history),
      userFields := fields)
  }

  /** A document whose stripped `id` or stripped `base_url` is empty, which the parser skips. */
  predicate BlankIdOrUrl(doc: seq<Field>)
  {
    Strip(PyStr(GetOr(doc, "id", JStr("")))) == "" || Strip(PyStr(GetOr(doc, "base_url", JStr("")))) == ""
  }

  /** The whole of `_parse_provider_file` for a file whose text decoded to `raw`
      (None when reading or decoding failed). */
  function ProviderOf(raw: Option<Json>): (r: ParseOutcome)
    ensures raw.None? ==> r == Skipped
    ensures raw.Some? && raw.value.JMap? && BlankIdOrUrl(raw.value.entries) ==> r == Skipped
    ensures r.Skipped? ==> raw.None? || (raw.value.JMap? && BlankIdOrUrl(raw.value.entries))
  {
    if raw.None? then Skipped
    else if !raw.value.JMap? then Crashed
    else
      var doc := raw.value.entries;
      var providerId := Strip(PyStr(GetOr(doc, "id", JStr(""))));
      var baseUrl := Strip(PyStr(GetOr(doc, "base_url", JStr(""))));
      if providerId == "" || baseUrl == "" then Skipped
      else
        match SectionsOf(doc)
        case None => Crashed
        case Some(sec) =>
          match ModelsOf(sec.modelItems, providerId)
          case None => Crashed
          case Some(models) =>
            Parsed(Assemble(doc, providerId, baseUrl, sec, models, UserFieldsOf(sec.userFields)))
  }

  /** What every configuration the parser produces satisfies. */
  predicate WellFormed(outcome: ParseOutcome)
  {
    outcome.Parsed? ==>
      var c := outcome.config;
      c.providerId != "" && NoSpaceEnds(c.providerId) && c.baseUrl != "" && NoSpaceEnds(c.baseUrl)
      && (forall m :: m in c.models ==> m.providerId == c.providerId && m.modelId != "")
      && (forall k :: k in c.userFields ==> c.userFields[k].key == k && c.userFields[k].prompt != "")
  }

  /** A parsed configuration has a stripped non-empty id and base URL, only models of its own
      provider with non-empty ids, and only user fields with a prompt, keyed by their own key. */
  lemma ParsedWellFormed(raw: Option<Json>)
    ensures WellFormed(ProviderOf(raw))
  {
    if ProviderOf(raw).Parsed? {
      var doc := raw.value.entries;
      var providerId := Strip(PyStr(GetOr(doc, "id", JStr(""))));
      var baseUrl := Strip(PyStr(GetOr(doc, "base_url", JStr(""))));
      var sec := SectionsOf(doc).value;
      var models := ModelsOf(sec.modelItems, providerId).value;
      assert ProviderOf(raw).config == Assemble(doc, providerId, baseUrl, sec, models, UserFieldsOf(sec.userFields));
    }
  }

  /** `_parse_provider_file`: the two loops fill `user_fields` and `models` entry by entry. */
  method ParseProviderFile(raw: Option<Json>) returns (r: ParseOutcome)
    ensures r == ProviderOf(raw)
  {
    if raw.None? || !raw.value.JMap? {
      return ProviderOf(raw);
    }
    var doc := raw.value.entries;
    var providerId := Strip(PyStr(GetOr(doc, "id", JStr(""))));
    var baseUrl := Strip(PyStr(GetOr(doc, "base_url", JStr(""))));
    if providerId == "" || baseUrl == "" {
      return Skipped;
    }
    var sections := SectionsOf(doc);
    if sections.None? {
      return Crashed;
    }
    var sec := sections.value;
    var fields := CollectUserFields(sec.userFields);
    var models := CollectModels(sec.modelItems, providerId);
    if models.None? {
      return Crashed;
    }
    r := Parsed(Assemble(doc, providerId, baseUrl, sec, models.value, fields));
  }

  /** The `user_fields` loop of the parser. */
  method CollectUserFields(es: seq<Field>) returns (fields: map<string, UserField>)
    ensures fields == UserFieldsOf(es)
  {
    fields := map[];
    var i := 0;
    while i < |es|
      invariant 0 <= i <= |es|
      invariant fields == UserFieldsOf(es[..i])
    {
      assert es[..i + 1][..i] == es[..i];
      fields := AddUserField(fields, es[i]);
      i := i + 1;
    }
    assert es[..i] == es;
  }

  /** The `models` loop of the parser; None when an entry is not a dict. */
  method CollectModels(items: seq<Json>, providerId: string) returns (r: Option<seq<ProviderModel>>)
    ensures r == ModelsOf(items, providerId)
  {
    var models: seq<ProviderModel> := [];
    var j := 0;
    while j < |items|
      invariant 0 <= j <= |items|
      invariant ModelsOf(items[..j], providerId) == Some(models)
    {
      ModelsOfStep(items, j, providerId);
      var next := AddModel(models, providerId, items[j]);
      if next.None? {
        ModelsOfCrashSticks(items, j + 1, providerId);
        return None;
      }
      models := next.value;
      j := j + 1;
    }
    assert items[..j] == items;
    return Some(models);
  }

  /** One more entry extends the models of the prefix before it. */
  lemma ModelsOfStep(items: seq<Json>, j: nat, providerId: string)
    requires j < |items|
    ensures ModelsOf(items[..j + 1], providerId) ==
      match ModelsOf(items[..j], providerId)
      case None => None
      case Some(ms) => AddModel(ms, providerId, items[j])
  {
    assert items[..j + 1][..j] == items[..j];
  }

  /** Once a model entry crashes, every longer prefix crashes too. */
  lemma {:induction false} ModelsOfCrashSticks(items: seq<Json>, n: nat, providerId: string)
    requires n <= |items|
    requires ModelsOf(items[..n], providerId).None?
    ensures ModelsOf(items, providerId).None?
    decreases |items| - n
  {
    if n < |items| {
      assert items[..n + 1][..n] == items[..n];
      ModelsOfCrashSticks(items, n + 1, providerId);
    } else {
      assert items[..n] == items;
    }
  }

  /** Registering one parse outcome: a skip or a duplicate id leaves the registry as it was. */
  function AddProvider(reg: Registry, outcome: ParseOutcome): Registry
    requires !outcome.Crashed?
  {
    if outcome.Skipped? || outcome.config.providerId in reg.providers then reg
    else Registry(reg.providers[outcome.config.providerId := outcome.config], reg.models + outcome.config.models)
  }

  /** The outcome of parsing each file, in the order the loader visits them. */
  function ParseAll(files: seq<Option<Json>>): (outs: seq<ParseOutcome>)
    ensures |outs| == |files|
    ensures forall i :: 0 <= i < |files| ==> outs[i] == ProviderOf(files[i])
  {
    seq(|files|, i requires 0 <= i < |files| => ProviderOf(files[i]))
  }

  /** Every outcome of a directory's files is well formed. */
  lemma ParseAllWellFormed(files: seq<Option<Json>>)
    ensures forall j :: 0 <= j < |files| ==> WellFormed(ParseAll(files)[j])
  {
    forall j | 0 <= j < |files|
      ensures WellFormed(ParseAll(files)[j])
    {
      ParsedWellFormed(files[j]);
    }
  }

  /** The registry after the loop of `load_provider_registry` has seen the outcomes `outs`. */
  function RegistryOf(outs: seq<ParseOutcome>): (r: Result<Registry, LoadFailure>)
    ensures r.Ok? <==> forall i :: 0 <= i < |outs| ==> !outs[i].Crashed?
  {
    if outs == [] then Ok(Registry(map[], []))
    else
      match RegistryOf(outs[..|outs| - 1])
      case Err(_) => Err(MalformedDocument)
      case Ok(reg) =>
        if outs[|outs| - 1].Crashed? then Err(MalformedDocument) else Ok(AddProvider(reg, outs[|outs| - 1]))
  }

  /** `load_provider_registry`: None stands for a missing providers directory; otherwise the
      decoded documents of its `*.json` files in sorted path order. */
  method LoadProviderRegistry(dir: Option<seq<Option<Json>>>) returns (r: Result<Registry, LoadFailure>)
    ensures dir.None? ==> r == Ok(Registry(map[], []))
    ensures dir.Some? ==> r == RegistryOf(ParseAll(dir.value))
  {
    if dir.None? {
      return Ok(Registry(map[], []));
    }
    var files := dir.value;
    ghost var outs := ParseAll(files);
    var providers: map<string, ProviderConfig> := map[];
    var models: seq<ProviderModel> := [];
    var i := 0;
    while i < |files|
      invariant 0 <= i <= |files|
      invariant RegistryOf(outs[..i]) == Ok(Registry(providers, models))
    {
      var config := ParseProviderFile(files[i]);
      RegistryExtend(outs, i);
      if config.Crashed? {
        RegistryCrashSticks(outs, i + 1);
        return Err(MalformedDocument);
      }
      if config.Parsed? && config.config.providerId !in providers {
        providers := providers[config.config.providerId := config.config];
        models := models + config.config.models;
      }
      i := i + 1;
    }
    assert outs[..i] == outs;
    r := Ok(Registry(providers, models));
  }

  /** One more outcome seen by the loop. */
  lemma RegistryExtend(outs: seq<ParseOutcome>, i: nat)
    requires i < |outs| && RegistryOf(outs[..i]).Ok?
    ensures outs[i].Crashed? ==> RegistryOf(outs[..i + 1]) == Err(MalformedDocument)
    ensures !outs[i].Crashed? ==> RegistryOf(outs[..i + 1]) == Ok(AddProvider(RegistryOf(outs[..i]).value, outs[i]))
  {
    assert outs[..i + 1][..i] == outs[..i];
  }

  lemma {:induction false} RegistryCrashSticks(outs: seq<ParseOutcome>, n: nat)
    requires n <= |outs|
    requires RegistryOf(outs[..n]) == Err(MalformedDocument)
    ensures RegistryOf(outs) == Err(MalformedDocument)
    decreases |outs| - n
  {
    if n < |outs| {
      assert outs[..n + 1][..n] == outs[..n];
      RegistryCrashSticks(outs, n + 1);
    } else {
      assert outs[..n] == outs;
    }
  }

  /** Any file that crashes the parser makes the whole load fail. */
  lemma RegistryCrash(outs: seq<ParseOutcome>, i: nat)
    requires i < |outs| && outs[i].Crashed?
    ensures RegistryOf(outs) == Err(MalformedDocument)
  {
    var prefix := outs[..i + 1];
    assert prefix[..i] == outs[..i];
    assert RegistryOf(prefix).Err?;
    RegistryCrashSticks(outs, i + 1);
  }

  /** A skipped file leaves the load as it was. */
  lemma RegistrySkipped(outs: seq<ParseOutcome>)
    ensures RegistryOf(outs + [Skipped]) == RegistryOf(outs)
  {
    assert (outs + [Skipped])[..|outs|] == outs;
  }

  /** Every registered provider is registered under its own id, and every collected model
      belongs to a registered provider's own model list. */
  lemma {:induction false} RegistryConsistent(outs: seq<ParseOutcome>)
    requires forall j :: 0 <= j < |outs| ==> WellFormed(outs[j])
    requires RegistryOf(outs).Ok?
    ensures forall id :: id in RegistryOf(outs).value.providers ==> RegistryOf(outs).value.providers[id].providerId == id
    ensures forall m :: m in RegistryOf(outs).value.models ==>
      m.providerId in RegistryOf(outs).value.providers && m in RegistryOf(outs).value.providers[m.providerId].models
  {
    if outs != [] {
      var init := outs[..|outs| - 1];
      assert forall j :: 0 <= j < |init| ==> init[j] == outs[j];
      RegistryConsistent(init);
      var before := RegistryOf(init).value;
      var last := outs[|outs| - 1];
      if last.Parsed? && last.config.providerId !in before.providers {
        var after := RegistryOf(outs).value;
        assert after.models == before.models + last.config.models;
        assert after.providers == before.providers[last.config.providerId := last.config];
        forall m | m in after.models
          ensures m.providerId in after.providers && m in after.providers[m.providerId].models
        {
          if m in before.models {
            assert m.providerId in before.providers && m.providerId != last.config.providerId;
            assert after.providers[m.providerId] == before.providers[m.providerId];
          } else {
            assert m in last.config.models;
          }
        }
      }
    }
  }

  /** The outcome is a configuration with this provider id. */
  predicate ParsesTo(outcome: ParseOutcome, id: string)
  {
    outcome.Parsed? && outcome.config.providerId == id
  }

  /** The first file in sorted order wins: a provider id that an earlier file already
      registered keeps that earlier configuration. */
  lemma {:induction false} RegistryFirstWins(outs: seq<ParseOutcome>, i: nat)
    requires i < |outs| && outs[i].Parsed?
    requires forall j :: 0 <= j < i ==> !ParsesTo(outs[j], outs[i].config.providerId)
    requires RegistryOf(outs).Ok?
    ensures outs[i].config.providerId in RegistryOf(outs).value.providers
    ensures RegistryOf(outs).value.providers[outs[i].config.providerId] == outs[i].config
  {
    var init := outs[..|outs| - 1];
    if i == |outs| - 1 {
      RegistryAbsent(init, outs[i].config.providerId);
    } else {
      assert init[i] == outs[i];
      RegistryFirstWins(init, i);
    }
  }

  /** An id that no outcome carries is not registered. */
  lemma {:induction false} RegistryAbsent(outs: seq<ParseOutcome>, id: string)
    requires RegistryOf(outs).Ok?
    requires forall j :: 0 <= j < |outs| ==> !ParsesTo(outs[j], id)
    ensures id !in RegistryOf(outs).value.providers
  {
    if outs != [] {
      var init := outs[..|outs| - 1];
      assert forall j :: 0 <= j < |init| ==> init[j] == outs[j];
      RegistryAbsent(init, id);
    }
  }

  /** The keys a document may hold to be parsed with every default. */
  predicate OnlyIdAndUrl(doc: seq<Field>)
  {
    forall i :: 0 <= i < |doc| ==> doc[i].key == "id" || doc[i].key == "base_url"
  }

  /** Such a document has no section, so each one reads as empty. */
  lemma DefaultSections(doc: seq<Field>)
    requires OnlyIdAndUrl(doc)
    ensures SectionsOf(doc) == Some(Sections([], [], [], [], [], []))
  {
    assert !HasKey(doc, "tls") && !HasKey(doc, "capabilities") && !HasKey(doc, "auth");
    assert !HasKey(doc, "models") && !HasKey(doc, "user_fields") && !HasKey(doc, "history");
  }

  /** A document that names only id and base_url gets the documented defaults. */
  lemma ParseDefaults(doc: seq<Field>, id: string, url: string)
    requires OnlyIdAndUrl(doc) && Lookup(doc, "id") == Some(JStr(id)) && Lookup(doc, "base_url") == Some(JStr(url))
    requires id != [] && NoSpaceEnds(id) && url != [] && NoSpaceEnds(url)
    ensures var r := ProviderOf(Some(JMap(doc)));
      r.Parsed? && r.config.providerId == id && r.config.display == id && r.config.authMode == "none"
      && r.config.adapter == "generic" && r.config.capabilities == map[] && r.config.models == []
      && r.config.userFields == map[] && !r.config.historyEnabled && r.config.historyLimit.None?
  {
    StripKeeps(id);
    StripKeeps(url);
    assert id == Strip(PyStr(GetOr(doc, "id", JStr(""))));
    assert url == Strip(PyStr(GetOr(doc, "base_url", JStr(""))));
    var sec := Sections([], [], [], [], [], []);
    DefaultSections(doc);
    assert ModelsOf([], id) == Some([]);
    ProviderOfParsed(doc, id, url, sec, []);
    AssembleDefaults(doc, id, url);
  }

  /** The path through the parser that ends in a configuration. */
  lemma ProviderOfParsed(doc: seq<Field>, providerId: string, baseUrl: string, sec: Sections,
                         models: seq<ProviderModel>)
    requires providerId == Strip(PyStr(GetOr(doc, "id", JStr("")))) && providerId != ""
    requires baseUrl == Strip(PyStr(GetOr(doc, "base_url", JStr("")))) && baseUrl != ""
    requires SectionsOf(doc) == Some(sec) && ModelsOf(sec.modelItems, providerId) == Some(models)
    ensures ProviderOf(Some(JMap(doc))) == Parsed(Assemble(doc, providerId, baseUrl, sec, models, UserFieldsOf(sec.userFields)))
  {
  }

  /** The configuration assembled from empty sections holds the defaults. */
  lemma AssembleDefaults(doc: seq<Field>, id: string, url: string)
    requires OnlyIdAndUrl(doc)
    ensures var c := Assemble(doc, id, url, Sections([], [], [], [], [], []), [], UserFieldsOf([]));
      c.display == id && c.authMode == "none" && c.adapter == "generic" && c.capabilities == map[]
      && c.userFields == map[] && !c.historyEnabled && c.historyLimit.None?
  {
    assert !HasKey(doc, "label") && !HasKey(doc, "adapter");
    assert CapabilitiesOf([]) == map[];
    assert UserFieldsOf([]) == map[];
  }

  /** `model_label`: the provider's label when it has a non-empty one, else `label_full`. */
  function ModelLabel(model: ProviderModel, provider: Option<ProviderConfig>): (r: string)
    ensures provider.Some? && provider.value.display != "" ==> r == provider.value.display + " / " + model.display
    ensures !(provider.Some? && provider.value.display != "") ==> r == model.LabelFull()
    ensures EndsWith(r, " / " + model.display)
  {
    var prefix := if provider.Some? && provider.value.display != "" then provider.value.display else model.providerId;
    assert (prefix + " / " + model.display)[|prefix|..] == " / " + model.display;
    prefix + " / " + model.display
  }
}
