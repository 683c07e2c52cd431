/**
 * The `markdown_answers` post-processing plugin: a long answer is cut to its first part,
 * without splitting a fenced code block, the full text is stored, and a button opening the
 * stored text in a web app is attached. Storing the text and building the query string of
 * the web-app URL are given as functions.
 */
module MarkdownAnswers {
  import opened Base
  import opened Text
  import opened Json

  const Fence: string := "```"

  /** The code blocks from index `i` on: each runs from a fence to the end of the next fence. */
  function CodeBlocksFrom(text: string, i: nat): seq<(int, int)>
    requires i <= |text|
  {
    BlocksFrom(text, Fence, i)
  }

  /** The next block from index `i`: the first fence there, and the end of the fence after it. */
  function NextBlock(text: string, fence: string, i: nat): (r: Option<(int, int)>)
    requires fence != []
    ensures r.Some? ==> i <= r.value.0 && r.value.0 + 2 * |fence| <= r.value.1 <= |text|
  {
    var start := Find(text, fence, i);
    if start == -1 then None
    else
      var end := Find(text, fence, start + |fence|);
      if end == -1 then None else Some((start, end + |fence|))
  }

  /** A block found from `i` opens at the first fence from `i` and is a fenced block. */
  lemma NextBlockSpec(text: string, fence: string, i: nat)
    requires fence != []
    ensures var r := NextBlock(text, fence, i);
      r.Some? ==> r.value.0 == Find(text, fence, i) && IsBlock(text, fence, r.value)
  {
  }

  function BlocksFrom(text: string, fence: string, i: nat): seq<(int, int)>
    requires i <= |text| && fence != []
    decreases |text| - i
  {
    match NextBlock(text, fence, i)
    case None => []
    case Some(b) => [b] + BlocksFrom(text, fence, b.1)
  }

  /** Where a block is found from `i`, the blocks from `i` are it and those after its end. */
  lemma BlocksFromStep(text: string, fence: string, i: nat, b: (int, int))
    requires i <= |text| && fence != []
    requires b.0 == Find(text, fence, i) && b.0 != -1
    requires b.1 - |fence| == Find(text, fence, b.0 + |fence|) && b.1 - |fence| != -1
    ensures NextBlock(text, fence, i) == Some(b)
    ensures 0 <= b.1 <= |text| && BlocksFrom(text, fence, i) == [b] + BlocksFrom(text, fence, b.1)
  {
  }

  /** `_find_code_blocks` */
  method FindCodeBlocks(text: string) returns (blocks: seq<(int, int)>)
    ensures blocks == CodeBlocksFrom(text, 0)
  {
    var fence := Fence;
    blocks := [];
    var i := 0;
    while true
      invariant 0 <= i <= |text|
      invariant blocks + BlocksFrom(text, fence, i) == BlocksFrom(text, fence, 0)
      decreases |text| - i
    {
      var start := Find(text, fence, i);
      if start == -1 {
        assert NextBlock(text, fence, i).None?;
        break;
      }
      var end := Find(text, fence, start + |fence|);
      if end == -1 {
        assert NextBlock(text, fence, i).None?;
        break;
      }
      end := end + |fence|;
      BlocksFromStep(text, fence, i, (start, end));
      assert (blocks + [(start, end)]) + BlocksFrom(text, fence, end) == blocks + BlocksFrom(text, fence, i);
      blocks := blocks + [(start, end)];
      i := end;
    }
  }

  /** A block opens with a fence and closes with the next fence after it. */
  predicate IsBlock(text: string, fence: string, b: (int, int))
  {
    var (s, e) := b;
    0 <= s && s + 2 * |fence| <= e <= |text|
    && OccursAt(text, fence, s) && OccursAt(text, fence, e - |fence|)
    && Find(text, fence, s + |fence|) == e - |fence|
  }

  /** The blocks are in increasing order and do not overlap. */
  predicate Ordered(blocks: seq<(int, int)>)
  {
    forall j, k :: 0 <= j < k < |blocks| ==> blocks[j].1 <= blocks[k].0
  }

  /** Every block starts at or after `i` and ends after it starts. */
  predicate StartFrom(blocks: seq<(int, int)>, i: int)
  {
    forall k :: 0 <= k < |blocks| ==> i <= blocks[k].0 < blocks[k].1
  }

  /** The blocks from `i` on start at or after `i`. */
  lemma {:induction false} BlocksAfter(text: string, fence: string, i: nat)
    requires i <= |text| && fence != []
    ensures StartFrom(BlocksFrom(text, fence, i), i)
    decreases |text| - i
  {
    match NextBlock(text, fence, i)
    case None =>
    case Some(b) =>
      var rest := BlocksFrom(text, fence, b.1);
      BlocksAfter(text, fence, b.1);
      assert i <= b.0 < b.1;
      var blocks := [b] + rest;
      assert BlocksFrom(text, fence, i) == blocks;
      forall k | 0 < k < |blocks|
        ensures i <= blocks[k].0 < blocks[k].1
      {
        assert blocks[k] == rest[k - 1];
      }
  }

  /** The blocks follow each other without overlap. */
  lemma {:induction false} BlocksOrdered(text: string, fence: string, i: nat)
    requires i <= |text| && fence != []
    ensures Ordered(BlocksFrom(text, fence, i))
    decreases |text| - i
  {
    match NextBlock(text, fence, i)
    case None =>
    case Some(b) =>
      var rest := BlocksFrom(text, fence, b.1);
      BlocksAfter(text, fence, b.1);
      BlocksOrdered(text, fence, b.1);
      var blocks := [b] + rest;
      assert BlocksFrom(text, fence, i) == blocks;
      forall j, k | 0 <= j < k < |blocks|
        ensures blocks[j].1 <= blocks[k].0
      {
        assert blocks[k] == rest[k - 1];
        if j > 0 {
          assert blocks[j] == rest[j - 1];
        }
      }
  }

  /** Each of the blocks is a fenced block. */
  predicate AllBlocks(text: string, fence: string, blocks: seq<(int, int)>)
  {
    forall k :: 0 <= k < |blocks| ==> IsBlock(text, fence, blocks[k])
  }

  /** The first block opens at the first fence from `i`, each later one at the first fence
      after the end of the one before. */
  predicate Chained(text: string, fence: string, blocks: seq<(int, int)>, i: nat)
  {
    (blocks != [] ==> blocks[0].0 == Find(text, fence, i))
    && forall k :: 0 <= k < |blocks| - 1 ==> blocks[k].1 >= 0 && blocks[k + 1].0 == Find(text, fence, blocks[k].1)
  }

  /** Every block found from `i` is a fenced block. */
  lemma {:induction false} BlocksFenced(text: string, fence: string, i: nat)
    requires i <= |text| && fence != []
    ensures AllBlocks(text, fence, BlocksFrom(text, fence, i))
    decreases |text| - i
  {
    match NextBlock(text, fence, i)
    case None =>
    case Some(b) =>
      var rest := BlocksFrom(text, fence, b.1);
      NextBlockSpec(text, fence, i);
      BlocksFenced(text, fence, b.1);
      var blocks := [b] + rest;
      assert BlocksFrom(text, fence, i) == blocks;
      forall k | 0 < k < |blocks|
        ensures IsBlock(text, fence, blocks[k])
      {
        assert blocks[k] == rest[k - 1];
      }
  }

  /** The blocks from `i` are found one after the other, so a fence left without a closing one
      is not a block. */
  lemma {:induction false} BlocksChained(text: string, fence: string, i: nat)
    requires i <= |text| && fence != []
    ensures Chained(text, fence, BlocksFrom(text, fence, i), i)
    decreases |text| - i
  {
    match NextBlock(text, fence, i)
    case None =>
    case Some(b) =>
      var rest := BlocksFrom(text, fence, b.1);
      NextBlockSpec(text, fence, i);
      BlocksChained(text, fence, b.1);
      var blocks := [b] + rest;
      assert BlocksFrom(text, fence, i) == blocks;
      forall k | 1 <= k < |blocks| - 1
        ensures blocks[k].1 >= 0 && blocks[k + 1].0 == Find(text, fence, blocks[k].1)
      {
        assert blocks[k] == rest[k - 1] && blocks[k + 1] == rest[k];
      }
  }

  /** No fenced pair is left after the blocks: from `i` when there are none, otherwise from the
      end of the last one, no further block is found. */
  predicate Complete(text: string, fence: string, blocks: seq<(int, int)>, i: nat)
    requires fence != []
  {
    if blocks == [] then NextBlock(text, fence, i).None?
    else 0 <= blocks[|blocks| - 1].1 && NextBlock(text, fence, blocks[|blocks| - 1].1).None?
  }

  /** The scan from `i` misses no block: it stops only where no fence pair remains. */
  lemma {:induction false} BlocksComplete(text: string, fence: string, i: nat)
    requires i <= |text| && fence != []
    ensures Complete(text, fence, BlocksFrom(text, fence, i), i)
    decreases |text| - i
  {
    match NextBlock(text, fence, i)
    case None =>
    case Some(b) =>
      var rest := BlocksFrom(text, fence, b.1);
      BlocksComplete(text, fence, b.1);
      var blocks := [b] + rest;
      assert BlocksFrom(text, fence, i) == blocks;
      if rest != [] {
        assert blocks[|blocks| - 1] == rest[|rest| - 1];
      }
  }

  /** The code blocks of a text, each opening and closing with three backticks, found one after
      the other and in order, with no fenced pair left after the last one. */
  lemma CodeBlocksSpec(text: string)
    ensures var blocks := CodeBlocksFrom(text, 0);
      Ordered(blocks) && AllBlocks(text, Fence, blocks) && Chained(text, Fence, blocks, 0)
      && Complete(text, Fence, blocks, 0)
  {
    BlocksOrdered(text, Fence, 0);
    BlocksFenced(text, Fence, 0);
    BlocksChained(text, Fence, 0);
    BlocksComplete(text, Fence, 0);
  }

  /** The first block that `cut` lies strictly inside, if any. */
  function Straddled(blocks: seq<(int, int)>, cut: int): (r: Option<int>)
    ensures r.Some? <==> exists k :: 0 <= k < |blocks| && blocks[k].0 < cut < blocks[k].1
    ensures r.Some? ==> exists k :: 0 <= k < |blocks| && blocks[k].0 < cut < blocks[k].1 && r.value == blocks[k].0
  {
    if blocks == [] then None
    else if blocks[0].0 < cut < blocks[0].1 then Some(blocks[0].0)
    else
      var r := Straddled(blocks[1..], cut);
      assert r.Some? ==> exists k :: 0 <= k < |blocks[1..]| && blocks[1..][k].0 < cut < blocks[1..][k].1 && r.value == blocks[1..][k].0;
      r
  }

  /** `_safe_cut_index` as a function of the text and the limit. */
  function SafeCut(text: string, limit: int): (r: int)
    ensures |text| <= limit ==> r == |text|
    ensures var blocks := CodeBlocksFrom(text, 0);
      |text| > limit && r != limit ==> exists k :: 0 <= k < |blocks| && blocks[k].0 < limit < blocks[k].1
  {
    if |text| <= limit then |text| else CutAmong(CodeBlocksFrom(text, 0), limit)
  }

  /** The cut for a text longer than the limit: the start of a block the limit falls inside,
      or the limit. */
  function CutAmong(blocks: seq<(int, int)>, limit: int): int
  {
    match Straddled(blocks, limit)
    case Some(start) => if start > 0 then start else 0
    case None => limit
  }

  /** `_safe_cut_index` */
  method SafeCutIndex(text: string, limit: int) returns (r: int)
    ensures r == SafeCut(text, limit)
  {
    if |text| <= limit {
      return |text|;
    }
    var blocks := FindCodeBlocks(text);
    r := CutIndexAmong(blocks, limit);
  }

  /** The loop of `_safe_cut_index` over the blocks. */
  method CutIndexAmong(blocks: seq<(int, int)>, cut: int) returns (r: int)
    ensures r == CutAmong(blocks, cut)
  {
    var k := 0;
    while k < |blocks|
      invariant 0 <= k <= |blocks|
      invariant CutAmong(blocks, cut) == CutAmong(blocks[k..], cut)
    {
      var (start, end) := blocks[k];
      StraddledStep(blocks, k, cut);
      if start < cut < end {
        return if start > 0 then start else 0;
      }
      k := k + 1;
    }
    return cut;
  }

  /** One block of the search: the block at `k` is the one straddled, or the search goes on
      after it. */
  lemma StraddledStep(blocks: seq<(int, int)>, k: int, cut: int)
    requires 0 <= k < |blocks|
    ensures blocks[k].0 < cut < blocks[k].1 ==> CutAmong(blocks[k..], cut) == (if blocks[k].0 > 0 then blocks[k].0 else 0)
    ensures !(blocks[k].0 < cut < blocks[k].1) ==> CutAmong(blocks[k..], cut) == CutAmong(blocks[k + 1..], cut)
  {
    assert blocks[k..][0] == blocks[k] && blocks[k..][1..] == blocks[k + 1..];
  }

  /** A text that fits is kept whole; otherwise the cut is never past the limit, and it is the
      limit itself exactly when the limit falls inside no code block. */
  lemma SafeCutBound(text: string, limit: int)
    ensures |text| <= limit ==> SafeCut(text, limit) == |text|
    ensures |text| > limit ==> SafeCut(text, limit) <= limit
    ensures var blocks := CodeBlocksFrom(text, 0);
      |text| > limit ==> (SafeCut(text, limit) == limit <==> forall k :: 0 <= k < |blocks| ==> !(blocks[k].0 < limit < blocks[k].1))
  {
    var blocks := CodeBlocksFrom(text, 0);
    if |text| > limit {
      match Straddled(blocks, limit)
      case Some(start) =>
        var j :| 0 <= j < |blocks| && blocks[j].0 < limit < blocks[j].1 && start == blocks[j].0;
        BlocksAfter(text, Fence, 0);
        assert 0 <= start < limit;
      case None =>
    }
  }

  /** The cut of a text longer than the limit never falls strictly inside a code block. */
  lemma SafeCutSafe(text: string, limit: int)
    requires |text| > limit
    ensures var blocks := CodeBlocksFrom(text, 0);
      forall k :: 0 <= k < |blocks| ==> !(blocks[k].0 < SafeCut(text, limit) < blocks[k].1)
  {
    BlocksOrdered(text, Fence, 0);
    BlocksAfter(text, Fence, 0);
    CutAmongOutside(CodeBlocksFrom(text, 0), limit);
  }

  /** Among ordered blocks, the cut is inside none of them. */
  lemma CutAmongOutside(blocks: seq<(int, int)>, limit: int)
    requires Ordered(blocks) && StartFrom(blocks, 0)
    ensures forall k :: 0 <= k < |blocks| ==> !(blocks[k].0 < CutAmong(blocks, limit) < blocks[k].1)
  {
    var cut := CutAmong(blocks, limit);
    match Straddled(blocks, limit)
    case Some(start) =>
      var j :| 0 <= j < |blocks| && blocks[j].0 < limit < blocks[j].1 && start == blocks[j].0;
      assert start >= 0 && cut == start;
      forall k | 0 <= k < |blocks|
        ensures !(blocks[k].0 < cut < blocks[k].1)
      {
        if k < j {
          assert blocks[k].1 <= blocks[j].0;
        } else if k > j {
          assert blocks[j].1 <= blocks[k].0;
        }
      }
    case None =>
  }

  // on_llm_response

  /** `store_text(plugin_id, text)`: the stored text's id, or None where it raised. */
  type Store = (string, string) -> Option<Json>

  /** `urlparse`, `parse_qsl`, `urlencode` and `urlunparse` of `generate_mini_app_url`: the
      URL with its query updated by the id parameter and the optional extra entry. */
  type QueryEncoder = (string, string, string, Option<(string, string)>) -> string

  /** `generate_mini_app_url`: its two checks; the error is the ValueError it raises. */
  function MiniAppUrl(textId: string, webAppUrl: string, idParam: string, extra: Option<(string, string)>,
                      encode: QueryEncoder): (r: Result<string, string>)
    ensures r.Ok? <==> textId != "" && (StartsWith(webAppUrl, "http://") || StartsWith(webAppUrl, "https://"))
  {
    var isLocal := StartsWith(webAppUrl, "http://localhost") || StartsWith(webAppUrl, "http://127.0.0.1");
    var isHttp := StartsWith(webAppUrl, "http://");
    var isHttps := StartsWith(webAppUrl, "https://");
    if textId == "" then Err("text_id не может быть пустым.")
    else if !(isLocal || isHttp || isHttps) then
      Err("URL веб-приложения должен начинаться с 'https://' (или 'http://localhost' для тестов).")
    else Ok(encode(webAppUrl, idParam, textId, extra))
  }

  const DefaultButtonText: string := "Открыть полностью"

  /** The limits read from the configuration, with the minimum for a button clamped to the
      inline maximum; None where `int()` raises. */
  function Limits(config: seq<Field>): (r: Option<(int, int)>)
    ensures r.Some? ==> r.value.1 <= r.value.0
    ensures var mx := PyInt(GetOr(config, "max_inline_chars", JInt(3500)));
      var mn := PyInt(GetOr(config, "min_chars_for_button", JInt(1200)));
      (r.Some? <==> mx.Some? && mn.Some?)
      && (r.Some? ==> r.value.0 == mx.value && (r.value.1 == mn.value || r.value.1 == mx.value))
      && (r.Some? && mn.value <= mx.value ==> r.value.1 == mn.value)
  {
    match (PyInt(GetOr(config, "max_inline_chars", JInt(3500))), PyInt(GetOr(config, "min_chars_for_button", JInt(1200))))
    case (Some(maxInline), Some(minChars)) => Some((maxInline, if minChars > maxInline then maxInline else minChars))
    case _ => None
  }

  /** Without either setting the limits are 3500 characters inline and 1200 for a button. */
  lemma LimitsDefaults(config: seq<Field>)
    requires !HasKey(config, "max_inline_chars") && !HasKey(config, "min_chars_for_button")
    ensures Limits(config) == Some((3500, 1200))
  {
  }

  /** The index the first part ends at: the safe cut, or the limit where that is not positive. */
  function CutIndex(text: string, limit: int): (r: int)
    ensures limit > 0 && text != [] ==> r > 0
    ensures SafeCut(text, limit) > 0 ==> r == SafeCut(text, limit)
  {
    var cut := SafeCut(text, limit);
    if cut <= 0 then (if limit < |text| then limit else |text|) else cut
  }

  /** The first part shown inline. */
  function FirstPart(text: string, limit: int): (r: string)
    ensures |r| <= |text| && r == text[..|r|]
    ensures r != [] ==> !IsSpace(r[|r| - 1])
  {
    RStrip(PyPrefix(text, CutIndex(text, limit)))
  }

  const PluginId: string := "markdown_answers"

  /** `str(config.get("web_app_url") or "").strip()` */
  function WebAppUrl(config: seq<Field>): string
  {
    Strip(StrOr(config, "web_app_url", ""))
  }

  /** `str(config.get("button_text") or "Открыть полностью")` */
  function ButtonText(config: seq<Field>): string
  {
    StrOr(config, "button_text", DefaultButtonText)
  }

  /** The extra query entry: `api_base` where `api_base_url` is set. */
  function ExtraQuery(config: seq<Field>): Option<(string, string)>
  {
    var apiBase := Strip(StrOr(config, "api_base_url", ""));
    if apiBase != "" then Some(("api_base", apiBase)) else None
  }

  /** The web-app URL for the stored text. */
  function TextUrl(textId: string, config: seq<Field>, encode: QueryEncoder): Result<string, string>
  {
    MiniAppUrl(textId, WebAppUrl(config), StrOr(config, "id_query_param", "id"), ExtraQuery(config), encode)
  }

  /** The web-app button. */
  function Button(buttonText: string, url: string): seq<Field>
  {
    [Field("type", JStr("web_app_button")), Field("text", JStr(buttonText)), Field("url", JStr(url))]
  }

  /** The URL cannot be built for an empty id or a web-app URL that is neither http nor https. */
  lemma TextUrlFails(textId: string, config: seq<Field>, encode: QueryEncoder)
    ensures var url := WebAppUrl(config);
      TextUrl(textId, config, encode).Err? <==> textId == "" || !(StartsWith(url, "http://") || StartsWith(url, "https://"))
  {
  }

  /** The payload with its text replaced by the first part and a web-app button attached. */
  function Shortened(payload: seq<Field>, first: string, buttonText: string, url: string): (r: seq<Field>)
    ensures forall k :: HasKey(r, k) ==> k == "text" || k == "parse_mode" || k == "reply_markup"
  {
    [Field("text", JStr(first)), Field("parse_mode", Get(payload, "parse_mode")),
     Field("reply_markup", JMap(Button(buttonText, url)))]
  }

  /** The button is a web-app button with the button text and the URL. */
  lemma ButtonFields(buttonText: string, url: string)
    ensures var button := Button(buttonText, url);
      Get(button, "type") == JStr("web_app_button") && Get(button, "text") == JStr(buttonText)
      && Get(button, "url") == JStr(url)
  {
    var button := Button(buttonText, url);
    assert "type"[1] != "text"[1] && "url"[0] !in {"type"[0], "text"[0]};
    assert button[1..][0].key == "text" && button[1..][1..][0].key == "url";
  }

  /** The shortened payload holds the first part, the payload's parse mode and the button. */
  lemma ShortenedFields(payload: seq<Field>, first: string, buttonText: string, url: string)
    ensures var r := Shortened(payload, first, buttonText, url);
      Get(r, "text") == JStr(first) && Get(r, "parse_mode") == Get(payload, "parse_mode")
      && Get(r, "reply_markup") == JMap(Button(buttonText, url))
  {
    var r := Shortened(payload, first, buttonText, url);
    assert "parse_mode"[0] != "text"[0];
    assert "reply_markup"[0] !in {"text"[0], "parse_mode"[0]};
    assert r[1..][0].key == "parse_mode" && r[1..][1..][0].key == "reply_markup";
  }

  /** `on_llm_response`; `store` is None where the context has no callable `store_text`. The
      error is the exception the hook raises. */
  function OnLlmResponse(payload: seq<Field>, store: Option<Store>, config: seq<Field>, encode: QueryEncoder): (r: Result<seq<Field>, string>)
    ensures StrOr(payload, "text", "") == "" || WebAppUrl(config) == "" ==> r == Ok(payload)
    ensures r.Err? ==> StrOr(payload, "text", "") != "" && WebAppUrl(config) != ""
    ensures Limits(config).None? && r.Err? ==> r.error == "invalid literal for int()"
  {
    var text := StrOr(payload, "text", "");
    if text == "" || WebAppUrl(config) == "" then Ok(payload)
    else match Limits(config)
      case None => Err("invalid literal for int()")
      case Some(limits) => Shorten(payload, text, limits, store, config, encode)
  }

  /** The steps of `on_llm_response` once the limits are read. */
  function Shorten(payload: seq<Field>, text: string, limits: (int, int), store: Option<Store>, config: seq<Field>,
                   encode: QueryEncoder): (r: Result<seq<Field>, string>)
    ensures |text| <= limits.0 || store.None? ==> r == Ok(payload)
    ensures r.Ok? && r.value != payload ==> Get(r.value, "text") == JStr(FirstPart(text, limits.0))
    ensures r.Err? ==> |text| > limits.0 && |FirstPart(text, limits.0)| >= limits.1 && store.Some?
  {
    var (maxInline, minChars) := limits;
    if |text| <= maxInline then Ok(payload)
    else
      var first := FirstPart(text, maxInline);
      if |first| < minChars || store.None? then Ok(payload)
      else match store.value(PluginId, text)
        case None => Ok(payload)
        case Some(id) => Attach(payload, first, PyStr(id), config, encode)
  }

  /** Building the URL and the shortened payload once the text is stored under `textId`. */
  function Attach(payload: seq<Field>, first: string, textId: string, config: seq<Field>, encode: QueryEncoder): (r: Result<seq<Field>, string>)
    ensures r.Err? <==> TextUrl(textId, config, encode).Err?
    ensures r.Ok? ==>
      Get(r.value, "text") == JStr(first) && Get(r.value, "parse_mode") == Get(payload, "parse_mode")
      && Get(r.value, "reply_markup") == JMap(Button(ButtonText(config), TextUrl(textId, config, encode).value))
  {
    match TextUrl(textId, config, encode)
    case Err(e) => Err(e)
    case Ok(url) => ShortenedFields(payload, first, ButtonText(config), url); Ok(Shortened(payload, first, ButtonText(config), url))
  }

  /** The payload comes back unchanged for an empty text or a blank web-app URL. */
  lemma OnLlmResponseSkips(payload: seq<Field>, store: Option<Store>, config: seq<Field>, encode: QueryEncoder)
    requires StrOr(payload, "text", "") == "" || WebAppUrl(config) == ""
    ensures OnLlmResponse(payload, store, config, encode) == Ok(payload)
  {
  }

  /** Past those checks, the limits are read, and an unreadable one fails the hook. */
  lemma OnLlmResponseLimits(payload: seq<Field>, store: Option<Store>, config: seq<Field>, encode: QueryEncoder)
    requires StrOr(payload, "text", "") != "" && WebAppUrl(config) != ""
    ensures OnLlmResponse(payload, store, config, encode) ==
      match Limits(config)
      case None => Err("invalid literal for int()")
      case Some(limits) => Shorten(payload, StrOr(payload, "text", ""), limits, store, config, encode)
  {
  }

  /** With the limits read, the payload comes back unchanged for a text within the inline
      maximum, a first part below the minimum, and a missing or failing store. */
  lemma ShortenKeeps(payload: seq<Field>, text: string, limits: (int, int), store: Option<Store>, config: seq<Field>,
                     encode: QueryEncoder)
    requires |text| <= limits.0 || |FirstPart(text, limits.0)| < limits.1
      || store.None? || store.value(PluginId, text).None?
    ensures Shorten(payload, text, limits, store, config, encode) == Ok(payload)
  {
  }

  /** Otherwise the full text is stored and the payload is shortened to the first part with a
      button for the URL of the stored text, or the hook fails when that URL cannot be built. */
  lemma ShortenChanges(payload: seq<Field>, text: string, limits: (int, int), store: Option<Store>, config: seq<Field>,
                       encode: QueryEncoder)
    requires |text| > limits.0 && |FirstPart(text, limits.0)| >= limits.1
    requires store.Some? && store.value(PluginId, text).Some?
    ensures var first := FirstPart(text, limits.0);
      var textId := PyStr(store.value(PluginId, text).value);
      Shorten(payload, text, limits, store, config, encode) ==
        match TextUrl(textId, config, encode)
        case Err(e) => Err(e)
        case Ok(url) => Ok(Shortened(payload, first, ButtonText(config), url))
  {
  }

  /** A shortened answer's first part is at most the inline maximum long where that is not
      negative. */
  lemma ShortenBounds(text: string, limits: (int, int))
    requires |text| > limits.0 >= 0
    ensures |FirstPart(text, limits.0)| <= limits.0
  {
    SafeCutBound(text, limits.0);
  }

  /** The first part ends where the safe cut does, or at the limit, so a positive cut never
      splits a code block, and it is a prefix of the text without trailing whitespace. */
  lemma FirstPartSpec(text: string, limit: int)
    requires |text| > limit
    ensures var first := FirstPart(text, limit);
      |first| <= |text| && first == text[..|first|]
      && (first == [] || !IsSpace(first[|first| - 1]))
    ensures SafeCut(text, limit) <= 0 ==> CutIndex(text, limit) == limit
    ensures SafeCut(text, limit) > 0 ==> (CutIndex(text, limit) == SafeCut(text, limit)
      && var blocks := CodeBlocksFrom(text, 0);
        forall k :: 0 <= k < |blocks| ==> !(blocks[k].0 < CutIndex(text, limit) < blocks[k].1))
  {
    SafeCutBound(text, limit);
    SafeCutSafe(text, limit);
    var p := PyPrefix(text, CutIndex(text, limit));
    var first := RStrip(p);
    assert first == text[..|first|];
  }
}
