/**
 * The chat text utilities: splitting a long answer into messages of at most `limit`
 * characters, removing the bot's mention, and finding the roles a message mentions.
 */
module Utils {
  import opened Text

  /** What the splitter has emitted so far, and the chunk it is still filling. */
  datatype Acc = Acc(out: seq<string>, chunk: string)

  /** Every piece is non-empty and at most `limit` long. */
  predicate AllFit(xs: seq<string>, limit: int)
  {
    forall k :: 0 <= k < |xs| ==> 0 < |xs[k]| <= limit
  }

  predicate Fits(a: Acc, limit: int)
  {
    AllFit(a.out, limit) && |a.chunk| <= limit
  }

  function Min(a: int, b: int): int
  {
    if a <= b then a else b
  }

  /** `s[i:i + limit]` for `i` in `range(start, len(s), limit)`: consecutive pieces of `limit`
      characters, the last one possibly shorter. */
  function SlicesFrom(s: string, limit: int, start: nat): (r: seq<string>)
    requires limit > 0 && start <= |s|
    ensures Concat(r) == s[start..]
    ensures AllFit(r, limit)
    ensures forall k :: 0 <= k < |r| - 1 ==> |r[k]| == limit
    decreases |s| - start
  {
    if start == |s| then []
    else
      var end := Min(start + limit, |s|);
      var rest := SlicesFrom(s, limit, end);
      assert s[start..] == s[start..end] + s[end..];
      assert ([s[start..end]] + rest)[1..] == rest;
      [s[start..end]] + rest
  }

  /** What is left once input runs out: the emitted pieces and the non-empty open chunk. */
  function Flush(a: Acc): seq<string>
  {
    a.out + (if a.chunk != "" then [a.chunk] else [])
  }

  lemma FlushFits(a: Acc, limit: int)
    requires Fits(a, limit)
    ensures AllFit(Flush(a), limit)
  {
  }

  /** One paragraph of the `split("\n\n")` path. */
  function ParaStep(a: Acc, para: string, limit: int): Acc
    requires limit > 0
  {
    var candidate := if a.chunk == "" then para else a.chunk + "\n\n" + para;
    if |candidate| <= limit then Acc(a.out, candidate)
    else
      var out := a.out + (if a.chunk != "" then [a.chunk] else []);
      if |para| <= limit then Acc(out, para)
      else Acc(out + SlicesFrom(para, limit, 0), "")
  }

  function ParaFold(paras: seq<string>, limit: int): Acc
    requires limit > 0
  {
    if paras == [] then Acc([], "")
    else ParaStep(ParaFold(paras[..|paras| - 1], limit), paras[|paras| - 1], limit)
  }

  /** The fold over one more paragraph is one more step. */
  lemma ParaFoldStep(paras: seq<string>, i: nat, limit: int)
    requires limit > 0 && i < |paras|
    ensures ParaFold(paras[..i + 1], limit) == ParaStep(ParaFold(paras[..i], limit), paras[i], limit)
  {
    assert paras[..i + 1][..i] == paras[..i];
  }

  /** A paragraph step keeps every emitted piece and the open chunk within the limit. */
  lemma ParaStepFits(a: Acc, para: string, limit: int)
    requires limit > 0 && Fits(a, limit)
    ensures Fits(ParaStep(a, para, limit), limit)
  {
  }

  lemma {:induction false} ParaFoldFits(paras: seq<string>, limit: int)
    requires limit > 0
    ensures Fits(ParaFold(paras, limit), limit)
  {
    if paras != [] {
      ParaFoldFits(paras[..|paras| - 1], limit);
      ParaStepFits(ParaFold(paras[..|paras| - 1], limit), paras[|paras| - 1], limit);
    }
  }

  /** A non-empty paragraph that fits on its own extends the blank-line join of what the fold
      has produced by one more paragraph. */
  lemma ParaStepJoins(a: Acc, para: string, limit: int)
    requires limit > 0 && 0 < |para| <= limit
    requires a.chunk == "" ==> a.out == []
    ensures var b := ParaStep(a, para, limit);
      b.chunk != "" && Join(Flush(b), "\n\n") == (if a.chunk == "" then para else Join(Flush(a), "\n\n") + "\n\n" + para)
  {
    if a.chunk != "" {
      var candidate := a.chunk + "\n\n" + para;
      if |candidate| <= limit {
        if a.out != [] {
          JoinAppend(a.out, candidate, "\n\n");
          JoinAppend(a.out, a.chunk, "\n\n");
        }
      } else {
        JoinAppend(a.out + [a.chunk], para, "\n\n");
      }
    }
  }

  /** When every paragraph is non-empty and fits on its own, the paragraph path only regroups
      them: the chunks joined with a blank line are the paragraphs joined with a blank line. */
  lemma {:induction false} ParaFoldJoins(paras: seq<string>, limit: int)
    requires limit > 0 && AllFit(paras, limit)
    ensures var a := ParaFold(paras, limit);
      (a.chunk != "" <==> paras != []) && Join(Flush(a), "\n\n") == Join(paras, "\n\n")
  {
    if paras != [] {
      var init := paras[..|paras| - 1];
      var para := paras[|paras| - 1];
      assert AllFit(init, limit) by {
        forall k | 0 <= k < |init|
          ensures 0 < |init[k]| <= limit
        {
          assert init[k] == paras[k];
        }
      }
      ParaFoldJoins(init, limit);
      var a := ParaFold(init, limit);
      assert paras == init + [para];
      ParaStepJoins(a, para, limit);
      if init != [] {
        JoinAppend(init, para, "\n\n");
      }
    }
  }

  /** A paragraph longer than the limit closes the open chunk and is emitted as consecutive
      slices of `limit` characters, right after everything emitted before it. */
  lemma ParaFoldOversized(paras: seq<string>, para: string, limit: int)
    requires limit > 0 && |para| > limit
    ensures ParaFold(paras + [para], limit).chunk == ""
    ensures Flush(ParaFold(paras + [para], limit)) == Flush(ParaFold(paras, limit)) + SlicesFrom(para, limit, 0)
  {
    assert (paras + [para])[..|paras|] == paras;
  }

  /** The match spans of the code-fence pattern: in bounds, in order, not overlapping. */
  predicate SpansOk(text: string, spans: seq<(int, int)>)
  {
    (forall i :: 0 <= i < |spans| ==> 0 <= spans[i].0 <= spans[i].1 <= |text|)
    && (forall i, j :: 0 <= i < j < |spans| ==> spans[i].1 <= spans[j].0)
  }

  /** Where the cursor stands once the first `n` matches are consumed. */
  function CursorAfter(spans: seq<(int, int)>, n: nat): int
    requires n <= |spans|
  {
    if n == 0 then 0 else spans[n - 1].1
  }

  /** The segments the loop has collected after the first `n` matches: for each match, the gap
      before it when there is one, then the match. */
  function SegmentFold(text: string, spans: seq<(int, int)>, n: nat): seq<string>
    requires SpansOk(text, spans) && n <= |spans|
  {
    if n == 0 then []
    else
      var cursor := CursorAfter(spans, n - 1);
      var m := spans[n - 1];
      assert cursor <= m.0 by {
        if n > 1 {
          assert spans[n - 2].1 <= spans[n - 1].0;
        }
      }
      SegmentFold(text, spans, n - 1) + (if m.0 > cursor then [text[cursor..m.0]] else []) + [text[m.0..m.1]]
  }

  /** The concatenation of the segments before a gap, the gap and a match. */
  lemma GapAndMatch(text: string, prev: seq<string>, cursor: int, m: (int, int))
    requires 0 <= cursor <= m.0 <= m.1 <= |text|
    requires Concat(prev) == text[..cursor]
    ensures Concat(prev + (if m.0 > cursor then [text[cursor..m.0]] else []) + [text[m.0..m.1]]) == text[..m.1]
  {
    var gap := if m.0 > cursor then [text[cursor..m.0]] else [];
    ConcatAppend(prev + gap, [text[m.0..m.1]]);
    ConcatAppend(prev, gap);
    PrefixThree(text, cursor, m.0, m.1);
  }

  lemma PrefixThree(text: string, a: int, b: int, c: int)
    requires 0 <= a <= b <= c <= |text|
    ensures text[..c] == text[..a] + text[a..b] + text[b..c]
  {
  }

  /** The segments so far are the text up to the cursor. */
  lemma {:induction false} SegmentFoldConcat(text: string, spans: seq<(int, int)>, n: nat)
    requires SpansOk(text, spans) && n <= |spans|
    ensures 0 <= CursorAfter(spans, n) <= |text|
    ensures Concat(SegmentFold(text, spans, n)) == text[..CursorAfter(spans, n)]
  {
    if n > 0 {
      SegmentFoldConcat(text, spans, n - 1);
      if n > 1 {
        assert spans[n - 2].1 <= spans[n - 1].0;
      }
      GapAndMatch(text, SegmentFold(text, spans, n - 1), CursorAfter(spans, n - 1), spans[n - 1]);
    }
  }

  /** The text cut into the gaps between code blocks and the code blocks themselves. */
  function Segments(text: string, spans: seq<(int, int)>): seq<string>
    requires SpansOk(text, spans)
  {
    SegmentFoldConcat(text, spans, |spans|);
    var cursor := CursorAfter(spans, |spans|);
    SegmentFold(text, spans, |spans|) + (if cursor < |text| then [text[cursor..]] else [])
  }

  /** Gaps and code blocks put back together are the text. */
  lemma SegmentsConcat(text: string, spans: seq<(int, int)>)
    requires SpansOk(text, spans)
    ensures Concat(Segments(text, spans)) == text
  {
    SegmentFoldConcat(text, spans, |spans|);
    var cursor := CursorAfter(spans, |spans|);
    var last := if cursor < |text| then [text[cursor..]] else [];
    ConcatAppend(SegmentFold(text, spans, |spans|), last);
    assert text == text[..cursor] + text[cursor..];
  }

  /** One segment of the code-fence path. Empty segments are skipped; `chunk + segment` is the
      same string whether or not the chunk is empty. */
  function SegmentStep(a: Acc, segment: string, limit: int): Acc
    requires limit > 0
  {
    if segment == "" then a
    else
      var candidate := a.chunk + segment;
      if |candidate| <= limit then Acc(a.out, candidate)
      else
        var out := a.out + (if a.chunk != "" then [a.chunk] else []);
        if |segment| <= limit then Acc(out, segment)
        else Acc(out + SlicesFrom(segment, limit, 0), "")
  }

  function SegmentChunks(segs: seq<string>, limit: int): Acc
    requires limit > 0
  {
    if segs == [] then Acc([], "")
    else SegmentStep(SegmentChunks(segs[..|segs| - 1], limit), segs[|segs| - 1], limit)
  }

  /** A segment step keeps the pieces within the limit. */
  lemma SegmentStepFits(a: Acc, segment: string, limit: int)
    requires limit > 0 && Fits(a, limit)
    ensures Fits(SegmentStep(a, segment, limit), limit)
  {
  }

  /** A segment step loses no character and adds none. */
  lemma SegmentStepConcat(a: Acc, segment: string, limit: int)
    requires limit > 0
    ensures var r := SegmentStep(a, segment, limit); Concat(r.out) + r.chunk == Concat(a.out) + a.chunk + segment
  {
    if segment != "" && |a.chunk + segment| > limit {
      var flushed := if a.chunk != "" then [a.chunk] else [];
      ConcatAppend(a.out, flushed);
      if |segment| > limit {
        ConcatAppend(a.out + flushed, SlicesFrom(segment, limit, 0));
      }
    }
  }

  lemma {:induction false} SegmentChunksKeep(segs: seq<string>, limit: int)
    requires limit > 0
    ensures Fits(SegmentChunks(segs, limit), limit)
    ensures var r := SegmentChunks(segs, limit); Concat(r.out) + r.chunk == Concat(segs)
  {
    if segs != [] {
      var init := segs[..|segs| - 1];
      SegmentChunksKeep(init, limit);
      SegmentStepFits(SegmentChunks(init, limit), segs[|segs| - 1], limit);
      SegmentStepConcat(SegmentChunks(init, limit), segs[|segs| - 1], limit);
      ConcatAppend(init, [segs[|segs| - 1]]);
      assert init + [segs[|segs| - 1]] == segs;
    }
  }

  /** `split_message`: one message when the text fits; otherwise paragraphs when the text has
      no code block, and segments around the given code-block spans when it has. */
  function SplitSpec(text: string, limit: int, spans: seq<(int, int)>): (r: seq<string>)
    requires limit > 0 && SpansOk(text, spans)
    ensures |text| <= limit ==> r == [text]
    ensures |text| > limit ==> AllFit(r, limit)
  {
    if |text| <= limit then [text]
    else if spans == [] then
      ParaFoldFits(Split(text, "\n\n"), limit);
      FlushFits(ParaFold(Split(text, "\n\n"), limit), limit);
      Flush(ParaFold(Split(text, "\n\n"), limit))
    else
      SegmentChunksKeep(Segments(text, spans), limit);
      FlushFits(SegmentChunks(Segments(text, spans), limit), limit);
      Flush(SegmentChunks(Segments(text, spans), limit))
  }

  /** A text without code blocks whose paragraphs are all non-empty and within the limit
      comes back whole when its messages are joined with a blank line. */
  lemma SplitJoinsParagraphs(text: string, limit: int)
    requires limit > 0 && |text| > limit
    requires AllFit(Split(text, "\n\n"), limit)
    ensures Join(SplitSpec(text, limit, []), "\n\n") == text
  {
    ParaFoldJoins(Split(text, "\n\n"), limit);
    JoinSplit(text, "\n\n");
  }

  /** Around code blocks nothing is lost or added: the messages put together are the text. */
  lemma SplitKeepsText(text: string, limit: int, spans: seq<(int, int)>)
    requires limit > 0 && SpansOk(text, spans) && spans != []
    ensures Concat(SplitSpec(text, limit, spans)) == text
  {
    if |text| > limit {
      var a := SegmentChunks(Segments(text, spans), limit);
      SegmentChunksKeep(Segments(text, spans), limit);
      SegmentsConcat(text, spans);
      var last := if a.chunk != "" then [a.chunk] else [];
      ConcatAppend(a.out, last);
    }
  }

  /** Appends `s[i:i + limit]` for each `i` in `range(0, len(s), limit)`. */
  method AppendSlices(out: seq<string>, s: string, limit: int) returns (r: seq<string>)
    requires limit > 0
    ensures r == out + SlicesFrom(s, limit, 0)
  {
    r := out;
    var i := 0;
    while i < |s|
      invariant 0 <= i <= |s|
      invariant r + SlicesFrom(s, limit, i) == out + SlicesFrom(s, limit, 0)
      decreases |s| - i
    {
      var end := Min(i + limit, |s|);
      r := r + [s[i..end]];
      i := end;
    }
  }

  /** `split_message`, with the code-fence matches given as `(start, end)` spans. */
  method SplitMessage(text: string, limit: int, spans: seq<(int, int)>) returns (chunks: seq<string>)
    requires limit > 0 && SpansOk(text, spans)
    ensures chunks == SplitSpec(text, limit, spans)
  {
    if |text| <= limit {
      return [text];
    }
    if spans == [] {
      chunks := ChunkParagraphs(Split(text, "\n\n"), limit);
      return;
    }
    var segments := CutSegments(text, spans);
    chunks := ChunkSegments(segments, limit);
  }

  /** One turn of the paragraph loop of `split_message`. */
  method AddParagraph(chunks0: seq<string>, chunk0: string, para: string, limit: int) returns (chunks: seq<string>, chunk: string)
    requires limit > 0
    ensures Acc(chunks, chunk) == ParaStep(Acc(chunks0, chunk0), para, limit)
  {
    chunks, chunk := chunks0, chunk0;
    var candidate := if chunk == "" then para else chunk + "\n\n" + para;
    if |candidate| <= limit {
      chunk := candidate;
    } else {
      if chunk != "" {
        chunks := chunks + [chunk];
        chunk := "";
      }
      if |para| <= limit {
        chunk := para;
      } else {
        chunks := AppendSlices(chunks, para, limit);
      }
    }
  }

  /** The paragraph loop of `split_message`. */
  method ChunkParagraphs(paras: seq<string>, limit: int) returns (chunks: seq<string>)
    requires limit > 0
    ensures chunks == Flush(ParaFold(paras, limit))
  {
    chunks := [];
    var chunk := "";
    var i := 0;
    while i < |paras|
      invariant 0 <= i <= |paras|
      invariant ParaFold(paras[..i], limit) == Acc(chunks, chunk)
    {
      chunks, chunk := AddParagraph(chunks, chunk, paras[i], limit);
      ParaFoldStep(paras, i, limit);
      i := i + 1;
    }
    assert paras[..i] == paras;
    if chunk != "" {
      chunks := chunks + [chunk];
    }
  }

  /** The `segments` loop of `split_message`: the gaps and the code blocks, in text order. */
  method CutSegments(text: string, spans: seq<(int, int)>) returns (segments: seq<string>)
    requires SpansOk(text, spans)
    ensures segments == Segments(text, spans)
  {
    segments := [];
    var cursor := 0;
    var n := 0;
    while n < |spans|
      invariant 0 <= n <= |spans|
      invariant cursor == CursorAfter(spans, n)
      invariant segments == SegmentFold(text, spans, n)
    {
      var m := spans[n];
      if n > 0 {
        assert spans[n - 1].1 <= spans[n].0;
      }
      if m.0 > cursor {
        segments := segments + [text[cursor..m.0]];
      }
      segments := segments + [text[m.0..m.1]];
      cursor := m.1;
      n := n + 1;
    }
    if cursor < |text| {
      segments := segments + [text[cursor..]];
    }
  }

  /** The chunk loop of the code-block path of `split_message`. */
  method ChunkSegments(segments: seq<string>, limit: int) returns (chunks: seq<string>)
    requires limit > 0
    ensures chunks == Flush(SegmentChunks(segments, limit))
  {
    chunks := [];
    var chunk := "";
    var i := 0;
    while i < |segments|
      invariant 0 <= i <= |segments|
      invariant SegmentChunks(segments[..i], limit) == Acc(chunks, chunk)
    {
      var segment := segments[i];
      ghost var before := Acc(chunks, chunk);
      if segment != "" {
        var candidate := if chunk != "" then chunk + segment else segment;
        if |candidate| <= limit {
          chunk := candidate;
        } else {
          if chunk != "" {
            chunks := chunks + [chunk];
            chunk := "";
          }
          if |segment| <= limit {
            chunk := segment;
          } else {
            chunks := AppendSlices(chunks, segment, limit);
          }
        }
      }
      assert Acc(chunks, chunk) == SegmentStep(before, segment, limit);
      assert segments[..i + 1][..i] == segments[..i];
      i := i + 1;
    }
    assert segments[..i] == segments;
    if chunk != "" {
      chunks := chunks + [chunk];
    }
  }

  /** `strip_bot_mention`: every case-insensitive `@bot` removed, then the ends stripped. */
  function StripBotMention(text: string, botUsername: string): (r: string)
    ensures NoSpaceEnds(r) && |r| <= |text|
  {
    Strip(RemoveAllCI(text, "@" + botUsername))
  }

  /** Without a mention only the ends are stripped. */
  lemma StripBotMentionAbsent(text: string, botUsername: string)
    requires forall i :: 0 <= i < |text| ==> !OccursAtCI(text, "@" + botUsername, i)
    ensures StripBotMention(text, botUsername) == Strip(text)
  {
    RemoveAllCIKeepsFree(text, "@" + botUsername);
  }

  /** A mention in the text, in any case, is dropped with whatever surrounds it kept. */
  lemma {:induction false} StripBotMentionDrops(before: string, mention: string, after: string, botUsername: string)
    requires Lower(mention) == Lower("@" + botUsername)
    requires '@' !in before
    ensures StripBotMention(before + mention + after, botUsername) == Strip(before + RemoveAllCI(after, "@" + botUsername))
  {
    var p := "@" + botUsername;
    RemoveThrough(before, mention, after, p);
  }

  /** An occurrence at the front is removed. */
  lemma RemoveAtFront(mention: string, after: string, p: string)
    requires p != [] && Lower(mention) == Lower(p)
    ensures RemoveAllCI(mention + after, p) == RemoveAllCI(after, p)
  {
    var s := mention + after;
    assert |mention| == |p|;
    assert s[..|p|] == mention;
    assert s[|p|..] == after;
  }

  /** A character other than `@` in front of a text is kept when `p` starts with `@`. */
  lemma KeepFront(before: string, mention: string, after: string, p: string)
    requires p != [] && p[0] == '@' && before != [] && before[0] != '@'
    ensures RemoveAllCI(before + mention + after, p) == [before[0]] + RemoveAllCI(before[1..] + mention + after, p)
  {
    var s := before + mention + after;
    assert s[1..] == before[1..] + mention + after;
    if |s| >= |p| {
      assert Lower(s[..|p|])[0] == LowerChar(before[0]);
      assert Lower(p)[0] == '@';
    }
  }

  lemma {:induction false} RemoveThrough(before: string, mention: string, after: string, p: string)
    requires p != [] && p[0] == '@' && Lower(mention) == Lower(p)
    requires '@' !in before
    ensures RemoveAllCI(before + mention + after, p) == before + RemoveAllCI(after, p)
    decreases |before|
  {
    if before == [] {
      assert before + mention + after == mention + after;
      RemoveAtFront(mention, after, p);
    } else {
      assert '@' !in before[1..] by {
        assert before == [before[0]] + before[1..];
      }
      RemoveThrough(before[1..], mention, after, p);
      KeepFront(before, mention, after, p);
      ConsRest(before, RemoveAllCI(after, p));
    }
  }

  lemma ConsRest(s: string, t: string)
    requires s != []
    ensures [s[0]] + (s[1..] + t) == s + t
  {
    assert s == [s[0]] + s[1..];
  }

  /** The role is mentioned: `@` followed by its lower-cased name occurs in the lower-cased text. */
  predicate Mentions(text: string, role: string)
  {
    Contains(Lower(text), "@" + Lower(role))
  }

  /** The mentioned roles, in the iteration order of `roles`. */
  function Mentioned(text: string, roles: seq<string>): (r: seq<string>)
    ensures |r| <= |roles|
    ensures forall i :: 0 <= i < |r| ==> Mentions(text, r[i])
  {
    if roles == [] then []
    else
      var x := roles[|roles| - 1];
      Mentioned(text, roles[..|roles| - 1]) + (if Mentions(text, x) then [x] else [])
  }

  /** The filter keeps exactly the mentioned roles. */
  lemma {:induction false} MentionedExactly(text: string, roles: seq<string>, x: string)
    ensures x in Mentioned(text, roles) <==> x in roles && Mentions(text, x)
  {
    if roles != [] {
      var init := roles[..|roles| - 1];
      MentionedExactly(text, init, x);
      assert roles == init + [roles[|roles| - 1]];
    }
  }

  predicate NonIncreasing(xs: seq<string>)
  {
    forall i, j :: 0 <= i < j < |xs| ==> |xs[i]| >= |xs[j]|
  }

  /** Stable insertion by length, longest first: `x` goes before the first shorter element. */
  function InsertByLength(s: seq<string>, x: string): (r: seq<string>)
    ensures |r| == |s| + 1 && |r[0]| >= |x|
  {
    if s == [] then [x]
    else if |s[0]| < |x| then [x] + s
    else [s[0]] + InsertByLength(s[1..], x)
  }

  /** `found.sort(key=len, reverse=True)`, which keeps equally long names in their order. */
  function SortByLength(xs: seq<string>): seq<string>
  {
    if xs == [] then []
    else InsertByLength(SortByLength(xs[..|xs| - 1]), xs[|xs| - 1])
  }

  /** Insertion adds exactly `x`. */
  lemma {:induction false} InsertByLengthAdds(s: seq<string>, x: string)
    ensures multiset(InsertByLength(s, x)) == multiset(s) + multiset{x}
  {
    if s != [] && |s[0]| >= |x| {
      InsertByLengthAdds(s[1..], x);
      assert s == [s[0]] + s[1..];
    }
  }

  /** Insertion brings in no name longer than the longest of the list and `x`. */
  lemma {:induction false} InsertByLengthBound(s: seq<string>, x: string, bound: nat)
    requires forall k :: 0 <= k < |s| ==> |s[k]| <= bound
    requires |x| <= bound
    ensures forall k :: 0 <= k < |InsertByLength(s, x)| ==> |InsertByLength(s, x)[k]| <= bound
  {
    if s != [] && |s[0]| >= |x| {
      InsertByLengthBound(s[1..], x, bound);
      assert InsertByLength(s, x) == [s[0]] + InsertByLength(s[1..], x);
    }
  }

  /** A longest-first list behind a name at least as long as all of it is longest first. */
  lemma ConsNonIncreasing(y: string, rest: seq<string>)
    requires NonIncreasing(rest)
    requires forall k :: 0 <= k < |rest| ==> |rest[k]| <= |y|
    ensures NonIncreasing([y] + rest)
  {
    var r := [y] + rest;
    forall i, j | 0 <= i < j < |r|
      ensures |r[i]| >= |r[j]|
    {
      assert r[j] == rest[j - 1];
      if i > 0 {
        assert r[i] == rest[i - 1];
      }
    }
  }

  /** Insertion keeps a longest-first list longest first. */
  lemma {:induction false} InsertByLengthSorted(s: seq<string>, x: string)
    requires NonIncreasing(s)
    ensures NonIncreasing(InsertByLength(s, x))
  {
    if s == [] {
    } else if |s[0]| < |x| {
      ConsNonIncreasing(x, s);
    } else {
      var t := s[1..];
      InsertByLengthSorted(t, x);
      assert forall k :: 0 <= k < |t| ==> |t[k]| <= |s[0]| by {
        forall k | 0 <= k < |t|
          ensures |t[k]| <= |s[0]|
        {
          assert t[k] == s[k + 1];
        }
      }
      InsertByLengthBound(t, x, |s[0]|);
      ConsNonIncreasing(s[0], InsertByLength(t, x));
    }
  }

  /** The sort keeps exactly the names it was given, longest first. */
  lemma {:induction false} SortByLengthSorted(xs: seq<string>)
    ensures multiset(SortByLength(xs)) == multiset(xs)
    ensures NonIncreasing(SortByLength(xs))
  {
    if xs != [] {
      var init := xs[..|xs| - 1];
      SortByLengthSorted(init);
      InsertByLengthAdds(SortByLength(init), xs[|xs| - 1]);
      InsertByLengthSorted(SortByLength(init), xs[|xs| - 1]);
      assert xs == init + [xs[|xs| - 1]];
    }
  }

  /** The insertion point the source's sort finds is the one `InsertByLength` uses. */
  lemma {:induction false} InsertAt(s: seq<string>, x: string, j: nat)
    requires j <= |s|
    requires forall k :: 0 <= k < j ==> |s[k]| >= |x|
    requires j < |s| ==> |s[j]| < |x|
    ensures InsertByLength(s, x) == s[..j] + [x] + s[j..]
  {
    if j == 0 {
      assert s[..0] + [x] + s[0..] == [x] + s;
    } else {
      var t := s[1..];
      InsertAt(t, x, j - 1);
      assert s[..j] == [s[0]] + t[..j - 1];
      assert s[j..] == t[j - 1..];
      assert InsertByLength(s, x) == [s[0]] + InsertByLength(t, x);
    }
  }

  /** `extract_role_mentions`; `roles` is the iteration order of the set of role names. */
  method ExtractRoleMentions(text: string, roles: seq<string>) returns (found: seq<string>)
    ensures found == SortByLength(Mentioned(text, roles))
  {
    var lowered := Lower(text);
    var hits: seq<string> := [];
    var i := 0;
    while i < |roles|
      invariant 0 <= i <= |roles|
      invariant hits == Mentioned(text, roles[..i])
    {
      var role := roles[i];
      if Contains(lowered, "@" + Lower(role)) {
        hits := hits + [role];
      }
      assert roles[..i + 1][..i] == roles[..i];
      i := i + 1;
    }
    assert roles[..i] == roles;
    found := SortHitsByLength(hits);
  }

  /** The in-place `sort(key=len, reverse=True)` of the mentioned roles, as an insertion sort. */
  method SortHitsByLength(hits: seq<string>) returns (found: seq<string>)
    ensures found == SortByLength(hits)
  {
    found := [];
    var n := 0;
    while n < |hits|
      invariant 0 <= n <= |hits|
      invariant found == SortByLength(hits[..n])
    {
      var x := hits[n];
      var j := 0;
      while j < |found| && |found[j]| >= |x|
        invariant 0 <= j <= |found|
        invariant forall k :: 0 <= k < j ==> |found[k]| >= |x|
      {
        j := j + 1;
      }
      InsertAt(found, x, j);
      found := found[..j] + [x] + found[j..];
      assert hits[..n + 1][..n] == hits[..n];
      n := n + 1;
    }
    assert hits[..n] == hits;
  }

  /** The found roles are exactly the roles mentioned in the text, longest first. */
  lemma RoleMentionsExactly(text: string, roles: seq<string>)
    ensures forall x :: x in SortByLength(Mentioned(text, roles)) <==> x in roles && Mentions(text, x)
    ensures NonIncreasing(SortByLength(Mentioned(text, roles)))
  {
    var hits := Mentioned(text, roles);
    SortByLengthSorted(hits);
    forall x
      ensures x in SortByLength(hits) <==> x in roles && Mentions(text, x)
    {
      MentionedExactly(text, roles, x);
      assert x in SortByLength(hits) <==> x in multiset(SortByLength(hits));
      assert x in hits <==> x in multiset(hits);
    }
  }
}
