/**
 * The string operations of Python that the modelled code relies on, restricted to
 * ASCII case mapping and to the whitespace set of `str.isspace` below code point 128.
 */
module Text {

  /** `c.isspace()` for ASCII: space, \t \n \v \f \r, and the separators 0x1c..0x1f. */
  predicate IsSpace(c: char)
  {
    var n := c as int;
    n == 32 || (9 <= n <= 13) || (28 <= n <= 31)
  }

  /** `s.lstrip()` */
  function LStrip(s: string): (r: string)
    ensures |r| <= |s| && r == s[|s| - |r|..]
    ensures r != [] ==> !IsSpace(r[0])
    ensures forall k :: 0 <= k < |s| - |r| ==> IsSpace(s[k])
  {
    if |s| > 0 && IsSpace(s[0]) then LStrip(s[1..]) else s
  }

  /** `s.rstrip()` */
  function RStrip(s: string): (r: string)
    ensures |r| <= |s| && r == s[..|r|]
    ensures r != [] ==> !IsSpace(r[|r| - 1])
    ensures forall k :: |r| <= k < |s| ==> IsSpace(s[k])
  {
    if |s| > 0 && IsSpace(s[|s| - 1]) then RStrip(s[..|s| - 1]) else s
  }

  /** `s.strip()` */
  function Strip(s: string): (r: string)
    ensures |r| <= |s|
    ensures r != [] ==> !IsSpace(r[0]) && !IsSpace(r[|r| - 1])
  {
    RStrip(LStrip(s))
  }

  predicate NoSpaceEnds(s: string)
  {
    s == [] || (!IsSpace(s[0]) && !IsSpace(s[|s| - 1]))
  }

  lemma StripKeeps(s: string)
    requires NoSpaceEnds(s)
    ensures Strip(s) == s
  {
  }

  lemma StripIdempotent(s: string)
    ensures Strip(Strip(s)) == Strip(s)
  {
    StripKeeps(Strip(s));
  }

  /** A string made only of whitespace strips to the empty string. */
  lemma StripAllSpace(s: string)
    requires forall k :: 0 <= k < |s| ==> IsSpace(s[k])
    ensures Strip(s) == []
  {
  }

  /** Leading whitespace does not survive `strip`. */
  lemma {:induction false} StripLeadingSpace(w: string, t: string)
    requires forall k :: 0 <= k < |w| ==> IsSpace(w[k])
    ensures Strip(w + t) == Strip(t)
    decreases |w|
  {
    if w != [] {
      assert (w + t)[0] == w[0];
      assert (w + t)[1..] == w[1..] + t;
      StripLeadingSpace(w[1..], t);
    } else {
      assert w + t == t;
    }
  }

  /** Trailing whitespace does not survive `strip`. */
  lemma StripTrailingSpace(t: string, pad: string)
    requires forall k :: 0 <= k < |pad| ==> IsSpace(pad[k])
    ensures Strip(t + pad) == Strip(t)
  {
    if LStrip(t) == [] {
      StripAllSpace(t);
      StripAllSpace(t + pad);
    } else {
      LStripAppend(t, pad);
      RStripSpaces(LStrip(t), pad);
    }
  }

  lemma {:induction false} LStripAppend(t: string, u: string)
    requires LStrip(t) != []
    ensures LStrip(t + u) == LStrip(t) + u
    decreases |t|
  {
    if IsSpace(t[0]) {
      assert (t + u)[1..] == t[1..] + u;
      LStripAppend(t[1..], u);
    }
  }

  lemma {:induction false} RStripSpaces(u: string, pad: string)
    requires forall k :: 0 <= k < |pad| ==> IsSpace(pad[k])
    ensures RStrip(u + pad) == RStrip(u)
    decreases |pad|
  {
    if pad == [] {
      assert u + pad == u;
    } else {
      var shorter := pad[..|pad| - 1];
      assert (u + pad)[..|u + pad| - 1] == u + shorter;
      RStripSpaces(u, shorter);
    }
  }

  /** Stripping `a + b` where `a` starts and `b` ends with a non-space character keeps both ends. */
  lemma StripConcat(a: string, b: string)
    requires a != [] && !IsSpace(a[0])
    requires b != [] && !IsSpace(b[|b| - 1])
    ensures Strip(a + b) == a + b
  {
    StripKeeps(a + b);
  }

  function LowerChar(c: char): (r: char)
    ensures 'A' <= c <= 'Z' ==> r as int == c as int + 32
    ensures !('A' <= c <= 'Z') ==> r == c
  {
    if 'A' <= c <= 'Z' then (c as int + 32) as char else c
  }

  /** `s.lower()` for ASCII letters. */
  function Lower(s: string): (r: string)
    ensures |r| == |s|
    ensures forall i :: 0 <= i < |s| ==> r[i] == LowerChar(s[i])
  {
    seq(|s|, i requires 0 <= i < |s| => LowerChar(s[i]))
  }

  lemma LowerIdempotent(s: string)
    ensures Lower(Lower(s)) == Lower(s)
  {
  }

  /** Lower-casing and stripping commute: case changes never touch whitespace. */
  lemma {:induction false} LowerStrip(s: string)
    ensures Strip(Lower(s)) == Lower(Strip(s))
  {
    LowerLStrip(s);
    LowerRStrip(LStrip(s));
  }

  lemma {:induction false} LowerLStrip(s: string)
    ensures LStrip(Lower(s)) == Lower(LStrip(s))
    decreases |s|
  {
    if |s| > 0 && IsSpace(s[0]) {
      assert Lower(s)[1..] == Lower(s[1..]);
      LowerLStrip(s[1..]);
    }
  }

  lemma {:induction false} LowerRStrip(s: string)
    ensures RStrip(Lower(s)) == Lower(RStrip(s))
    decreases |s|
  {
    if |s| > 0 && IsSpace(s[|s| - 1]) {
      assert Lower(s)[..|s| - 1] == Lower(s[..|s| - 1]);
      LowerRStrip(s[..|s| - 1]);
    }
  }

  lemma LowerConcat(a: string, b: string)
    ensures Lower(a + b) == Lower(a) + Lower(b)
  {
  }

  lemma LowerSlice(s: string, i: int, j: int)
    requires 0 <= i <= j <= |s|
    ensures Lower(s[i..j]) == Lower(s)[i..j]
  {
  }

  predicate StartsWith(s: string, p: string)
  {
    |p| <= |s| && s[..|p|] == p
  }

  predicate EndsWith(s: string, p: string)
  {
    |p| <= |s| && s[|s| - |p|..] == p
  }

  /** `p` occurs in `s` at index `i`. */
  predicate OccursAt(s: string, p: string, i: int)
  {
    0 <= i && i + |p| <= |s| && s[i..i + |p|] == p
  }

  /** `p in s` */
  predicate Contains(s: string, p: string)
  {
    exists i :: 0 <= i <= |s| - |p| && OccursAt(s, p, i)
  }

  lemma ContainsAt(s: string, p: string, i: int)
    requires OccursAt(s, p, i)
    ensures Contains(s, p)
  {
  }

  lemma ContainsMiddle(a: string, b: string, c: string)
    ensures Contains(a + b + c, b)
  {
    assert (a + b + c)[|a|..|a| + |b|] == b;
    ContainsAt(a + b + c, b, |a|);
  }

  lemma NotContainsChar(s: string, c: char)
    requires forall k :: 0 <= k < |s| ==> s[k] != c
    ensures !Contains(s, [c])
  {
    forall i | 0 <= i <= |s| - 1
      ensures !OccursAt(s, [c], i)
    {
      assert s[i..i + 1][0] == s[i];
    }
  }

  /** `s.find(p, from)`: the first index at or after `from` where `p` occurs, or -1. */
  function Find(s: string, p: string, from: nat): (r: int)
    decreases |s| - from
    ensures r == -1 || (from <= r && OccursAt(s, p, r))
    ensures r == -1 ==> forall k :: from <= k ==> !OccursAt(s, p, k)
    ensures r != -1 ==> forall k :: from <= k < r ==> !OccursAt(s, p, k)
  {
    if from + |p| > |s| then -1
    else if s[from..from + |p|] == p then from
    else Find(s, p, from + 1)
  }

  lemma FindContains(s: string, p: string)
    ensures Contains(s, p) <==> Find(s, p, 0) >= 0
  {
    if Find(s, p, 0) >= 0 {
      ContainsAt(s, p, Find(s, p, 0));
    }
  }

  /** `s.index(c)` as -1 when `c` does not occur: the first position of `c`. */
  function IndexOf(s: string, c: char): (r: int)
    ensures -1 <= r < |s|
    ensures r == -1 <==> c !in s
    ensures r >= 0 ==> s[r] == c && c !in s[..r]
  {
    if s == [] then -1
    else if s[0] == c then 0
    else
      var i := IndexOf(s[1..], c);
      if i < 0 then -1 else i + 1
  }

  /** `s.replace(pat, rep)`: every occurrence, scanning left to right without overlap. */
  function Replace(s: string, pat: string, rep: string): (r: string)
    requires pat != []
    decreases |s|
  {
    if |s| < |pat| then s
    else if s[..|pat|] == pat then rep + Replace(s[|pat|..], pat, rep)
    else [s[0]] + Replace(s[1..], pat, rep)
  }

  lemma {:induction false} ReplaceAbsent(s: string, pat: string, rep: string)
    requires pat != []
    requires !Contains(s, pat)
    ensures Replace(s, pat, rep) == s
    decreases |s|
  {
    if |s| < |pat| {
    } else {
      assert !OccursAt(s, pat, 0);
      assert s[..|pat|] != pat;
      if Contains(s[1..], pat) {
        var i :| 0 <= i <= |s[1..]| - |pat| && OccursAt(s[1..], pat, i);
        assert s[i + 1..i + 1 + |pat|] == s[1..][i..i + |pat|];
        ContainsAt(s, pat, i + 1);
      }
      ReplaceAbsent(s[1..], pat, rep);
    }
  }

  /** An occurrence of `p + q` is an occurrence of `p`. */
  lemma OccursPrefix(s: string, p: string, q: string, i: int)
    requires OccursAt(s, p + q, i)
    ensures OccursAt(s, p, i)
  {
    assert s[i..i + |p|] == s[i..i + |p + q|][..|p|];
  }

  lemma ContainsPrefix(s: string, p: string, q: string)
    requires Contains(s, p + q)
    ensures Contains(s, p)
  {
    var i :| 0 <= i <= |s| - |p + q| && OccursAt(s, p + q, i);
    OccursPrefix(s, p, q, i);
  }

  /** A pattern absent from a whole is absent from each of its parts. */
  lemma NotContainsParts(x: string, y: string, z: string, p: string)
    requires !Contains(x + y + z, p)
    ensures !Contains(x, p) && !Contains(y, p) && !Contains(z, p)
  {
    var s := x + y + z;
    forall i | 0 <= i <= |x| - |p|
      ensures !OccursAt(x, p, i)
    {
      assert s[i..i + |p|] == x[i..i + |p|];
      assert !OccursAt(s, p, i);
    }
    forall i | 0 <= i <= |y| - |p|
      ensures !OccursAt(y, p, i)
    {
      assert s[|x| + i..|x| + i + |p|] == y[i..i + |p|];
      assert !OccursAt(s, p, |x| + i);
    }
    forall i | 0 <= i <= |z| - |p|
      ensures !OccursAt(z, p, i)
    {
      assert s[|x| + |y| + i..|x| + |y| + i + |p|] == z[i..i + |p|];
      assert !OccursAt(s, p, |x| + |y| + i);
    }
  }

  /** `replace` on a string whose scan meets the pattern first right after `a`, and never in
      `b`: that one occurrence is replaced and nothing else changes. */
  lemma {:induction false} ReplaceSingle(a: string, pat: string, b: string, rep: string)
    requires pat != []
    requires forall k :: 0 <= k < |a| ==> !OccursAt(a + pat + b, pat, k)
    requires !Contains(b, pat)
    ensures Replace(a + pat + b, pat, rep) == a + rep + b
    decreases |a|
  {
    var s := a + pat + b;
    if a == [] {
      assert s == pat + b;
      assert s[..|pat|] == pat && s[|pat|..] == b;
      ReplaceAbsent(b, pat, rep);
    } else {
      assert !OccursAt(s, pat, 0);
      assert s[1..] == a[1..] + pat + b;
      forall k | 0 <= k < |a[1..]|
        ensures !OccursAt(a[1..] + pat + b, pat, k)
      {
        assert !OccursAt(s, pat, k + 1);
        if k + 1 + |pat| <= |s| {
          assert s[k + 1..k + 1 + |pat|] == s[1..][k..k + |pat|];
        }
      }
      ReplaceSingle(a[1..], pat, b, rep);
      assert [a[0]] + (a[1..] + rep + b) == a + rep + b;
    }
  }

  /** `s.replace(pat, rep, 1)` */
  function ReplaceFirst(s: string, pat: string, rep: string): (r: string)
    requires pat != []
    ensures !Contains(s, pat) ==> r == s
    ensures Contains(s, pat) ==> exists i :: 0 <= i <= |s| - |pat| && OccursAt(s, pat, i) && r == s[..i] + rep + s[i + |pat|..]
  {
    FindContains(s, pat);
    var i := Find(s, pat, 0);
    if i < 0 then s else s[..i] + rep + s[i + |pat|..]
  }

  /** `sep.join(parts)` */
  function Join(parts: seq<string>, sep: string): string
  {
    if |parts| == 0 then ""
    else if |parts| == 1 then parts[0]
    else parts[0] + sep + Join(parts[1..], sep)
  }

  /** `"".join(parts)` */
  function Concat(parts: seq<string>): string
  {
    if parts == [] then "" else parts[0] + Concat(parts[1..])
  }

  lemma ConcatAppend(a: seq<string>, b: seq<string>)
    ensures Concat(a + b) == Concat(a) + Concat(b)
  {
    if a != [] {
      assert (a + b)[1..] == a[1..] + b;
      assert (a + b)[0] == a[0];
      ConcatAppend(a[1..], b);
      assert Concat(a + b) == a[0] + Concat(a[1..] + b);
    } else {
      assert a + b == b;
    }
  }

  lemma JoinAppend(parts: seq<string>, x: string, sep: string)
    requires parts != []
    ensures Join(parts + [x], sep) == Join(parts, sep) + sep + x
  {
    if |parts| > 1 {
      assert (parts + [x])[1..] == parts[1..] + [x];
      JoinAppend(parts[1..], x, sep);
    }
  }

  lemma JoinCons(x: string, rest: seq<string>, sep: string)
    requires rest != []
    ensures Join([x] + rest, sep) == x + sep + Join(rest, sep)
  {
    assert ([x] + rest)[1..] == rest;
  }

  lemma {:induction false} JoinConcat(a: seq<string>, b: seq<string>, sep: string)
    requires a != [] && b != []
    ensures Join(a + b, sep) == Join(a, sep) + sep + Join(b, sep)
  {
    if |a| == 1 {
      assert a + b == [a[0]] + b;
      JoinCons(a[0], b, sep);
    } else {
      assert (a + b)[1..] == a[1..] + b;
      JoinConcat(a[1..], b, sep);
    }
  }

  lemma JoinStartsWith(parts: seq<string>, sep: string)
    requires parts != []
    ensures StartsWith(Join(parts, sep), parts[0])
  {
  }

  /** `s.split(sep)` for a non-empty separator. */
  function Split(s: string, sep: string): (r: seq<string>)
    requires sep != []
    ensures |r| >= 1
    decreases |s|
  {
    var i := Find(s, sep, 0);
    if i < 0 then [s] else [s[..i]] + Split(s[i + |sep|..], sep)
  }

  lemma SliceThree(s: string, i: int, j: int)
    requires 0 <= i <= j <= |s|
    ensures s == s[..i] + s[i..j] + s[j..]
  {
  }

  /** A string is what comes before an occurrence, the occurrence and what comes after it. */
  lemma Rejoin(s: string, sep: string, i: int)
    requires OccursAt(s, sep, i)
    ensures s[..i] + sep + s[i + |sep|..] == s
  {
    SliceThree(s, i, i + |sep|);
  }

  /** Splitting at the first occurrence. */
  lemma SplitFirst(s: string, sep: string)
    requires sep != [] && Find(s, sep, 0) >= 0
    ensures var i := Find(s, sep, 0);
      Split(s, sep) == [s[..i]] + Split(s[i + |sep|..], sep)
  {
  }

  /** Splitting and joining with the same separator gives back the original string. */
  lemma {:induction false} JoinSplit(s: string, sep: string)
    requires sep != []
    ensures Join(Split(s, sep), sep) == s
    decreases |s|
  {
    var i := Find(s, sep, 0);
    if i >= 0 {
      var rest := s[i + |sep|..];
      JoinSplit(rest, sep);
      SplitFirst(s, sep);
      JoinCons(s[..i], Split(rest, sep), sep);
      Rejoin(s, sep, i);
    }
  }

  /** No piece of `s.split(sep)` contains the separator. */
  lemma {:induction false} SplitPiecesFree(s: string, sep: string)
    requires sep != []
    ensures forall k :: 0 <= k < |Split(s, sep)| ==> !Contains(Split(s, sep)[k], sep)
    decreases |s|
  {
    var i := Find(s, sep, 0);
    if i < 0 {
      FindContains(s, sep);
    } else {
      SplitPiecesFree(s[i + |sep|..], sep);
      var head := s[..i];
      if Contains(head, sep) {
        var j :| 0 <= j <= |head| - |sep| && OccursAt(head, sep, j);
        assert s[j..j + |sep|] == head[j..j + |sep|];
        assert OccursAt(s, sep, j);
      }
    }
  }

  /** Python's decimal rendering `str(n)` of an int. */
  function IntToString(n: int): (r: string)
    ensures r != []
  {
    if n < 0 then "-" + NatToString(-n) else NatToString(n)
  }

  function NatToString(n: nat): (r: string)
    ensures r != []
    ensures forall k :: 0 <= k < |r| ==> '0' <= r[k] <= '9'
  {
    var d := ['0' + (n % 10) as char];
    if n < 10 then d else NatToString(n / 10) + d
  }

  /** Python's `s[:n]`, including the negative-index form `s[:-k]`. */
  function PyPrefix(s: string, n: int): (r: string)
    ensures |r| <= |s| && r == s[..|r|]
    ensures 0 <= n ==> |r| == if n <= |s| then n else |s|
    ensures n < 0 ==> |r| == if |s| + n >= 0 then |s| + n else 0
  {
    if n >= 0 then (if n <= |s| then s[..n] else s)
    else if |s| + n >= 0 then s[..|s| + n] else []
  }

  /** Case-insensitive occurrence of `p` at index `i` (ASCII `re.IGNORECASE`). */
  predicate OccursAtCI(s: string, p: string, i: int)
  {
    0 <= i && i + |p| <= |s| && Lower(s[i..i + |p|]) == Lower(p)
  }

  /** `re.sub(re.escape(p), "", s, flags=re.IGNORECASE)`: every case-insensitive occurrence removed. */
  function RemoveAllCI(s: string, p: string): (r: string)
    requires p != []
    ensures |r| <= |s|
    decreases |s|
  {
    if |s| < |p| then s
    else if Lower(s[..|p|]) == Lower(p) then RemoveAllCI(s[|p|..], p)
    else [s[0]] + RemoveAllCI(s[1..], p)
  }

  /** A text without any case-insensitive occurrence is left as it is. */
  lemma {:induction false} RemoveAllCIKeepsFree(s: string, p: string)
    requires p != []
    requires !(exists i :: 0 <= i < |s| && OccursAtCI(s, p, i))
    ensures RemoveAllCI(s, p) == s
    decreases |s|
  {
    if |s| >= |p| {
      assert !OccursAtCI(s, p, 0);
      assert s[..|p|] == s[0..0 + |p|];
      if exists i :: 0 <= i < |s[1..]| && OccursAtCI(s[1..], p, i) {
        var i :| 0 <= i < |s[1..]| && OccursAtCI(s[1..], p, i);
        assert s[1..][i..i + |p|] == s[i + 1..i + 1 + |p|];
        assert OccursAtCI(s, p, i + 1);
      }
      RemoveAllCIKeepsFree(s[1..], p);
    }
  }
}
