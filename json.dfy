/**
 * JSON as the adapter sees it after `json.loads`: a tagged variant, with Python's truthiness,
 * `dict.get` and `str()` on it. A dict keeps its entries in insertion order, as Python's does.
 */
module Json {
  import opened Base
  import opened Text

  datatype Json =
    | JNull
    | JBool(b: bool)
    | JInt(i: int)
    | JStr(s: string)
    | JList(items: seq<Json>)
    | JMap(entries: seq<Field>)

  datatype Field = Field(key: string, val: Json)

  /** Python's `bool(v)` */
  predicate Truthy(v: Json)
  {
    match v
    case JNull => false
    case JBool(b) => b
    case JInt(i) => i != 0
    case JStr(s) => s != ""
    case JList(xs) => xs != []
    case JMap(es) => es != []
  }

  predicate HasKey(es: seq<Field>, key: string)
  {
    exists i :: 0 <= i < |es| && es[i].key == key
  }

  /** A list's keys are those of all but its last entry and the last entry's. */
  lemma HasKeyLast(es: seq<Field>)
    requires es != []
    ensures forall k :: HasKey(es, k) <==> HasKey(es[..|es| - 1], k) || es[|es| - 1].key == k
  {
    var init := es[..|es| - 1];
    forall k | HasKey(es, k)
      ensures HasKey(init, k) || es[|es| - 1].key == k
    {
      var i :| 0 <= i < |es| && es[i].key == k;
      if i < |es| - 1 {
        assert init[i].key == k;
      }
    }
    forall k | HasKey(init, k)
      ensures HasKey(es, k)
    {
      var i :| 0 <= i < |init| && init[i].key == k;
      assert es[i].key == k;
    }
  }

  /** `d.get(key)` as an option: the entry for `key`, the first one if the list repeats it. */
  function Lookup(es: seq<Field>, key: string): (r: Option<Json>)
    ensures r.Some? <==> HasKey(es, key)
    ensures r.Some? ==> exists i :: 0 <= i < |es| && es[i].key == key && es[i].val == r.value
  {
    if es == [] then None
    else if es[0].key == key then Some(es[0].val)
    else Lookup(es[1..], key)
  }

  /** `d.get(key, default)` */
  function GetOr(es: seq<Field>, key: string, default: Json): Json
  {
    Lookup(es, key).GetOr(default)
  }

  /** `d.get(key)`, where a missing key reads as None. */
  function Get(es: seq<Field>, key: string): Json
  {
    GetOr(es, key, JNull)
  }

  function Keys(es: seq<Field>): (ks: seq<string>)
    ensures |ks| == |es|
    ensures forall i :: 0 <= i < |es| ==> ks[i] == es[i].key
  {
    seq(|es|, i requires 0 <= i < |es| => es[i].key)
  }

  /** Python's `str(v)`. Containers use `Repr`, a simplified `repr` without escaping. */
  function PyStr(v: Json): string
  {
    match v
    case JNull => "None"
    case JBool(b) => if b then "True" else "False"
    case JInt(i) => IntToString(i)
    case JStr(s) => s
    case _ => Repr(v)
  }

  function Repr(v: Json): string
    decreases v
  {
    match v
    case JStr(s) => "'" + s + "'"
    case JList(xs) => "[" + Join(seq(|xs|, k requires 0 <= k < |xs| => Repr(xs[k])), ", ") + "]"
    case JMap(es) => "{" + Join(seq(|es|, k requires 0 <= k < |es| => "'" + es[k].key + "': " + Repr(es[k].val)), ", ") + "}"
    case JNull => "None"
    case JBool(b) => if b then "True" else "False"
    case JInt(i) => IntToString(i)
  }

  /** `str()` of a truthy value is never empty. */
  lemma PyStrTruthy(v: Json)
    requires Truthy(v)
    ensures PyStr(v) != ""
  {
  }

  /** Python's `int()` on a decimal string: surrounding whitespace, an optional sign, digits. */
  function ParseInt(s: string): Option<int>
  {
    var t := Strip(s);
    if t != [] && (t[0] == '-' || t[0] == '+') then
      var v: int := DigitsValue(t[1..]);
      (if IsDigits(t[1..]) then Some(if t[0] == '-' then -v else v) else None)
    else if IsDigits(t) then Some(DigitsValue(t))
    else None
  }

  predicate IsDigits(s: string)
  {
    s != [] && forall k :: 0 <= k < |s| ==> '0' <= s[k] <= '9'
  }

  function DigitsValue(s: string): nat
  {
    if s == [] then 0 else 10 * DigitsValue(s[..|s| - 1]) + (s[|s| - 1] as int - '0' as int) % 10
  }

  /** Reading back the decimal digits of a number gives the number. */
  lemma {:induction false} DigitsRoundTrip(n: nat)
    ensures IsDigits(NatToString(n)) && DigitsValue(NatToString(n)) == n
  {
    var s := NatToString(n);
    if n >= 10 {
      DigitsRoundTrip(n / 10);
      assert s[..|s| - 1] == NatToString(n / 10);
    }
  }

  /** Python's `int(v)`: None where it raises TypeError or ValueError. */
  function PyInt(v: Json): Option<int>
  {
    match v
    case JInt(i) => Some(i)
    case JBool(b) => Some(if b then 1 else 0)
    case JStr(s) => ParseInt(s)
    case _ => None
  }

  /** `int(str(n))` is `n`. */
  lemma PyIntRoundTrip(n: nat)
    ensures PyInt(JStr(NatToString(n))) == Some(n)
  {
    var s := NatToString(n);
    DigitsRoundTrip(n);
    assert NoSpaceEnds(s);
    StripKeeps(s);
  }

  /** `str(d.get(key) or default)` */
  function StrOr(es: seq<Field>, key: string, default: string): string
  {
    var v := Get(es, key);
    if Truthy(v) then PyStr(v) else default
  }

  /** `x or {}` followed by a dict method: the entries, or None when `x` is a truthy
      non-dict (the source would then fail with AttributeError). */
  function DictOrEmpty(v: Json): Option<seq<Field>>
  {
    if v.JMap? then Some(v.entries)
    else if !Truthy(v) then Some([])
    else None
  }

  /** A finite measure of a value, for recursion over nested documents. */
  function Size(v: Json): nat
  {
    match v
    case JList(xs) => 1 + ItemsSize(xs)
    case JMap(es) => 1 + EntriesSize(es)
    case _ => 1
  }

  function ItemsSize(xs: seq<Json>): nat
  {
    if xs == [] then 0 else Size(xs[0]) + ItemsSize(xs[1..])
  }

  function EntriesSize(es: seq<Field>): nat
  {
    if es == [] then 0 else Size(es[0].val) + EntriesSize(es[1..])
  }
}
