/**
 * The tool registry: a dictionary from normalised tool names to tools. Registration rejects
 * empty and taken names, lookup normalises the name it is given, the listing is in the
 * order of the normalised names and execution looks the tool up and hands the call over.
 */
module ToolRegistry {
  import opened Base
  import opened Text
  import opened Json
  import opened Tools

  /** `name.strip().lower()` */
  function NameKey(name: string): (r: string)
    ensures |r| <= |name|
    ensures forall i :: 0 <= i < |r| ==> !('A' <= r[i] <= 'Z')
  {
    Lower(Strip(name))
  }

  /** A normalised name normalises to itself. */
  lemma NameKeyIdempotent(name: string)
    ensures NameKey(NameKey(name)) == NameKey(name)
  {
    StripIdempotent(name);
    LowerStrip(Strip(name));
    LowerIdempotent(Strip(Strip(name)));
  }

  /** Leading whitespace and the letter case of a name do not matter to the registry. */
  lemma NameKeyVariants(name: string, pad: string)
    requires forall k :: 0 <= k < |pad| ==> IsSpace(pad[k])
    ensures NameKey(pad + Lower(name)) == NameKey(name)
    ensures NameKey(Lower(name) + pad) == NameKey(name)
  {
    StripLeadingSpace(pad, Lower(name));
    LowerStrip(name);
    LowerIdempotent(Strip(name));
    StripTrailingSpace(Lower(name), pad);
  }

  /** `register`: an empty normalised name and a taken one are refused. */
  function Registered(tools: map<string, Tool>, tool: Tool): (r: Result<map<string, Tool>, ToolError>)
    ensures r.Err? <==> NameKey(tool.name) == "" || NameKey(tool.name) in tools
    ensures r.Ok? ==> NameKey(tool.name) in r.value && r.value[NameKey(tool.name)] == tool
    ensures r.Ok? ==> forall k :: k != NameKey(tool.name) ==>
      (k in r.value <==> k in tools) && (k in tools ==> r.value[k] == tools[k])
  {
    var name := NameKey(tool.name);
    if name == "" then Err(ValidationError("Tool name cannot be empty"))
    else if name in tools then Err(ValidationError("Tool '" + name + "' already registered"))
    else Ok(tools[name := tool])
  }

  /** `get`: the tool under the normalised name; the error quotes the name as given. */
  function Found(tools: map<string, Tool>, name: string): (r: Result<Tool, ToolError>)
    ensures r.Ok? <==> NameKey(name) in tools
    ensures r.Ok? ==> r.value == tools[NameKey(name)]
    ensures r.Err? ==> r.error == ValidationError("Tool '" + name + "' is not registered")
  {
    var key := NameKey(name);
    if key in tools then Ok(tools[key]) else Err(ValidationError("Tool '" + name + "' is not registered"))
  }

  /** A registration fails exactly for an empty or a taken name. */
  lemma RegisterRefuses(tools: map<string, Tool>, tool: Tool)
    ensures Registered(tools, tool).Err? <==> NameKey(tool.name) == "" || NameKey(tool.name) in tools
    ensures Registered(tools, tool).Err? ==> Registered(tools, tool).error.ValidationError?
  {
  }

  /** After a registration, any name with the same normalised form finds the tool, the
      normalised form itself among them, and every other name finds what it found before. */
  lemma RegisterThenGet(tools: map<string, Tool>, tool: Tool, name: string)
    requires Registered(tools, tool).Ok?
    ensures var m := Registered(tools, tool).value;
      (NameKey(name) == NameKey(tool.name) ==> Found(m, name) == Ok(tool))
      && Found(m, NameKey(tool.name)) == Ok(tool)
      && (NameKey(name) != NameKey(tool.name) ==> Found(m, name) == Found(tools, name))
  {
    NameKeyIdempotent(tool.name);
  }

  /** A second registration under the same normalised name is refused. */
  lemma RegisterTwice(tools: map<string, Tool>, tool: Tool, other: Tool)
    requires Registered(tools, tool).Ok? && NameKey(other.name) == NameKey(tool.name)
    ensures Registered(Registered(tools, tool).value, other) == Err(ValidationError("Tool '" + NameKey(tool.name) + "' already registered"))
  {
  }

  /** Every key of a registry built by registrations is a normalised, non-empty name. */
  predicate KeysNormal(tools: map<string, Tool>)
  {
    forall k :: k in tools ==> k != "" && NameKey(k) == k
  }

  lemma RegisterKeepsKeysNormal(tools: map<string, Tool>, tool: Tool)
    requires KeysNormal(tools) && Registered(tools, tool).Ok?
    ensures KeysNormal(Registered(tools, tool).value)
  {
    NameKeyIdempotent(tool.name);
  }

  // Python's ordering of strings: by code points, a proper prefix first.

  predicate StrLess(a: string, b: string)
  {
    if a == [] then b != []
    else b != [] && (a[0] < b[0] || (a[0] == b[0] && StrLess(a[1..], b[1..])))
  }

  lemma {:induction false} StrLessIrreflexive(a: string)
    ensures !StrLess(a, a)
  {
    if a != [] {
      StrLessIrreflexive(a[1..]);
    }
  }

  lemma {:induction false} StrLessTransitive(a: string, b: string, c: string)
    requires StrLess(a, b) && StrLess(b, c)
    ensures StrLess(a, c)
  {
    if a != [] && a[0] == b[0] && b[0] == c[0] {
      StrLessTransitive(a[1..], b[1..], c[1..]);
    }
  }

  lemma {:induction false} StrLessTotal(a: string, b: string)
    requires a != b
    ensures StrLess(a, b) || StrLess(b, a)
  {
    if a != [] && b != [] && a[0] == b[0] {
      assert a == [a[0]] + a[1..] && b == [b[0]] + b[1..];
      StrLessTotal(a[1..], b[1..]);
    }
  }

  predicate StrictlySorted(names: seq<string>)
  {
    forall i, j :: 0 <= i < j < |names| ==> StrLess(names[i], names[j])
  }

  predicate IsLeast(m: string, names: set<string>)
  {
    m in names && forall y :: y in names && y != m ==> StrLess(m, y)
  }

  /** A non-empty set of names has a least one. */
  lemma {:induction false} LeastExists(names: set<string>)
    requires names != {}
    ensures exists m :: IsLeast(m, names)
    decreases |names|
  {
    var x :| x in names;
    var rest := names - {x};
    if rest == {} {
      assert names == {x};
      assert IsLeast(x, names);
    } else {
      LeastExists(rest);
      var m :| IsLeast(m, rest);
      StrLessTotal(x, m);
      if StrLess(x, m) {
        forall y | y in names && y != x
          ensures StrLess(x, y)
        {
          if y != m {
            StrLessTransitive(x, m, y);
          }
        }
        assert IsLeast(x, names);
      } else {
        assert IsLeast(m, names);
      }
    }
  }

  /** The least name is unique. */
  lemma LeastUnique(m: string, m': string, names: set<string>)
    requires IsLeast(m, names) && IsLeast(m', names)
    ensures m == m'
  {
    if m != m' {
      StrLessTransitive(m, m', m);
      StrLessIrreflexive(m);
    }
  }

  /** `sorted(names)` */
  ghost function SortedNames(names: set<string>): seq<string>
    decreases |names|
  {
    if names == {} then []
    else
      LeastExists(names);
      var m :| IsLeast(m, names);
      [m] + SortedNames(names - {m})
  }

  /** The sorted names are the set's members, each once, in increasing order. */
  lemma {:induction false} SortedNamesSpec(names: set<string>)
    ensures StrictlySorted(SortedNames(names))
    ensures forall x :: x in SortedNames(names) <==> x in names
    ensures |SortedNames(names)| == |names|
    decreases |names|
  {
    if names != {} {
      LeastExists(names);
      var m :| IsLeast(m, names);
      forall m' | IsLeast(m', names)
        ensures m' == m
      {
        LeastUnique(m, m', names);
      }
      var rest := SortedNames(names - {m});
      SortedNamesSpec(names - {m});
      assert SortedNames(names) == [m] + rest;
      forall i, j | 0 <= i < j < |[m] + rest|
        ensures StrLess(([m] + rest)[i], ([m] + rest)[j])
      {
        if i == 0 {
          assert rest[j - 1] in names - {m};
        }
      }
    }
  }

  /** Two increasing sequences with the same members are the same sequence. */
  lemma {:induction false} SortedUnique(a: seq<string>, b: seq<string>)
    requires StrictlySorted(a) && StrictlySorted(b)
    requires forall x :: x in a <==> x in b
    ensures a == b
    decreases |a|
  {
    if b != [] {
      assert b[0] in a;
    }
    if a != [] {
      assert a[0] in b;
      assert b != [] && b[0] in a;
      if a[0] != b[0] {
        var i :| 0 <= i < |b| && b[i] == a[0];
        var j :| 0 <= j < |a| && a[j] == b[0];
        assert StrLess(b[0], a[0]) && StrLess(a[0], b[0]);
        StrLessTransitive(a[0], b[0], a[0]);
        StrLessIrreflexive(a[0]);
      }
      forall x
        ensures x in a[1..] <==> x in b[1..]
      {
        if x in a[1..] {
          var k :| 1 <= k < |a| && a[k] == x;
          assert StrLess(a[0], x);
          StrLessIrreflexive(x);
          assert x in a;
          var i :| 0 <= i < |b| && b[i] == x;
          assert i != 0 && b[1..][i - 1] == x;
        }
        if x in b[1..] {
          var k :| 1 <= k < |b| && b[k] == x;
          assert StrLess(b[0], x);
          StrLessIrreflexive(x);
          assert x in b;
          var i :| 0 <= i < |a| && a[i] == x;
          assert i != 0 && a[1..][i - 1] == x;
        }
      }
      SortedUnique(a[1..], b[1..]);
      assert a == [a[0]] + a[1..] && b == [b[0]] + b[1..];
    }
  }

  /** Part way through `sorted`: the names taken so far are increasing, below every name still
      to take, and together with those they are the whole set. */
  ghost predicate Selection(names: seq<string>, rest: set<string>, keys: set<string>)
  {
    rest <= keys
    && StrictlySorted(names)
    && (forall x :: x in names <==> x in keys && x !in rest)
    && (forall i, y :: 0 <= i < |names| && y in rest ==> StrLess(names[i], y))
  }

  lemma SelectionStep(names: seq<string>, rest: set<string>, keys: set<string>, m: string)
    requires Selection(names, rest, keys) && IsLeast(m, rest)
    ensures Selection(names + [m], rest - {m}, keys)
  {
    var names' := names + [m];
    forall i, j | 0 <= i < j < |names'|
      ensures StrLess(names'[i], names'[j])
    {
      if j == |names| {
        assert names'[i] == names[i];
      }
    }
  }

  /** One entry of `list_tools`. */
  function Entry(tool: Tool): Json
  {
    JMap([Field("name", JStr(tool.name)), Field("description", JStr(tool.description)), Field("input_schema", tool.inputSchema)])
  }

  /** `list_tools`: one entry per tool, in the order of the registry's keys. */
  ghost function Listed(tools: map<string, Tool>): (r: seq<Json>)
    ensures |r| == |tools|
  {
    var names := SortedNames(tools.Keys);
    SortedNamesSpec(tools.Keys);
    seq(|names|, i requires 0 <= i < |names| => Entry(tools[names[i]]))
  }

  /** Entries taken for all keys in increasing order are the listing. */
  lemma ListedFrom(tools: map<string, Tool>, names: seq<string>, result: seq<Json>)
    requires Selection(names, {}, tools.Keys)
    requires |result| == |names|
    requires forall i :: 0 <= i < |names| ==> names[i] in tools && result[i] == Entry(tools[names[i]])
    ensures result == Listed(tools)
  {
    SortedNamesSpec(tools.Keys);
    SortedUnique(names, SortedNames(tools.Keys));
  }

  /** The listing holds one entry per tool, and the name of the i-th is the name of the tool
      under the i-th key in increasing order. */
  lemma ListedSorted(tools: map<string, Tool>)
    ensures var names := SortedNames(tools.Keys);
      |Listed(tools)| == |tools| && StrictlySorted(names) && (forall k :: k in names <==> k in tools)
      && forall i :: 0 <= i < |names| ==> Listed(tools)[i] == Entry(tools[names[i]])
  {
    SortedNamesSpec(tools.Keys);
  }

  /** `execute`: the tool's own answer, or the lookup's error. */
  function Executed(tools: map<string, Tool>, name: string, input: seq<Field>, ctx: ToolContext): (r: Result<ToolResult, ToolError>)
    ensures NameKey(name) in tools ==> r == tools[NameKey(name)].execute(input, ctx)
    ensures NameKey(name) !in tools ==> r == Err(ValidationError("Tool '" + name + "' is not registered"))
  {
    match Found(tools, name)
    case Ok(tool) => tool.execute(input, ctx)
    case Err(e) => Err(e)
  }

  /** A registered tool runs under any variant of its name; an unknown name is refused before
      any tool runs. */
  lemma ExecuteDelegates(tools: map<string, Tool>, tool: Tool, name: string, input: seq<Field>, ctx: ToolContext)
    requires Registered(tools, tool).Ok?
    ensures var m := Registered(tools, tool).value;
      (NameKey(name) == NameKey(tool.name) ==> Executed(m, name, input, ctx) == tool.execute(input, ctx))
      && (NameKey(name) !in m ==> Executed(m, name, input, ctx) == Err(ValidationError("Tool '" + name + "' is not registered")))
  {
    RegisterThenGet(tools, tool, name);
  }

  /** `ToolRegistry` */
  class Registry {
    var tools: map<string, Tool>

    constructor()
      ensures tools == map[]
    {
      tools := map[];
    }

    /** `register`: the dictionary changes only on success. */
    method Register(tool: Tool) returns (r: Result<(), ToolError>)
      modifies this
      ensures Registered(old(tools), tool).Ok? ==> r == Ok(()) && tools == Registered(old(tools), tool).value
      ensures Registered(old(tools), tool).Err? ==> r == Err(Registered(old(tools), tool).error) && tools == old(tools)
    {
      var name := Lower(Strip(tool.name));
      if name == "" {
        return Err(ValidationError("Tool name cannot be empty"));
      }
      if name in tools {
        return Err(ValidationError("Tool '" + name + "' already registered"));
      }
      tools := tools[name := tool];
      return Ok(());
    }

    /** `get` */
    function Get(name: string): Result<Tool, ToolError>
      reads this
    {
      Found(tools, name)
    }

    /** `list_tools`: the names are taken in increasing order, each once. */
    method ListTools() returns (result: seq<Json>)
      ensures result == Listed(tools)
    {
      var all := tools;
      var rest := all.Keys;
      ghost var names: seq<string> := [];
      result := [];
      while rest != {}
        invariant Selection(names, rest, all.Keys)
        invariant |result| == |names|
        invariant forall i :: 0 <= i < |names| ==> names[i] in all && result[i] == Entry(all[names[i]])
        decreases |rest|
      {
        LeastExists(rest);
        var name :| IsLeast(name, rest);
        SelectionStep(names, rest, all.Keys, name);
        names := names + [name];
        result := result + [Entry(all[name])];
        rest := rest - {name};
      }
      ListedFrom(all, names, result);
    }

    /** `execute`: `get` followed by the tool's own `execute`. */
    function Execute(name: string, input: seq<Field>, ctx: ToolContext): Result<ToolResult, ToolError>
      reads this
    {
      Executed(tools, name, input, ctx)
    }
  }
}
