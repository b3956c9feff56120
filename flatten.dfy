/** `flatten_data` of the profile collector (collect_profiles.py:18-27): a
    nested record becomes a flat mapping from dot-joined key paths to its
    string and integer leaves; every other kind of leaf is dropped. */
module Flatten {
  import opened Wrappers
  import opened Text
  import opened OrderedDict

  /** A JSON-like value as the management SDK's `serialize()` and `as_dict()`
      return it. A float is kept only as the text Python would print. */
  datatype Value =
    | Str(s: string)
    | Int(i: int)
    | Bool(b: bool)
    | Float(text: string)
    | Null
    | List(items: seq<Value>)
    | Dict(entries: seq<(string, Value)>)

  /** A record: an insertion-ordered mapping from keys to values. */
  type Record = seq<(string, Value)>

  /** A leaf `flatten_data` keeps. */
  datatype Scalar = SStr(s: string) | SInt(i: int)

  /** The flattened record. */
  type Flat = Dict<string, Scalar>

  /** `type(v) in [str, int]`: exactly `str` or `int`, so a boolean (whose type
      is `bool`) is not kept. */
  function AsScalar(v: Value): (r: Option<Scalar>)
    ensures r.Some? <==> v.Str? || v.Int?
    ensures v.Str? ==> r == Some(SStr(v.s))
    ensures v.Int? ==> r == Some(SInt(v.i))
  {
    match v
    case Str(s) => Some(SStr(s))
    case Int(i) => Some(SInt(i))
    case _ => None
  }

  /** The inner `flatten(x, name)`, from the `i`-th entry of `x` on: a kept
      leaf is stored under `prefix + name + [k]` joined by dots, a `dict` value
      is flattened under `name + [k]`, and anything else is skipped. `out` is
      the enclosing `output` dictionary. */
  function Emit(out: Flat, prefix: seq<string>, name: seq<string>, x: Record, i: nat): Flat
    decreases Dict(x), |x| - i
  {
    if i >= |x| then out
    else
      var (k, v) := x[i];
      var out' :=
        match v
        case Str(s) => Put(out, Join('.', prefix + name + [k]), SStr(s))
        case Int(n) => Put(out, Join('.', prefix + name + [k]), SInt(n))
        case Dict(inner) => Emit(out, prefix, name + [k], inner, 0)
        case _ => out;
      Emit(out', prefix, name, x, i + 1)
  }

  /** `flatten_data(d, prefix)`. */
  function FlattenData(d: Record, prefix: seq<string>): Flat
  {
    Emit([], prefix, [], d, 0)
  }

  // ---- A reference description: the kept leaves, in visiting order ----

  /** Every kept leaf of `x` from entry `i` on, with its full key, in the
      order `flatten` visits them (repeated keys included). */
  function Leaves(prefix: seq<string>, name: seq<string>, x: Record, i: nat): seq<(string, Scalar)>
    decreases Dict(x), |x| - i
  {
    if i >= |x| then []
    else EntryLeaves(prefix, name, x[i].0, x[i].1) + Leaves(prefix, name, x, i + 1)
  }

  /** The kept leaves under the entry `(k, v)`. */
  function EntryLeaves(prefix: seq<string>, name: seq<string>, k: string, v: Value): seq<(string, Scalar)>
    decreases v, if v.Dict? then |v.entries| + 1 else 0
  {
    match v
    case Str(s) => [(Join('.', prefix + name + [k]), SStr(s))]
    case Int(n) => [(Join('.', prefix + name + [k]), SInt(n))]
    case Dict(inner) => Leaves(prefix, name + [k], inner, 0)
    case _ => []
  }

  /** `d[k] = v` for each pair, in order. */
  function PutAll(out: Flat, leaves: seq<(string, Scalar)>): Flat
    decreases |leaves|
  {
    if leaves == [] then out else PutAll(Put(out, leaves[0].0, leaves[0].1), leaves[1..])
  }

  /** The leaf at `path` below `v`: the empty path names `v` itself when it is
      kept, and a longer path steps into a `dict` through one of its keys. */
  ghost predicate At(v: Value, path: seq<string>, leaf: Scalar)
    decreases |path|
  {
    if path == [] then AsScalar(v) == Some(leaf)
    else v.Dict? && exists j :: 0 <= j < |v.entries| && v.entries[j].0 == path[0] && At(v.entries[j].1, path[1..], leaf)
  }

  /** The value stored last under `key` by `leaves`. */
  function LastValue(leaves: seq<(string, Scalar)>, key: string): Option<Scalar>
  {
    if leaves == [] then None
    else if leaves[|leaves| - 1].0 == key then Some(leaves[|leaves| - 1].1)
    else LastValue(leaves[..|leaves| - 1], key)
  }

  lemma {:induction false} PutAllAppend(out: Flat, a: seq<(string, Scalar)>, b: seq<(string, Scalar)>)
    ensures PutAll(out, a + b) == PutAll(PutAll(out, a), b)
    decreases |a|
  {
    if a != [] {
      assert (a + b)[0] == a[0];
      assert (a + b)[1..] == a[1..] + b;
      PutAllAppend(Put(out, a[0].0, a[0].1), a[1..], b);
    } else {
      assert a + b == b;
    }
  }

  /** Threading `output` through the recursion stores exactly the kept leaves,
      in visiting order. */
  lemma {:induction false} EmitLeaves(out: Flat, prefix: seq<string>, name: seq<string>, x: Record, i: nat)
    ensures Emit(out, prefix, name, x, i) == PutAll(out, Leaves(prefix, name, x, i))
    decreases Dict(x), |x| - i
  {
    if i < |x| {
      var (k, v) := x[i];
      var rest := Leaves(prefix, name, x, i + 1);
      match v {
        case Str(s) =>
          var e := (Join('.', prefix + name + [k]), SStr(s));
          EmitLeaves(Put(out, e.0, e.1), prefix, name, x, i + 1);
          assert ([e] + rest)[1..] == rest;
        case Int(n) =>
          var e := (Join('.', prefix + name + [k]), SInt(n));
          EmitLeaves(Put(out, e.0, e.1), prefix, name, x, i + 1);
          assert ([e] + rest)[1..] == rest;
        case Dict(inner) =>
          EmitLeaves(out, prefix, name + [k], inner, 0);
          var out' := Emit(out, prefix, name + [k], inner, 0);
          EmitLeaves(out', prefix, name, x, i + 1);
          PutAllAppend(out, Leaves(prefix, name + [k], inner, 0), rest);
        case Bool(_) =>
          EmitLeaves(out, prefix, name, x, i + 1);
          assert [] + rest == rest;
        case Float(_) =>
          EmitLeaves(out, prefix, name, x, i + 1);
          assert [] + rest == rest;
        case Null =>
          EmitLeaves(out, prefix, name, x, i + 1);
          assert [] + rest == rest;
        case List(_) =>
          EmitLeaves(out, prefix, name, x, i + 1);
          assert [] + rest == rest;
      }
    }
  }

  /** A kept leaf of `x` is exactly a string or integer reached from one of the
      entries from `i` on through nested `dict`s, filed under the prefix, the
      current name, that entry's key and the path. */
  lemma {:induction false} LeavesMembers(prefix: seq<string>, name: seq<string>, x: Record, i: nat,
                                          key: string, leaf: Scalar)
    ensures (key, leaf) in Leaves(prefix, name, x, i) <==>
      exists j, path :: i <= j < |x| && At(x[j].1, path, leaf) && key == Join('.', prefix + name + [x[j].0] + path)
    decreases Dict(x), |x| - i
  {
    if i < |x| {
      var here := EntryLeaves(prefix, name, x[i].0, x[i].1);
      var rest := Leaves(prefix, name, x, i + 1);
      LeavesMembers(prefix, name, x, i + 1, key, leaf);
      EntryLeavesMembers(prefix, name, x[i].0, x[i].1, key, leaf);
      if exists j, path :: i <= j < |x| && At(x[j].1, path, leaf) && key == Join('.', prefix + name + [x[j].0] + path) {
        var j, path :| i <= j < |x| && At(x[j].1, path, leaf) && key == Join('.', prefix + name + [x[j].0] + path);
        if j == i {
          assert (key, leaf) in here;
        } else {
          assert (key, leaf) in rest;
        }
      }
    }
  }

  /** The kept leaves under one entry `(k, v)` are the leaves reached from `v`. */
  lemma {:induction false} EntryLeavesMembers(prefix: seq<string>, name: seq<string>, k: string, v: Value,
                                               key: string, leaf: Scalar)
    ensures (key, leaf) in EntryLeaves(prefix, name, k, v)
      <==> exists path :: At(v, path, leaf) && key == Join('.', prefix + name + [k] + path)
    decreases v, if v.Dict? then |v.entries| + 2 else 0
  {
    if v.Dict? {
      DictLeavesMembers(prefix, name, k, v.entries, key, leaf);
    } else {
      var base := prefix + name + [k];
      assert base + [] == base;
      forall path | At(v, path, leaf) ensures path == [] {
      }
    }
  }

  /** The dictionary case of `EntryLeavesMembers`: a path into a nested `dict`
      starts with one of its keys. */
  lemma {:induction false} DictLeavesMembers(prefix: seq<string>, name: seq<string>, k: string,
                                              inner: Record, key: string, leaf: Scalar)
    ensures (key, leaf) in EntryLeaves(prefix, name, k, Dict(inner))
      <==> exists path :: At(Dict(inner), path, leaf) && key == Join('.', prefix + name + [k] + path)
    decreases Dict(inner), |inner| + 1
  {
    var base := prefix + name + [k];
    assert EntryLeaves(prefix, name, k, Dict(inner)) == Leaves(prefix, name + [k], inner, 0);
    LeavesMembers(prefix, name + [k], inner, 0, key, leaf);
    forall j, path | 0 <= j < |inner| && At(inner[j].1, path, leaf)
                     && key == Join('.', prefix + (name + [k]) + [inner[j].0] + path)
      ensures At(Dict(inner), [inner[j].0] + path, leaf) && key == Join('.', base + ([inner[j].0] + path))
    {
      StepInto(prefix, name, k, inner, j, path, leaf);
    }
    forall path | At(Dict(inner), path, leaf) && key == Join('.', base + path)
      ensures exists j :: 0 <= j < |inner| && At(inner[j].1, path[1..], leaf)
                     && key == Join('.', prefix + (name + [k]) + [inner[j].0] + path[1..])
    {
      var j :| 0 <= j < |inner| && inner[j].0 == path[0] && At(inner[j].1, path[1..], leaf);
      StepInto(prefix, name, k, inner, j, path[1..], leaf);
      assert [inner[j].0] + path[1..] == path;
    }
  }

  /** A path below the `j`-th entry of a nested `dict`, extended by that
      entry's key, is a path below the `dict`, filed under the same key. */
  lemma StepInto(prefix: seq<string>, name: seq<string>, k: string, inner: Record, j: nat,
                 path: seq<string>, leaf: Scalar)
    requires j < |inner| && At(inner[j].1, path, leaf)
    ensures At(Dict(inner), [inner[j].0] + path, leaf)
    ensures prefix + (name + [k]) + [inner[j].0] + path == prefix + name + [k] + ([inner[j].0] + path)
  {
    var full := [inner[j].0] + path;
    assert full[0] == inner[j].0 && full[1..] == path;
  }

  lemma PutAllSnoc(out: Flat, a: seq<(string, Scalar)>, e: (string, Scalar))
    ensures PutAll(out, a + [e]) == Put(PutAll(out, a), e.0, e.1)
  {
    PutAllAppend(out, a, [e]);
    assert PutAll(Put(PutAll(out, a), e.0, e.1), [e][1..]) == Put(PutAll(out, a), e.0, e.1);
  }

  /** Last write wins: after storing `leaves`, a key maps to the value stored
      last under it, or to what it mapped to before when none was stored. */
  lemma {:induction false} PutAllGet(out: Flat, leaves: seq<(string, Scalar)>, key: string)
    ensures Get(PutAll(out, leaves), key)
         == (if LastValue(leaves, key).Some? then LastValue(leaves, key) else Get(out, key))
    decreases |leaves|
  {
    if leaves != [] {
      var n := |leaves| - 1;
      var e := leaves[n];
      assert leaves == leaves[..n] + [e];
      PutAllSnoc(out, leaves[..n], e);
      PutAllGet(out, leaves[..n], key);
      PutGet(PutAll(out, leaves[..n]), e.0, e.1, key);
    }
  }

  lemma {:induction false} PutAllUnique(out: Flat, leaves: seq<(string, Scalar)>)
    requires UniqueKeys(out)
    ensures UniqueKeys(PutAll(out, leaves))
    decreases |leaves|
  {
    if leaves != [] {
      PutUnique(out, leaves[0].0, leaves[0].1);
      PutAllUnique(Put(out, leaves[0].0, leaves[0].1), leaves[1..]);
    }
  }

  /** Storing leaves into an empty record leaves it empty only when there
      were none. */
  lemma {:induction false} PutAllEmpty(out: Flat, leaves: seq<(string, Scalar)>)
    ensures PutAll(out, leaves) == [] <==> out == [] && leaves == []
    decreases |leaves|
  {
    if leaves != [] {
      var out' := Put(out, leaves[0].0, leaves[0].1);
      PutGet(out, leaves[0].0, leaves[0].1, leaves[0].0);
      PutAllEmpty(out', leaves[1..]);
    }
  }

  /** The last value stored under `key` is one that was stored under it, and
      there is one as soon as anything was. */
  lemma {:induction false} LastValueMembers(leaves: seq<(string, Scalar)>, key: string)
    ensures LastValue(leaves, key).Some? ==> (key, LastValue(leaves, key).value) in leaves
    ensures (exists i :: 0 <= i < |leaves| && leaves[i].0 == key) ==> LastValue(leaves, key).Some?
  {
    if leaves != [] {
      var n := |leaves| - 1;
      LastValueMembers(leaves[..n], key);
      assert forall i :: 0 <= i < n ==> leaves[..n][i] == leaves[i];
    }
  }

  // ---- What `flatten_data` returns ----

  /** Every key of `flatten_data(d, prefix)` holds the last kept leaf filed
      under it, and no key occurs twice. */
  lemma FlattenDataLast(d: Record, prefix: seq<string>, key: string)
    ensures Get(FlattenData(d, prefix), key) == LastValue(Leaves(prefix, [], d, 0), key)
    ensures UniqueKeys(FlattenData(d, prefix))
  {
    EmitLeaves([], prefix, [], d, 0);
    PutAllGet([], Leaves(prefix, [], d, 0), key);
    PutAllUnique([], Leaves(prefix, [], d, 0));
  }

  /** `flatten_data(d, prefix)` maps `key` to `leaf` only when `leaf` is a
      string or integer reached from a top-level entry of `d` along `path`
      through nested `dict`s, and `key` is the prefix, that entry's key and
      the path joined by dots; every such key is present. */
  lemma FlattenDataMembers(d: Record, prefix: seq<string>, key: string, leaf: Scalar)
    ensures Get(FlattenData(d, prefix), key) == Some(leaf) ==>
      exists j, path :: 0 <= j < |d| && At(d[j].1, path, leaf) && key == Join('.', prefix + [d[j].0] + path)
    ensures (exists j, path :: 0 <= j < |d| && At(d[j].1, path, leaf) && key == Join('.', prefix + [d[j].0] + path))
      ==> Get(FlattenData(d, prefix), key).Some?
  {
    var leaves := Leaves(prefix, [], d, 0);
    FlattenDataLast(d, prefix, key);
    LastValueMembers(leaves, key);
    LeavesMembers(prefix, [], d, 0, key, leaf);
    assert prefix + [] == prefix;
    if exists j, path :: 0 <= j < |d| && At(d[j].1, path, leaf) && key == Join('.', prefix + [d[j].0] + path) {
      assert (key, leaf) in leaves;
      var i :| 0 <= i < |leaves| && leaves[i] == (key, leaf);
      assert leaves[i].0 == key;
    }
  }

  /** With a non-empty prefix, every key starts with the prefix joined by
      dots and one more dot. */
  lemma FlattenDataPrefix(d: Record, prefix: seq<string>, key: string)
    requires prefix != []
    requires Get(FlattenData(d, prefix), key).Some?
    ensures |key| > |Join('.', prefix)|
    ensures key[..|Join('.', prefix)| + 1] == Join('.', prefix) + "."
  {
    var tail := KeyPath(d, prefix, key);
    JoinHead(prefix, tail);
  }

  /** The path below the prefix that a key of `flatten_data(d, prefix)` was
      filed under. */
  lemma KeyPath(d: Record, prefix: seq<string>, key: string) returns (tail: seq<string>)
    requires Get(FlattenData(d, prefix), key).Some?
    ensures tail != [] && key == Join('.', prefix + tail)
  {
    var leaf := Get(FlattenData(d, prefix), key).value;
    FlattenDataMembers(d, prefix, key, leaf);
    var j, path :| 0 <= j < |d| && At(d[j].1, path, leaf) && key == Join('.', prefix + [d[j].0] + path);
    tail := [d[j].0] + path;
    assert prefix + [d[j].0] + path == prefix + tail;
  }

  lemma JoinHead(prefix: seq<string>, tail: seq<string>)
    requires prefix != [] && tail != []
    ensures |Join('.', prefix + tail)| > |Join('.', prefix)|
    ensures Join('.', prefix + tail)[..|Join('.', prefix)| + 1] == Join('.', prefix) + "."
  {
    JoinAppend('.', prefix, tail);
    var head := Join('.', prefix) + ".";
    assert Join('.', prefix + tail) == head + Join('.', tail);
    assert Join('.', prefix + tail)[..|head|] == head;
  }

  /** `flatten_data` returns an empty record exactly when `d` holds no string
      or integer leaf, however deep. */
  lemma FlattenDataEmpty(d: Record, prefix: seq<string>)
    ensures FlattenData(d, prefix) == [] <==> Leaves(prefix, [], d, 0) == []
  {
    EmitLeaves([], prefix, [], d, 0);
    PutAllEmpty([], Leaves(prefix, [], d, 0));
  }

  /** A record with one nested `dict` holding an integer, a string, a float,
      a list and a boolean. */
  function ExampleRecord(): Record
  {
    [("a", Dict([("b", Int(1)), ("c", Str("x")), ("d", Float("1.5")),
                 ("e", List([Int(1), Int(2)])), ("f", Bool(true))]))]
  }

  lemma ExampleLeaves()
    ensures Leaves(["account"], [], ExampleRecord(), 0) == [("account.a.b", SInt(1)), ("account.a.c", SStr("x"))]
  {
    var d := ExampleRecord();
    var inner := d[0].1.entries;
    var account: seq<string> := ["account"];
    assert Join('.', ["account", "a", "b"]) == "account.a.b";
    assert Join('.', ["account", "a", "c"]) == "account.a.c";
    assert account + ["a"] + ["b"] == ["account", "a", "b"];
    assert account + ["a"] + ["c"] == ["account", "a", "c"];
    assert Leaves(account, ["a"], inner, 2) == [];
    assert Leaves(account, ["a"], inner, 1) == [("account.a.c", SStr("x"))];
    assert Leaves(account, [], d, 1) == [];
    assert [] + ["a"] == ["a"];
  }

  /** Nested keys are dot-joined under the prefix; the float, the list and
      the boolean are dropped. */
  lemma FlattenDataExample()
    ensures FlattenData(ExampleRecord(), ["account"]) == [("account.a.b", SInt(1)), ("account.a.c", SStr("x"))]
  {
    var leaves := [("account.a.b", SInt(1)), ("account.a.c", SStr("x"))];
    ExampleLeaves();
    EmitLeaves([], ["account"], [], ExampleRecord(), 0);
    assert PutAll([], leaves) == PutAll([("account.a.b", SInt(1))], leaves[1..]);
  }
}
