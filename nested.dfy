/** The nested configuration helpers of lmd/helpers.py: `merge_nested_dict`,
    `remove_recursively`, the strip-then-merge composition at the end of
    `parse_config`, and `posixpath2str`. A configuration is a JSON-like tree;
    each helper is a function from the old tree to the new one. */
module NestedDict {
  import opened Wrappers
  import Paths

  /** A JSON leaf, tagged with its type: a string, an int, a float (a real number here),
      a boolean or null. */
  datatype Scalar = Str(s: string) | Int(i: int) | Float(x: real) | Bool(b: bool) | Null

  /** A configuration value: a JSON leaf, a `pathlib.Path`, a list or a dict. */
  datatype Val = Leaf(leaf: Scalar) | PathVal(path: Paths.Path) | List(items: seq<Val>) | Dict(fields: Fields)

  type Fields = map<string, Val>

  /** The number a numeric leaf stands for: Python's `bool` is a subclass of `int`. */
  function NumValue(x: Scalar): real
    requires x.Int? || x.Float? || x.Bool?
  {
    match x
    case Int(i) => i as real
    case Float(f) => f
    case Bool(b) => if b then 1.0 else 0.0
  }

  /** Python's `==` on two leaves: numbers (bools included) compare by value across
      types, a string equals only the same string, and None only None. */
  predicate ScalarEq(x: Scalar, y: Scalar): (eq: bool)
    ensures x == y ==> eq
    ensures x.Str? || y.Str? ==> (eq <==> x == y)
    ensures x.Null? ==> (eq <==> y.Null?)
    ensures x.Int? && y.Float? ==> (eq <==> x.i as real == y.x)
    ensures x.Bool? && y.Int? ==> (eq <==> y.i == if x.b then 1 else 0)
  {
    if x.Str? || y.Str? then x.Str? && y.Str? && x.s == y.s
    else if x.Null? || y.Null? then x.Null? && y.Null?
    else NumValue(x) == NumValue(y)
  }

  /** Python's `==` on two values: lists element by element, dicts by keys and then value by
      value, paths by their components; values of different kinds are never equal. */
  predicate PyEq(u: Val, v: Val): (eq: bool)
    ensures eq ==> (u.Leaf? <==> v.Leaf?) && (u.PathVal? <==> v.PathVal?) && (u.List? <==> v.List?) && (u.Dict? <==> v.Dict?)
    ensures u.Leaf? && v.Leaf? ==> (eq <==> ScalarEq(u.leaf, v.leaf))
  {
    match u
    case Leaf(x) => v.Leaf? && ScalarEq(x, v.leaf)
    case PathVal(p) => v.PathVal? && v.path == p
    case List(xs) => v.List? && |xs| == |v.items| && forall i :: 0 <= i < |xs| ==> PyEq(xs[i], v.items[i])
    case Dict(f) => v.Dict? && f.Keys == v.fields.Keys && forall k :: k in f ==> PyEq(f[k], v.fields[k])
  }

  /** Every value equals itself. */
  lemma {:induction false} PyEqReflexive(v: Val)
    ensures PyEq(v, v)
  {
    match v
    case Leaf(_) =>
    case PathVal(_) =>
    case List(xs) =>
      forall i | 0 <= i < |xs|
        ensures PyEq(xs[i], xs[i])
      {
        PyEqReflexive(xs[i]);
      }
    case Dict(f) =>
      forall k | k in f
        ensures PyEq(f[k], f[k])
      {
        PyEqReflexive(f[k]);
      }
  }

  /** The value reached by following `path` through nested dicts, if any. */
  function Lookup(d: Fields, path: seq<string>): Option<Val>
    requires |path| >= 1
    decreases |path|
  {
    if path[0] !in d then None
    else if |path| == 1 then Some(d[path[0]])
    else if d[path[0]].Dict? then Lookup(d[path[0]].fields, path[1..])
    else None
  }

  // ---------------------------------------------------------------- merge_nested_dict

  /** Both sides hold a dict under `k`: the merge recurses there. */
  predicate BothDicts(a: Fields, b: Fields, k: string)
  {
    k in a && k in b && a[k].Dict? && b[k].Dict?
  }

  /** The keys at this level where two values that Python finds unequal meet, and not
      both of them are dicts. */
  function Conflicts(a: Fields, b: Fields): set<string>
  {
    set k | k in a && k in b && !BothDicts(a, b, k) && !PyEq(a[k], b[k])
  }

  /** `merge_nested_dict(a, b)` under the default policy 'use_b', which is the policy
      every recursive call runs under because `conflict` is not passed down. */
  function MergeUseB(a: Fields, b: Fields): (r: Fields)
    ensures r.Keys == a.Keys + b.Keys
    decreases Dict(a)
  {
    map k | k in a.Keys + b.Keys ::
      if k in a && k in b then
        if a[k].Dict? && b[k].Dict? then Dict(MergeUseB(a[k].fields, b[k].fields))
        else if PyEq(a[k], b[k]) then a[k]
        else b[k]
      else if k in b then b[k]
      else a[k]
  }

  /** The outcome of `merge_nested_dict`: the new `a`, or the ValueError raised for a
      top-level conflict under a policy other than 'use_b' and 'use_a'. */
  datatype MergeResult = Merged(fields: Fields) | Conflict(keys: set<string>)

  /** `merge_nested_dict(a, b, conflict=conflict)`. */
  function MergeNestedDict(a: Fields, b: Fields, conflict: string): (r: MergeResult)
    ensures conflict == "use_b" ==> r == Merged(MergeUseB(a, b))
  {
    if conflict != "use_b" && conflict != "use_a" && Conflicts(a, b) != {} then
      Conflict(Conflicts(a, b))
    else
      // Only a top-level leaf conflict sees the policy; everything else, nested dicts
      // included, is merged as under 'use_b'.
      var m := MergeUseB(a, b);
      var r := map k | k in m :: if k in Conflicts(a, b) && conflict == "use_a" then a[k] else m[k];
      assert conflict != "use_a" ==> r == m by {
        if conflict != "use_a" {
          assert r.Keys == m.Keys;
          assert forall k :: k in r ==> r[k] == m[k];
        }
      }
      Merged(r)
  }

  /** Every key of `b` ends up in the result; keys only in `a`, and values Python finds equal
      to `b`'s, keep `a`'s value; keys only in `b` take `b`'s value. */
  lemma MergeKeepsKeys(a: Fields, b: Fields, conflict: string)
    requires MergeNestedDict(a, b, conflict).Merged?
    ensures MergeNestedDict(a, b, conflict).fields.Keys == a.Keys + b.Keys
    ensures forall k :: k in a && k !in b ==> MergeNestedDict(a, b, conflict).fields[k] == a[k]
    ensures forall k :: k in b && k !in a ==> MergeNestedDict(a, b, conflict).fields[k] == b[k]
    ensures forall k :: k in a && k in b && PyEq(a[k], b[k]) && !a[k].Dict? ==>
      MergeNestedDict(a, b, conflict).fields[k] == a[k]
    ensures forall k :: BothDicts(a, b, k) ==>
      MergeNestedDict(a, b, conflict).fields[k] == Dict(MergeUseB(a[k].fields, b[k].fields))
  {
  }

  /** A top-level leaf conflict follows the policy: 'use_b' takes `b`'s value, 'use_a' keeps
      `a`'s, and any other policy raises ValueError naming the key. */
  lemma MergeTopLevelConflict(a: Fields, b: Fields, conflict: string, k: string)
    requires k in Conflicts(a, b)
    ensures conflict == "use_b" ==>
      MergeNestedDict(a, b, conflict) == Merged(MergeUseB(a, b)) && MergeUseB(a, b)[k] == b[k]
    ensures conflict == "use_a" ==>
      MergeNestedDict(a, b, conflict).Merged? && MergeNestedDict(a, b, conflict).fields[k] == a[k]
    ensures conflict != "use_b" && conflict != "use_a" ==>
      MergeNestedDict(a, b, conflict).Conflict? && k in MergeNestedDict(a, b, conflict).keys
  {
  }

  /** A conflict error is raised only for an unknown policy, and every key it names is a
      real leaf conflict. */
  lemma MergeConflictOnlyForUnknownPolicy(a: Fields, b: Fields, conflict: string)
    requires MergeNestedDict(a, b, conflict).Conflict?
    ensures conflict != "use_b" && conflict != "use_a"
    ensures MergeNestedDict(a, b, conflict).keys == Conflicts(a, b) != {}
  {
  }

  /** Merging a dict into itself raises under no policy and changes nothing. */
  lemma MergeSelf(a: Fields, conflict: string)
    ensures MergeNestedDict(a, a, conflict) == Merged(a)
  {
    forall k | k in a
      ensures PyEq(a[k], a[k])
    {
      PyEqReflexive(a[k]);
    }
    assert Conflicts(a, a) == {};
    MergeUseBSelf(a);
  }

  /** The 'use_b' merge of a dict with itself is that dict, at every depth. */
  lemma {:induction false} MergeUseBSelf(a: Fields)
    ensures MergeUseB(a, a) == a
    decreases Dict(a)
  {
    var r := MergeUseB(a, a);
    forall k | k in a
      ensures r[k] == a[k]
    {
      if a[k].Dict? {
        MergeUseBSelf(a[k].fields);
      } else {
        PyEqReflexive(a[k]);
      }
    }
  }

  /** Leaves are compared as Python compares them: the string "1" and the int 1 conflict,
      while the int 1 and `true` are equal, so `a`'s 1 stays even under 'use_b'. */
  lemma MergeComparesLikePython()
    ensures MergeNestedDict(map["x" := Leaf(Str("1"))], map["x" := Leaf(Int(1))], "strict") == Conflict({"x"})
    ensures MergeNestedDict(map["x" := Leaf(Int(1))], map["x" := Leaf(Bool(true))], "use_b")
      == Merged(map["x" := Leaf(Int(1))])
  {
    var a1, b1 := map["x" := Leaf(Str("1"))], map["x" := Leaf(Int(1))];
    assert "x" in Conflicts(a1, b1);
    var a2, b2 := map["x" := Leaf(Int(1))], map["x" := Leaf(Bool(true))];
    assert PyEq(a2["x"], b2["x"]);
    assert MergeUseB(a2, b2)["x"] == Leaf(Int(1));
  }

  /** What a merge leaves where `b` holds the leaf `leaf` and `a` holds `prior`: the leaf
      itself, or `a`'s value when Python finds it equal to the leaf. */
  predicate Overlaid(merged: Option<Val>, prior: Option<Val>, leaf: Val)
  {
    merged == if prior.Some? && PyEq(prior.value, leaf) then prior else Some(leaf)
  }

  /** Below the top level `b`'s leaves always win: at the path of every leaf of `b`, at any
      depth, the merge holds that leaf, or `a`'s value there when Python finds the two equal. */
  lemma {:induction false} MergeUseBOverlay(a: Fields, b: Fields, path: seq<string>)
    requires |path| >= 1
    requires Lookup(b, path).Some? && !Lookup(b, path).value.Dict?
    ensures Overlaid(Lookup(MergeUseB(a, b), path), Lookup(a, path), Lookup(b, path).value)
    decreases |path|
  {
    var k := path[0];
    if |path| > 1 {
      assert b[k].Dict?;
      if k in a && a[k].Dict? {
        MergeUseBOverlay(a[k].fields, b[k].fields, path[1..]);
      }
    }
  }

  /** `b` holds no leaf on any proper prefix of `path`: every prefix it reaches is a dict. */
  predicate OnlyDictsAbove(b: Fields, path: seq<string>)
  {
    forall j :: 1 <= j < |path| ==> Lookup(b, path[..j]).None? || Lookup(b, path[..j]).value.Dict?
  }

  /** The merge is recursive: an entry of `a`, at any depth, that `b` does not reach (no
      entry of `b` at its path, and no leaf of `b` above it) is kept as it is. */
  lemma {:induction false} MergeUseBKeepsA(a: Fields, b: Fields, path: seq<string>)
    requires |path| >= 1 && Lookup(a, path).Some? && Lookup(b, path).None?
    requires OnlyDictsAbove(b, path)
    ensures Lookup(MergeUseB(a, b), path) == Lookup(a, path)
    decreases |path|
  {
    var k := path[0];
    if |path| > 1 && k in b {
      assert path[..1] == [k];
      assert b[k].Dict?;
      var rest := path[1..];
      forall j | 1 <= j < |rest|
        ensures Lookup(b[k].fields, rest[..j]).None? || Lookup(b[k].fields, rest[..j]).value.Dict?
      {
        assert path[..j + 1][1..] == rest[..j] && path[..j + 1][0] == k;
        assert Lookup(b, path[..j + 1]) == Lookup(b[k].fields, rest[..j]);
      }
      MergeUseBKeepsA(a[k].fields, b[k].fields, rest);
    }
  }

  /** The recursion does not pass `conflict` down: where both sides hold dicts, the merge
      under ANY policy, 'use_a' included, lets every nested leaf of `b` win over a leaf of
      `a` that Python finds different. */
  lemma NestedConflictIgnoresPolicy(a: Fields, b: Fields, conflict: string, k: string, path: seq<string>)
    requires MergeNestedDict(a, b, conflict).Merged? && BothDicts(a, b, k)
    requires |path| >= 1 && Lookup(b[k].fields, path).Some? && !Lookup(b[k].fields, path).value.Dict?
    ensures Overlaid(Lookup(MergeNestedDict(a, b, conflict).fields, [k] + path), Lookup(a[k].fields, path),
                     Lookup(b[k].fields, path).value)
  {
    var r := MergeNestedDict(a, b, conflict).fields;
    assert r[k] == Dict(MergeUseB(a[k].fields, b[k].fields));
    MergeUseBOverlay(a[k].fields, b[k].fields, path);
    assert ([k] + path)[1..] == path;
  }

  // ---------------------------------------------------------------- remove_recursively

  /** No dict reachable through nested dicts holds `key`. */
  predicate KeyFree(d: Fields, key: string)
    decreases Dict(d)
  {
    key !in d && forall k :: k in d && d[k].Dict? ==> KeyFree(d[k].fields, key)
  }

  /** `remove_recursively(d, key)`: deletes `key` from `d` and from every dict nested in it
      through dicts (dicts inside lists are not visited). */
  function RemoveRecursively(d: Fields, key: string): (r: Fields)
    ensures KeyFree(r, key)
    ensures r.Keys == d.Keys - {key}
    ensures forall k :: k in r ==> (r[k].Dict? <==> d[k].Dict?)
    ensures forall k :: k in r && !d[k].Dict? ==> r[k] == d[k]
    decreases Dict(d)
  {
    map k | k in d && k != key ::
      if d[k].Dict? then Dict(RemoveRecursively(d[k].fields, key)) else d[k]
  }

  /** Every path that avoids `key` reaches the same leaf, and the same kind of node, after
      the removal. */
  lemma {:induction false} RemovePreservesPaths(d: Fields, key: string, path: seq<string>)
    requires |path| >= 1 && key !in path
    ensures Lookup(RemoveRecursively(d, key), path).Some? <==> Lookup(d, path).Some?
    ensures Lookup(d, path).Some? ==>
      (Lookup(RemoveRecursively(d, key), path).value.Dict? <==> Lookup(d, path).value.Dict?)
    ensures Lookup(d, path).Some? && !Lookup(d, path).value.Dict? ==>
      Lookup(RemoveRecursively(d, key), path) == Lookup(d, path)
    decreases |path|
  {
    var k := path[0];
    assert k in path;
    if |path| > 1 && k in d && d[k].Dict? {
      assert key !in path[1..] by { assert forall x :: x in path[1..] ==> x in path; }
      RemovePreservesPaths(d[k].fields, key, path[1..]);
    }
  }

  /** Removing a key that is already absent at every depth changes nothing, so the removal
      is idempotent. */
  lemma {:induction false} RemoveKeyFreeUnchanged(d: Fields, key: string)
    requires KeyFree(d, key)
    ensures RemoveRecursively(d, key) == d
    decreases Dict(d)
  {
    var r := RemoveRecursively(d, key);
    forall k | k in d && d[k].Dict?
      ensures r[k] == d[k]
    {
      RemoveKeyFreeUnchanged(d[k].fields, key);
    }
    assert r.Keys == d.Keys;
  }

  // ---------------------------------------------------------------- parse_config

  const HelpKey := "__help"

  /** The end of `parse_config`: strip `__help` from the global and the local
      configuration, then merge the local one into the global one. */
  function ComposeConfig(global: Fields, local: Fields): (r: Fields)
    ensures r.Keys == (global.Keys + local.Keys) - {HelpKey}
  {
    MergeNestedDict(RemoveRecursively(global, HelpKey), RemoveRecursively(local, HelpKey), "use_b").fields
  }

  /** Merging two key-free dicts gives a key-free dict. */
  lemma {:induction false} MergeUseBKeyFree(a: Fields, b: Fields, key: string)
    requires KeyFree(a, key) && KeyFree(b, key)
    ensures KeyFree(MergeUseB(a, b), key)
    decreases Dict(a)
  {
    var r := MergeUseB(a, b);
    forall k | k in r && r[k].Dict?
      ensures KeyFree(r[k].fields, key)
    {
      if BothDicts(a, b, k) {
        MergeUseBKeyFree(a[k].fields, b[k].fields, key);
      }
    }
  }

  /** The composed configuration holds no `__help` entry at any dict depth. */
  lemma ComposeConfigHelpFree(global: Fields, local: Fields)
    ensures KeyFree(ComposeConfig(global, local), HelpKey)
  {
    MergeUseBKeyFree(RemoveRecursively(global, HelpKey), RemoveRecursively(local, HelpKey), HelpKey);
  }

  /** Local settings win: at the path of every leaf of the local configuration that avoids
      `__help`, the composed configuration holds that leaf, or the global value there when
      Python finds the two equal. */
  lemma ComposeConfigLocalWins(global: Fields, local: Fields, path: seq<string>)
    requires |path| >= 1 && HelpKey !in path
    requires Lookup(local, path).Some? && !Lookup(local, path).value.Dict?
    ensures Overlaid(Lookup(ComposeConfig(global, local), path), Lookup(global, path), Lookup(local, path).value)
  {
    var g := RemoveRecursively(global, HelpKey);
    var l := RemoveRecursively(local, HelpKey);
    RemovePreservesPaths(local, HelpKey, path);
    RemovePreservesPaths(global, HelpKey, path);
    MergeUseBOverlay(g, l, path);
    var leaf := Lookup(local, path).value;
    assert Lookup(l, path) == Some(leaf);
    if Lookup(g, path).Some? && PyEq(Lookup(g, path).value, leaf) {
      assert !Lookup(g, path).value.Dict?;
      assert Lookup(g, path) == Lookup(global, path);
    }
  }

  /** Global settings the local configuration does not reach survive: a global leaf on a
      path avoiding `__help`, where the local configuration holds nothing and no leaf above
      it, is found unchanged in the composed configuration. */
  lemma ComposeConfigGlobalKept(global: Fields, local: Fields, path: seq<string>)
    requires |path| >= 1 && HelpKey !in path
    requires Lookup(global, path).Some? && !Lookup(global, path).value.Dict?
    requires Lookup(local, path).None? && OnlyDictsAbove(local, path)
    ensures Lookup(ComposeConfig(global, local), path) == Lookup(global, path)
  {
    var g := RemoveRecursively(global, HelpKey);
    var l := RemoveRecursively(local, HelpKey);
    RemovePreservesPaths(global, HelpKey, path);
    RemovePreservesPaths(local, HelpKey, path);
    forall j | 1 <= j < |path|
      ensures Lookup(l, path[..j]).None? || Lookup(l, path[..j]).value.Dict?
    {
      assert HelpKey !in path[..j] by { assert forall x :: x in path[..j] ==> x in path; }
      RemovePreservesPaths(local, HelpKey, path[..j]);
    }
    MergeUseBKeepsA(g, l, path);
  }

  // ---------------------------------------------------------------- posixpath2str

  /** No `pathlib.Path` anywhere in the value. */
  predicate PathFree(v: Val)
  {
    match v
    case Leaf(_) => true
    case PathVal(_) => false
    case List(items) => forall i :: 0 <= i < |items| ==> PathFree(items[i])
    case Dict(f) => forall k :: k in f ==> PathFree(f[k])
  }

  /** `w` has the structure of `v`: lists of the same length, dicts with the same keys,
      scalars unchanged, and each path replaced by its text. */
  predicate SameShape(v: Val, w: Val)
  {
    match v
    case Leaf(_) => w == v
    case PathVal(p) => w == Leaf(Str(Paths.ToString(p)))
    case List(items) =>
      w.List? && |w.items| == |items| && forall i :: 0 <= i < |items| ==> SameShape(items[i], w.items[i])
    case Dict(f) =>
      w.Dict? && w.fields.Keys == f.Keys && forall k :: k in f ==> SameShape(f[k], w.fields[k])
  }

  /** `posixpath2str(obj)`: converts every `Path` inside lists and dicts to its string. */
  function PosixPathToStr(v: Val): (r: Val)
    ensures SameShape(v, r)
    ensures PathFree(r)
  {
    match v
    case Leaf(_) => v
    case PathVal(p) => Leaf(Str(Paths.ToString(p)))
    case List(items) => List(seq(|items|, i requires 0 <= i < |items| => PosixPathToStr(items[i])))
    case Dict(f) => Dict(map k | k in f :: PosixPathToStr(f[k]))
  }

  /** A value without paths is left as it is. */
  lemma {:induction false} PosixPathToStrPathFree(v: Val)
    requires PathFree(v)
    ensures PosixPathToStr(v) == v
  {
    match v
    case Leaf(_) =>
    case PathVal(_) =>
    case List(items) =>
      forall i | 0 <= i < |items|
        ensures PosixPathToStr(items[i]) == items[i]
      {
        PosixPathToStrPathFree(items[i]);
      }
      assert PosixPathToStr(v).items == items;
    case Dict(f) =>
      forall k | k in f
        ensures PosixPathToStr(f[k]) == f[k]
      {
        PosixPathToStrPathFree(f[k]);
      }
      assert PosixPathToStr(v).fields == f;
  }

  /** Applying `posixpath2str` twice is the same as applying it once. */
  lemma PosixPathToStrIdempotent(v: Val)
    ensures PosixPathToStr(PosixPathToStr(v)) == PosixPathToStr(v)
  {
    PosixPathToStrPathFree(PosixPathToStr(v));
  }
}
