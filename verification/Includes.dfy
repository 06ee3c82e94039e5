/** Merging configuration tables: a partial union of trees that refuses to overwrite anything. */
module Includes {
  import opened Codec

  datatype Scalar = Text(s: string) | Texts(items: seq<string>) | Number(n: int)

  datatype Value = Leaf(v: Scalar) | Table(entries: map<string, Value>)

  /** Two tables share only sub-tables, and those recursively. */
  predicate Compatible(a: Value, b: Value)
    decreases a
  {
    a.Table? && b.Table? && forall k | k in a.entries && k in b.entries :: Compatible(a.entries[k], b.entries[k])
  }

  function Union(a: Value, b: Value): (r: Value)
    requires Compatible(a, b)
    ensures r.Table? && r.entries.Keys == a.entries.Keys + b.entries.Keys
    decreases a
  {
    Table(map k | k in a.entries.Keys + b.entries.Keys ::
            if k in a.entries && k in b.entries then Union(a.entries[k], b.entries[k])
            else if k in a.entries then a.entries[k] else b.entries[k])
  }

  function Merge(a: Value, b: Value): Option<Value> {
    if Compatible(a, b) then Some(Union(a, b)) else None
  }

  // ----- what merging does, path by path -----

  function Lookup(v: Value, path: seq<string>): Option<Value>
    decreases |path|
  {
    if path == [] then Some(v)
    else if v.Table? && path[0] in v.entries then Lookup(v.entries[path[0]], path[1..]) else None
  }

  /** Both define the path, and at least one of them as a leaf. */
  predicate ClashAt(a: Value, b: Value, path: seq<string>) {
    && Lookup(a, path).Some? && Lookup(b, path).Some?
    && (Lookup(a, path).value.Leaf? || Lookup(b, path).value.Leaf?)
  }

  lemma {:induction false} CompatibleNoClash(a: Value, b: Value, path: seq<string>)
    requires Compatible(a, b)
    ensures !ClashAt(a, b, path)
    decreases |path|
  {
    if path != [] && path[0] in a.entries && path[0] in b.entries {
      CompatibleNoClash(a.entries[path[0]], b.entries[path[0]], path[1..]);
    }
  }

  lemma {:induction false} ClashFound(a: Value, b: Value) returns (path: seq<string>)
    requires !Compatible(a, b)
    ensures ClashAt(a, b, path)
    decreases a
  {
    if a.Leaf? || b.Leaf? {
      path := [];
    } else {
      var k :| k in a.entries && k in b.entries && !Compatible(a.entries[k], b.entries[k]);
      var rest := ClashFound(a.entries[k], b.entries[k]);
      path := [k] + rest;
      assert path[1..] == rest;
    }
  }

  /** Merging succeeds exactly when no key path clashes. */
  lemma MergesIffNoClash(a: Value, b: Value)
    ensures Merge(a, b).Some? <==> forall path :: !ClashAt(a, b, path)
  {
    if Compatible(a, b) {
      forall path ensures !ClashAt(a, b, path) {
        CompatibleNoClash(a, b, path);
      }
    } else {
      var path := ClashFound(a, b);
    }
  }

  /** A leaf of the result is a leaf of exactly one of the two tables, unchanged; none is dropped. */
  lemma {:induction false} UnionLeaves(a: Value, b: Value, path: seq<string>, v: Scalar)
    requires Compatible(a, b)
    ensures Lookup(Union(a, b), path) == Some(Leaf(v)) <==>
            Lookup(a, path) == Some(Leaf(v)) || Lookup(b, path) == Some(Leaf(v))
    ensures !(Lookup(a, path) == Some(Leaf(v)) && Lookup(b, path).Some?)
    decreases |path|
  {
    CompatibleNoClash(a, b, path);
    if path != [] {
      var k := path[0];
      if k in a.entries && k in b.entries {
        UnionLeaves(a.entries[k], b.entries[k], path[1..], v);
      }
    }
  }

  // ----- commutative and associative, as a partial operation -----

  lemma {:induction false} UnionCommutes(a: Value, b: Value)
    requires Compatible(a, b)
    ensures Compatible(b, a) && Union(a, b) == Union(b, a)
    decreases a
  {
    forall k | k in a.entries && k in b.entries
      ensures Compatible(b.entries[k], a.entries[k])
              && Union(a.entries[k], b.entries[k]) == Union(b.entries[k], a.entries[k])
    {
      UnionCommutes(a.entries[k], b.entries[k]);
    }
    assert Union(a, b).entries == Union(b, a).entries;
  }

  lemma MergeCommutes(a: Value, b: Value)
    ensures Merge(a, b) == Merge(b, a)
  {
    if Compatible(a, b) {
      UnionCommutes(a, b);
    } else if Compatible(b, a) {
      UnionCommutes(b, a);
    }
  }

  lemma {:induction false} UnionAssociates(a: Value, b: Value, c: Value)
    requires Compatible(a, b) && Compatible(Union(a, b), c)
    ensures Compatible(b, c) && Compatible(a, Union(b, c)) && Union(Union(a, b), c) == Union(a, Union(b, c))
    decreases a
  {
    var ab := Union(a, b);
    forall k | k in b.entries && k in c.entries ensures Compatible(b.entries[k], c.entries[k]) {
      if k in a.entries {
        UnionAssociates(a.entries[k], b.entries[k], c.entries[k]);
      } else {
        assert ab.entries[k] == b.entries[k];
      }
    }
    var bc := Union(b, c);
    forall k | k in a.entries && k in bc.entries
      ensures Compatible(a.entries[k], bc.entries[k]) && Union(ab, c).entries[k] == Union(a.entries[k], bc.entries[k])
    {
      if k in b.entries && k in c.entries {
        UnionAssociates(a.entries[k], b.entries[k], c.entries[k]);
      } else if k in c.entries {
        assert ab.entries[k] == a.entries[k];
      }
    }
    assert Union(ab, c).entries == Union(a, bc).entries;
  }

  function MergeOpt(a: Option<Value>, b: Value): Option<Value> {
    if a.None? then None else Merge(a.value, b)
  }

  lemma MergeAssociates(a: Value, b: Value, c: Value)
    ensures MergeOpt(Merge(a, b), c) == MergeOpt(Merge(b, c), a)
  {
    if Compatible(a, b) && Compatible(Union(a, b), c) {
      UnionAssociates(a, b, c);
      UnionCommutes(a, Union(b, c));
    } else if Compatible(b, c) && Compatible(Union(b, c), a) {
      UnionCommutes(b, c);
      UnionAssociates(c, b, a);
      UnionCommutes(b, a);
      UnionCommutes(c, Union(b, a));
    }
  }

  // ----- the order of the includes does not matter -----

  function MergeAll(root: Option<Value>, tables: seq<Value>): Option<Value> {
    if tables == [] then root else MergeOpt(MergeAll(root, tables[..|tables| - 1]), tables[|tables| - 1])
  }

  lemma MergeSwaps(root: Option<Value>, x: Value, y: Value)
    ensures MergeOpt(MergeOpt(root, x), y) == MergeOpt(MergeOpt(root, y), x)
  {
    if root.Some? {
      var r := root.value;
      MergeAssociates(r, x, y);
      MergeAssociates(r, y, x);
      MergeCommutes(x, y);
    }
  }

  /** Any table of the list may be merged last. */
  lemma {:induction false} MergeLast(root: Option<Value>, tables: seq<Value>, i: nat)
    requires i < |tables|
    ensures MergeAll(root, tables) == MergeOpt(MergeAll(root, tables[..i] + tables[i + 1..]), tables[i])
    decreases |tables|
  {
    hide MergeOpt;
    var n := |tables| - 1;
    var rest := tables[..i] + tables[i + 1..];
    if i == n {
      assert rest == tables[..n];
    } else {
      MergeLast(root, tables[..n], i);
      var shorter := tables[..n][..i] + tables[..n][i + 1..];
      assert rest[..|rest| - 1] == shorter && rest[|rest| - 1] == tables[n];
      MergeSwaps(MergeAll(root, shorter), tables[i], tables[n]);
    }
  }

  lemma {:induction false} MergeAnyOrder(root: Option<Value>, xs: seq<Value>, ys: seq<Value>)
    requires multiset(xs) == multiset(ys)
    ensures MergeAll(root, xs) == MergeAll(root, ys)
    decreases |xs|
  {
    if xs == [] {
      assert |ys| == |multiset(ys)| == 0;
    } else {
      var n := |xs| - 1;
      var x := xs[n];
      assert xs == xs[..n] + [x];
      assert x in multiset(ys);
      var i :| 0 <= i < |ys| && ys[i] == x;
      var rest := ys[..i] + ys[i + 1..];
      assert ys == ys[..i] + [x] + ys[i + 1..];
      assert multiset(rest) == multiset(ys) - multiset{x};
      assert multiset(xs[..n]) == multiset(xs) - multiset{x};
      MergeAnyOrder(root, xs[..n], rest);
      MergeLast(root, ys, i);
    }
  }

  // ----- a whole list of tables -----

  /** A union is compatible with what both of its parts are compatible with. */
  lemma {:induction false} UnionCompatible(a: Value, b: Value, c: Value)
    requires Compatible(a, b)
    ensures Compatible(Union(a, b), c) <==> Compatible(a, c) && Compatible(b, c)
    decreases a
  {
    var ab := Union(a, b);
    if Compatible(ab, c) {
      UnionAssociates(a, b, c);
      UnionCommutes(a, b);
      UnionAssociates(b, a, c);
    }
    if Compatible(a, c) && Compatible(b, c) {
      forall k | k in ab.entries && k in c.entries ensures Compatible(ab.entries[k], c.entries[k]) {
        if k in a.entries && k in b.entries {
          UnionCompatible(a.entries[k], b.entries[k], c.entries[k]);
        }
      }
    }
  }

  predicate AllCompatible(all: seq<Value>, c: Value) {
    forall i :: 0 <= i < |all| ==> Compatible(all[i], c)
  }

  lemma {:induction false} MergedCompatible(root: Value, tables: seq<Value>, c: Value)
    requires MergeAll(Some(root), tables).Some?
    ensures Compatible(MergeAll(Some(root), tables).value, c) <==> AllCompatible([root] + tables, c)
  {
    hide Compatible, Union;
    var n := |tables| - 1;
    if n < 0 {
      assert [root] + tables == [] + [root];
      OneMoreCompatible([], root, c);
    } else {
      var before := MergeAll(Some(root), tables[..n]).value;
      MergedCompatible(root, tables[..n], c);
      UnionCompatible(before, tables[n], c);
      OneMoreCompatible([root] + tables[..n], tables[n], c);
      assert [root] + tables == [root] + tables[..n] + [tables[n]];
    }
  }

  lemma OneMoreCompatible(all: seq<Value>, t: Value, c: Value)
    ensures AllCompatible(all + [t], c) <==> AllCompatible(all, c) && Compatible(t, c)
  {
    hide Compatible;
    if AllCompatible(all + [t], c) {
      assert (all + [t])[|all|] == t;
      assert forall i :: 0 <= i < |all| ==> (all + [t])[i] == all[i];
    }
  }

  /** No two of the tables clash at any path. */
  ghost predicate NoClash(all: seq<Value>) {
    forall i, j, path :: 0 <= i < j < |all| ==> !ClashAt(all[i], all[j], path)
  }

  /** The last table against all before it. */
  lemma NoClashLast(all: seq<Value>)
    requires all != []
    ensures NoClash(all) <==> NoClash(all[..|all| - 1]) && AllCompatible(all[..|all| - 1], all[|all| - 1])
  {
    hide ClashAt, Compatible;
    var n := |all| - 1;
    if NoClash(all) {
      forall i | 0 <= i < n ensures Compatible(all[i], all[n]) {
        MergesIffNoClash(all[i], all[n]);
      }
    }
    if NoClash(all[..n]) && AllCompatible(all[..n], all[n]) {
      forall i, j, path | 0 <= i < j < |all| ensures !ClashAt(all[i], all[j], path) {
        if j == n {
          assert all[..n][i] == all[i];
          CompatibleNoClash(all[i], all[n], path);
        } else {
          assert all[..n][i] == all[i] && all[..n][j] == all[j];
        }
      }
    }
  }

  /** Merging a list of tables succeeds exactly if no two of them clash. */
  lemma {:induction false} MergesAllIffNoClash(root: Value, tables: seq<Value>)
    ensures MergeAll(Some(root), tables).Some? <==> NoClash([root] + tables)
  {
    hide Compatible, NoClash, Union, AllCompatible;
    var n := |tables| - 1;
    if n < 0 {
      assert [root] + tables == [root];
      SingleNoClash(root);
    } else {
      MergesAllIffNoClash(root, tables[..n]);
      var all := [root] + tables;
      assert all[..|all| - 1] == [root] + tables[..n] && all[|all| - 1] == tables[n];
      NoClashLast(all);
      if MergeAll(Some(root), tables[..n]).Some? {
        MergedCompatible(root, tables[..n], tables[n]);
      }
    }
  }

  lemma SingleNoClash(root: Value)
    ensures NoClash([root])
  {
  }

  predicate LeafOf(t: Value, path: seq<string>, v: Scalar) {
    Lookup(t, path) == Some(Leaf(v))
  }

  predicate LeafOfSome(all: seq<Value>, path: seq<string>, v: Scalar) {
    exists i :: 0 <= i < |all| && LeafOf(all[i], path, v)
  }

  /** The leaves of the result are the leaves of the tables, none added, changed or dropped. */
  lemma {:induction false} MergedLeaves(root: Value, tables: seq<Value>, path: seq<string>, v: Scalar)
    requires MergeAll(Some(root), tables).Some?
    ensures LeafOf(MergeAll(Some(root), tables).value, path, v) <==> LeafOfSome([root] + tables, path, v)
  {
    hide Compatible, Union, LeafOf;
    var n := |tables| - 1;
    if n < 0 {
      assert ([root] + tables)[0] == root && |[root] + tables| == 1;
    } else {
      var before := MergeAll(Some(root), tables[..n]).value;
      MergedLeaves(root, tables[..n], path, v);
      UnionLeaf(before, tables[n], path, v);
      OneMoreTable([root] + tables[..n], tables[n], path, v);
      assert [root] + tables == [root] + tables[..n] + [tables[n]];
    }
  }

  lemma UnionLeaf(a: Value, b: Value, path: seq<string>, v: Scalar)
    requires Compatible(a, b)
    ensures LeafOf(Union(a, b), path, v) <==> LeafOf(a, path, v) || LeafOf(b, path, v)
  {
    UnionLeaves(a, b, path, v);
  }

  lemma OneMoreTable(all: seq<Value>, t: Value, path: seq<string>, v: Scalar)
    ensures LeafOfSome(all + [t], path, v) <==> LeafOfSome(all, path, v) || LeafOf(t, path, v)
  {
    hide LeafOf;
    if LeafOfSome(all, path, v) {
      var i :| 0 <= i < |all| && LeafOf(all[i], path, v);
      assert (all + [t])[i] == all[i];
    }
    if LeafOf(t, path, v) {
      assert (all + [t])[|all|] == t;
    }
  }

  /** A path that is a leaf in one of them is not defined in any other. */
  lemma LeafOfOne(all: seq<Value>, i: nat, j: nat, path: seq<string>, v: Scalar)
    requires NoClash(all) && i < |all| && j < |all| && i != j && LeafOf(all[i], path, v)
    ensures Lookup(all[j], path).None?
  {
    assert !ClashAt(all[i], all[j], path) || !ClashAt(all[j], all[i], path);
  }
}
