/** Loading included files and merging them into the root table, key by key. */
module IncludesMethods {
  import opened Codec
  import opened Includes

  // ----- merging key by key -----

  lemma AddNewKey(a: Value, b: Value, k: string, v: Value)
    requires Compatible(a, b) && k !in a.entries && k !in b.entries
    ensures Compatible(a, Table(b.entries[k := v]))
    ensures Union(a, Table(b.entries[k := v])) == Table(Union(a, b).entries[k := v])
  {
    assert Union(a, Table(b.entries[k := v])).entries == Union(a, b).entries[k := v];
  }

  lemma AddSharedKey(a: Value, b: Value, k: string, v: Value)
    requires Compatible(a, b) && k in a.entries && k !in b.entries && Compatible(a.entries[k], v)
    ensures Compatible(a, Table(b.entries[k := v]))
    ensures Union(a, Table(b.entries[k := v])) == Table(Union(a, b).entries[k := Union(a.entries[k], v)])
  {
    assert Union(a, Table(b.entries[k := v])).entries == Union(a, b).entries[k := Union(a.entries[k], v)];
  }

  /** Merges addition into base, whatever the order of its keys; otherwise names a path that clashes. */
  method MergeTables(base: map<string, Value>, addition: map<string, Value>)
      returns (r: Option<map<string, Value>>, clash: seq<string>)
    ensures r.Some? ==>
              Compatible(Table(base), Table(addition)) && Table(r.value) == Union(Table(base), Table(addition))
    ensures r.None? ==> clash != [] && ClashAt(Table(base), Table(addition), clash)
    decreases Table(addition)
  {
    clash := [];
    var merged := base;
    var left := addition.Keys;
    ghost var done: map<string, Value> := map[];
    assert Union(Table(base), Table(done)).entries == base;
    while left != {}
      invariant left <= addition.Keys && done == addition - left
      invariant Compatible(Table(base), Table(done)) && Table(merged) == Union(Table(base), Table(done))
      decreases left
    {
      var k :| k in left;
      var value := addition[k];
      left := left - {k};
      assert addition - left == done[k := value];
      if k !in merged {
        AddNewKey(Table(base), Table(done), k, value);
        merged := merged[k := value];
      } else if merged[k].Table? && value.Table? {
        assert merged[k] == base[k];
        var sub, path := MergeTables(merged[k].entries, value.entries);
        if sub.None? {
          assert ([k] + path)[1..] == path;
          return None, [k] + path;
        }
        AddSharedKey(Table(base), Table(done), k, value);
        merged := merged[k := Table(sub.value)];
      } else {
        assert [k][1..] == [];
        return None, [k];
      }
      done := done[k := value];
    }
    assert done == addition;
    r := Some(merged);
  }

  // ----- include directives -----

  datatype Entry = Entry(path: string, optional: bool)

  datatype Contents = Missing | Unreadable | Malformed | Parsed(table: map<string, Value>)

  /** Which paths are acceptable, and what the files hold. */
  datatype Files = Files(valid: string -> bool, read: string -> Contents)

  function EntryOf(s: string): Entry {
    if |s| > 0 && s[|s| - 1] == '?' then Entry(s[..|s| - 1], true) else Entry(s, false)
  }

  function Entries(items: seq<string>): seq<Entry> {
    seq(|items|, i requires 0 <= i < |items| => EntryOf(items[i]))
  }

  /** The include array: absent means no includes; anything but valid paths is an error. */
  function ParseIncludes(files: Files, root: Value): Option<seq<Entry>> {
    if root.Leaf? || "include" !in root.entries then Some([])
    else match root.entries["include"]
      case Leaf(Texts(items)) =>
        if forall i :: 0 <= i < |items| ==> files.valid(EntryOf(items[i]).path) then Some(Entries(items)) else None
      case _ => None
  }

  datatype Loading = Skipped | Refused | Included(table: Value)

  /** Missing files are skipped if optional; files that include others are refused. */
  function LoadEntry(files: Files, e: Entry): Loading {
    match files.read(e.path)
    case Missing => if e.optional then Skipped else Refused
    case Parsed(table) => if "include" in table then Refused else Included(Table(table))
    case _ => Refused
  }

  predicate Readable(files: Files, entries: seq<Entry>) {
    forall i :: 0 <= i < |entries| ==> LoadEntry(files, entries[i]) != Refused
  }

  function TableOf(files: Files, e: Entry): seq<Value> {
    var l := LoadEntry(files, e);
    if l.Included? then [l.table] else []
  }

  /** The tables of the files that are there, in order. */
  function Tables(files: Files, entries: seq<Entry>): seq<Value> {
    if entries == [] then [] else Tables(files, entries[..|entries| - 1]) + TableOf(files, entries[|entries| - 1])
  }

  function Resolved(files: Files, root: Value): Option<Value> {
    match ParseIncludes(files, root)
    case None => None
    case Some(entries) =>
      if root.Leaf? || !Readable(files, entries) then None
      else MergeAll(Some(Table(root.entries - {"include"})), Tables(files, entries))
  }

  lemma {:induction false} MergeFailed(root: Option<Value>, a: seq<Value>, b: seq<Value>)
    requires MergeAll(root, a).None?
    ensures MergeAll(root, a + b).None?
    decreases |b|
  {
    if b == [] {
      assert a + b == a;
    } else {
      assert (a + b)[..|a + b| - 1] == a + b[..|b| - 1];
      MergeFailed(root, a, b[..|b| - 1]);
    }
  }

  lemma {:induction false} TablesPrefix(files: Files, entries: seq<Entry>, i: nat) returns (rest: seq<Value>)
    requires i <= |entries|
    ensures Tables(files, entries) == Tables(files, entries[..i]) + rest
    decreases |entries|
  {
    if i == |entries| {
      assert entries[..i] == entries;
      rest := [];
    } else {
      var n := |entries| - 1;
      rest := TablesPrefix(files, entries[..n], i);
      assert entries[..n][..i] == entries[..i];
      rest := rest + TableOf(files, entries[n]);
    }
  }

  lemma MergeNone(start: Option<Value>)
    ensures MergeAll(start, []) == start
  {
  }

  lemma MergeOneMore(start: Option<Value>, before: seq<Value>, t: Value, table: Value)
    requires MergeAll(start, before) == Some(table)
    ensures MergeAll(start, before + [t]) == Merge(table, t)
  {
    assert (before + [t])[..|before|] == before;
  }

  /** One included file: merged into the table, or the whole resolution fails. */
  method IncludeOne(files: Files, ghost start: Option<Value>, entries: seq<Entry>, i: nat, table: map<string, Value>)
    returns (r: Option<map<string, Value>>)
    requires i < |entries| && MergeAll(start, Tables(files, entries[..i])) == Some(Table(table))
    requires LoadEntry(files, entries[i]).Included?
    ensures r.Some? ==> MergeAll(start, Tables(files, entries[..i + 1])) == Some(Table(r.value))
    ensures r.None? ==> MergeAll(start, Tables(files, entries)).None?
  {
    hide MergeAll, Compatible, Union, ClashAt;
    var t := LoadEntry(files, entries[i]).table;
    ghost var before := Tables(files, entries[..i]);
    assert entries[..i + 1][..i] == entries[..i];
    assert Tables(files, entries[..i + 1]) == before + [t];
    MergeOneMore(start, before, t, Table(table));
    var merged, clash := MergeTables(table, t.entries);
    if merged.None? {
      CompatibleOrClash(Table(table), t, clash);
      ghost var rest := TablesPrefix(files, entries, i + 1);
      MergeFailed(start, before + [t], rest);
      return None;
    }
    r := merged;
  }

  /** The root table without the directive, and the included tables. */
  function Sources(files: Files, root: Value): seq<Value>
    requires root.Table? && ParseIncludes(files, root).Some?
  {
    [Table(root.entries - {"include"})] + Tables(files, ParseIncludes(files, root).value)
  }

  /** The includes parse, every file can be read or skipped, and no two tables clash. */
  ghost predicate Resolvable(files: Files, root: Value) {
    && root.Table? && ParseIncludes(files, root).Some?
    && Readable(files, ParseIncludes(files, root).value)
    && NoClash(Sources(files, root))
  }

  lemma ResolvesIff(files: Files, root: Value)
    ensures Resolved(files, root).Some? <==> Resolvable(files, root)
  {
    hide MergeAll, NoClash, Tables;
    if root.Table? && ParseIncludes(files, root).Some? {
      MergesAllIffNoClash(Table(root.entries - {"include"}), Tables(files, ParseIncludes(files, root).value));
    }
  }

  lemma ResolvedLeaves(files: Files, root: Value, path: seq<string>, v: Scalar)
    requires Resolved(files, root).Some?
    ensures Resolvable(files, root)
    ensures LeafOf(Resolved(files, root).value, path, v) <==> LeafOfSome(Sources(files, root), path, v)
  {
    hide MergeAll, NoClash, Tables, LeafOf, LeafOfSome;
    ResolvesIff(files, root);
    MergedLeaves(Table(root.entries - {"include"}), Tables(files, ParseIncludes(files, root).value), path, v);
  }

  /** Every leaf of the result comes, unchanged, from exactly one of the tables; none is dropped. */
  ghost predicate LeavesFrom(result: Value, sources: seq<Value>) {
    && (forall path, v :: LeafOf(result, path, v) <==> LeafOfSome(sources, path, v))
    && (forall path, v, i, j | 0 <= i < |sources| && 0 <= j < |sources| && i != j && LeafOf(sources[i], path, v) ::
          Lookup(sources[j], path).None?)
  }

  lemma ResolvedFrom(files: Files, root: Value)
    requires Resolved(files, root).Some?
    ensures Resolvable(files, root) && LeavesFrom(Resolved(files, root).value, Sources(files, root))
  {
    hide Resolved, LeafOf, LeafOfSome, NoClash;
    ResolvesIff(files, root);
    var result, sources := Resolved(files, root).value, Sources(files, root);
    hide Sources;
    forall path, v ensures LeafOf(result, path, v) <==> LeafOfSome(sources, path, v) {
      ResolvedLeaves(files, root, path, v);
    }
    forall path, v, i, j | 0 <= i < |sources| && 0 <= j < |sources| && i != j && LeafOf(sources[i], path, v)
      ensures Lookup(sources[j], path).None?
    {
      LeafOfOne(sources, i, j, path, v);
    }
  }

  /** Resolution succeeds exactly if the includes parse, all files are readable and no two tables clash;
      then the result consists of the leaves of these tables. */
  method ResolveIncludes(files: Files, root: Value) returns (r: Option<Value>)
    ensures r == Resolved(files, root)
    ensures r.Some? <==> Resolvable(files, root)
    ensures r.Some? ==> LeavesFrom(r.value, Sources(files, root))
  {
    hide Resolved, NoClash, LeavesFrom, Sources;
    ResolvesIff(files, root);
    if Resolved(files, root).Some? {
      ResolvedFrom(files, root);
    }
    r := Resolve(files, root);
  }

  method Resolve(files: Files, root: Value) returns (r: Option<Value>)
    ensures r == Resolved(files, root)
  {
    hide MergeAll, LoadEntry;
    var parsed := ParseIncludes(files, root);
    if parsed.None? || root.Leaf? {
      return None;
    }
    var entries := parsed.value;
    var table := root.entries - {"include"};
    ghost var start := Some(Table(table));
    MergeNone(start);
    for i := 0 to |entries|
      invariant Readable(files, entries[..i])
      invariant MergeAll(start, Tables(files, entries[..i])) == Some(Table(table))
    {
      assert entries[..i + 1][..i] == entries[..i];
      match LoadEntry(files, entries[i]) {
        case Refused => return None;
        case Skipped => assert Tables(files, entries[..i + 1]) == Tables(files, entries[..i]);
        case Included(_) =>
          var merged := IncludeOne(files, start, entries, i, table);
          if merged.None? {
            return None;
          }
          table := merged.value;
      }
    }
    assert entries[..|entries|] == entries;
    r := Some(Table(table));
  }

  lemma CompatibleOrClash(a: Value, b: Value, path: seq<string>)
    requires ClashAt(a, b, path)
    ensures !Compatible(a, b)
  {
    if Compatible(a, b) {
      CompatibleNoClash(a, b, path);
      assert false;
    }
  }

  /** Listing the same includes in another order gives the same table, or fails as well. */
  lemma IncludeOrderIrrelevant(files: Files, root: Value, other: Value)
    requires root.Table? && other.Table? && root.entries - {"include"} == other.entries - {"include"}
    requires ParseIncludes(files, root).Some? && ParseIncludes(files, other).Some?
    requires multiset(ParseIncludes(files, root).value) == multiset(ParseIncludes(files, other).value)
    ensures Resolved(files, root) == Resolved(files, other)
  {
    var xs, ys := ParseIncludes(files, root).value, ParseIncludes(files, other).value;
    SameReadable(files, xs, ys);
    SameReadable(files, ys, xs);
    TablesMultiset(files, xs, ys);
    MergeAnyOrder(Some(Table(root.entries - {"include"})), Tables(files, xs), Tables(files, ys));
  }

  lemma SameReadable(files: Files, xs: seq<Entry>, ys: seq<Entry>)
    requires multiset(xs) == multiset(ys)
    ensures Readable(files, xs) ==> Readable(files, ys)
  {
    if Readable(files, xs) {
      forall i | 0 <= i < |ys| ensures LoadEntry(files, ys[i]) != Refused {
        assert ys[i] in multiset(ys);
        assert ys[i] in multiset(xs);
        var j :| 0 <= j < |xs| && xs[j] == ys[i];
      }
    }
  }

  lemma TablesSplit(files: Files, xs: seq<Entry>)
    requires xs != []
    ensures multiset(Tables(files, xs)) == multiset(Tables(files, xs[..|xs| - 1]))
            + multiset(TableOf(files, xs[|xs| - 1]))
  {
    hide TableOf;
  }

  lemma {:induction false} TablesWithout(files: Files, ys: seq<Entry>, i: nat)
    requires i < |ys|
    ensures multiset(Tables(files, ys)) == multiset(Tables(files, ys[..i] + ys[i + 1..]))
              + multiset(TableOf(files, ys[i]))
    decreases |ys|
  {
    hide TableOf, Tables;
    var n := |ys| - 1;
    var rest := ys[..i] + ys[i + 1..];
    TablesSplit(files, ys);
    if i == n {
      assert rest == ys[..n];
    } else {
      TablesSplit(files, rest);
      TablesWithout(files, ys[..n], i);
      assert rest[..|rest| - 1] == ys[..n][..i] + ys[..n][i + 1..] && rest[|rest| - 1] == ys[n];
    }
  }

  lemma {:induction false} TablesMultiset(files: Files, xs: seq<Entry>, ys: seq<Entry>)
    requires multiset(xs) == multiset(ys)
    ensures multiset(Tables(files, xs)) == multiset(Tables(files, ys))
    decreases |xs|
  {
    hide TableOf, Tables;
    if xs == [] {
      assert |ys| == |multiset(ys)| == 0;
      assert ys == [];
    } else {
      var n := |xs| - 1;
      var x := xs[n];
      assert xs == xs[..n] + [x];
      assert x in multiset(ys);
      var i :| 0 <= i < |ys| && ys[i] == x;
      var rest := ys[..i] + ys[i + 1..];
      assert ys == ys[..i] + [x] + ys[i + 1..];
      assert multiset(rest) == multiset(ys) - multiset{x};
      assert multiset(xs[..n]) == multiset(xs) - multiset{x};
      TablesMultiset(files, xs[..n], rest);
      TablesSplit(files, xs);
      TablesWithout(files, ys, i);
    }
  }
}
