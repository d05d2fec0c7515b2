/**
  The columns of a block, written and read back by a merge: the rows are the same, the families come in
  the order of their names.
 */
module ReadBack {
  import Collections
  import opened Points
  import opened Schemas
  import opened FamilyOrder
  import opened Columns
  import opened TagColumns
  import opened TagAppend
  import opened Columnar
  import SchemaGrowth

  /** The families as a merge reads them. */
  function ReadFamilies(fs: seq<Family>): seq<Family> {
    var keys := SortNames(Heads(TagNames(fs)));
    seq(|keys|, i requires 0 <= i < |keys| => Family(keys[i], ColumnsOf(fs, keys[i])))
  }

  /** mustWriteTo: each family goes to its own file, and the metadata maps its name to it. */
  method WriteFamilies(fs: seq<Family>) returns (stored: map<string, seq<Column>>)
    requires Unique(Heads(TagNames(fs)))
    ensures stored.Keys == KnownFamilies(fs) && forall n :: n in stored ==> stored[n] == ColumnsOf(fs, n)
  {
    hide ColumnsOf;
    stored := map[];
    for i := 0 to |fs|
      invariant forall n :: n in stored <==> exists j :: 0 <= j < i && fs[j].name == n
      invariant forall n :: n in stored ==> stored[n] == ColumnsOf(fs, n)
    {
      ColumnsOfAt(fs, i);
      stored := stored[fs[i].name := fs[i].columns];
    }
    forall n ensures n in stored <==> n in KnownFamilies(fs) {
      if n in stored {
        var j :| 0 <= j < |fs| && fs[j].name == n;
        assert Heads(TagNames(fs))[j] == n;
      }
      if n in KnownFamilies(fs) {
        var j :| 0 <= j < |fs| && Heads(TagNames(fs))[j] == n;
        assert fs[j].name == n;
      }
    }
  }

  /** The names of a map, in no particular order. */
  method KeysOf(stored: map<string, seq<Column>>) returns (keys: seq<string>)
    ensures Unique(keys) && NameSet(keys) == stored.Keys
  {
    keys := [];
    var rest := stored.Keys;
    while rest != {}
      invariant Unique(keys) && NameSet(keys) + rest == stored.Keys && NameSet(keys) !! rest
      decreases |rest|
    {
      var k :| k in rest;
      assert k !in NameSet(keys);
      assert NameSet(keys + [k]) == NameSet(keys) + {k};
      keys, rest := keys + [k], rest - {k};
    }
  }

  /** mustSeqReadFrom, the families: the names are sorted, then each family is read. */
  method SeqReadFamilies(stored: map<string, seq<Column>>) returns (fs: seq<Family>)
    ensures Ascending(Heads(TagNames(fs))) && KnownFamilies(fs) == stored.Keys
    ensures forall i :: 0 <= i < |fs| ==> fs[i].name in stored && fs[i].columns == stored[fs[i].name]
  {
    hide Below, SortNames;
    var keys := KeysOf(stored);
    BelowOrders();
    ghost var w := Collections.SortExists(keys, Below);
    var sorted: seq<string> :| multiset(sorted) == multiset(keys) && Collections.SortedBy(sorted, Below);
    SortIsUnique(keys, sorted);
    SortNamesIs(keys);
    Collections.Permuted(sorted, keys);
    assert NameSet(sorted) == NameSet(keys);
    fs := ReadEach(sorted, stored);
  }

  method ReadEach(sorted: seq<string>, stored: map<string, seq<Column>>) returns (fs: seq<Family>)
    requires NameSet(sorted) <= stored.Keys
    ensures Heads(TagNames(fs)) == sorted
    ensures forall i :: 0 <= i < |fs| ==> fs[i].name in stored && fs[i].columns == stored[fs[i].name]
  {
    fs := [];
    for i := 0 to |sorted|
      invariant |fs| == i && forall j :: 0 <= j < i ==> fs[j].name == sorted[j] && sorted[j] in stored
      invariant forall j :: 0 <= j < i ==> fs[j].columns == stored[sorted[j]]
    {
      assert sorted[i] in NameSet(sorted);
      fs := fs + [Family(sorted[i], stored[sorted[i]])];
    }
  }

  /** Written and read back, the families are sorted by name; each has the columns it had. */
  method WriteAndRead(fs: seq<Family>) returns (r: seq<Family>)
    requires Unique(Heads(TagNames(fs)))
    ensures r == ReadFamilies(fs)
  {
    hide ColumnsOf, SortNames, Ascending;
    var stored := WriteFamilies(fs);
    r := SeqReadFamilies(stored);
    SameKeys(fs, r);
    forall i | 0 <= i < |r| ensures r[i] == ReadFamilies(fs)[i] {
      assert Heads(TagNames(r))[i] == r[i].name;
    }
  }

  lemma SameKeys(fs: seq<Family>, r: seq<Family>)
    requires Unique(Heads(TagNames(fs))) && Ascending(Heads(TagNames(r))) && KnownFamilies(r) == KnownFamilies(fs)
    ensures Heads(TagNames(r)) == SortNames(Heads(TagNames(fs))) && |ReadFamilies(fs)| == |r|
  {
    hide SortNames, Below;
    var a, b := Heads(TagNames(fs)), Heads(TagNames(r));
    SortNamesIs(a);
    forall i, j | 0 <= i < j < |b| ensures b[i] != b[j] {
      BelowIsStrict(b[i], b[j]);
    }
    SameNameSet(a, b);
    AscendingUnique(b, SortNames(a));
  }

  /** Lists without repetitions and with the same names are permutations of each other. */
  lemma SameNameSet(a: seq<string>, b: seq<string>)
    requires Unique(a) && Unique(b) && NameSet(a) == NameSet(b)
    ensures multiset(a) == multiset(b)
  {
    forall x ensures multiset(a)[x] == multiset(b)[x] {
      AtMostOnce(a, x);
      AtMostOnce(b, x);
      assert x in a <==> x in NameSet(a);
      assert x in b <==> x in NameSet(b);
      assert x in multiset(a) <==> x in a;
      assert x in multiset(b) <==> x in b;
    }
  }

  lemma {:induction false} ReadColumns(fs: seq<Family>, name: string)
    requires Unique(Heads(TagNames(fs)))
    ensures ColumnsOf(ReadFamilies(fs), name) == ColumnsOf(fs, name)
  {
    hide ColumnsOf, SortNames;
    var heads, r := Heads(TagNames(fs)), ReadFamilies(fs);
    var keys := SortNames(heads);
    SortNamesIs(heads);
    UniquePermuted(heads, keys);
    Collections.Permuted(heads, keys);
    assert Heads(TagNames(r)) == keys;
    if name in keys {
      var i :| 0 <= i < |keys| && keys[i] == name;
      ColumnsOfAt(r, i);
    } else {
      ColumnsOfMissing(r, name);
      ColumnsOfMissing(fs, name);
    }
  }

  lemma ReadNames(fs: seq<Family>)
    ensures TagNames(ReadFamilies(fs)) == AsReadTags(TagNames(fs))
  {
    hide SortNames, ColumnsOf, ColumnNamesOf, NameList;
    forall i | 0 <= i < |ReadFamilies(fs)| ensures TagNames(ReadFamilies(fs))[i] == AsReadTags(TagNames(fs))[i] {
      ColumnsOfNames(fs, ReadFamilies(fs)[i].name);
    }
  }

  /** A block read back holds the rows that were written, under the schema that the merges work with. */
  lemma ReadRows(sid: nat, ts: seq<int>, vs: seq<int>, fs: seq<Family>, cols: seq<Column>)
    requires |vs| == |ts| && Unique(Heads(TagNames(fs)))
    ensures RowsOf(sid, ts, vs, ReadFamilies(fs), cols) == RowsOf(sid, ts, vs, fs, cols)
    ensures SchemaOf(ReadFamilies(fs), cols) == AsRead(SchemaOf(fs, cols))
  {
    hide RowData, ReadFamilies, ColumnsOf, Cell, TagNames, NameList;
    ReadNames(fs);
    forall i: nat | i < |ts| ensures RowData(ReadFamilies(fs), cols, i) == RowData(fs, cols, i) {
      forall k ensures CellAt(ReadFamilies(fs), cols, k, i) == CellAt(fs, cols, k, i) {
        if k.0.Some? { ReadColumns(fs, k.0.value); }
      }
      SameRow(ReadFamilies(fs), cols, i, fs, cols, i);
    }
  }

  /** Two families, the second of which has the lesser name, are read the other way round. */
  lemma ReadSwapped(f: Family, g: Family)
    requires Below(g.name, f.name)
    ensures ReadFamilies([f, g]) == [g, f] && ReadFamilies([f]) == [f]
  {
    hide Below, SortNames, ColumnsOf;
    BelowIsStrict(g.name, f.name);
    SchemaGrowth.TwoSorted(g.name, f.name);
    assert Heads(TagNames([f, g])) == [f.name, g.name] && Heads(TagNames([f])) == [f.name];
    ColumnsOfAt([f, g], 0);
    ColumnsOfAt([f, g], 1);
    ColumnsOfAt([f], 0);
  }

  /**
    Families and columns that are only ever added at the end when they are written may still be lost: a
    block gains a column in an old family and a new family whose name comes first, so it is read with the
    new family in front, and in a full slice the append loses the column.
   */
  lemma ReadOrderLosesColumn(f: Family, f': Family, g: Family, exist: nat, m: nat)
    requires f.name == f'.name && Below(g.name, f.name) && DistinctTags([f]) && DistinctTags([f', g])
    requires NameList(f.columns) < NameList(f'.columns) && m > 0
    requires Filled(f'.columns, m) && Filled(g.columns, m)
    ensures SchemaGrowth.Continues(TagNames([f]), TagNames([f', g]))
    ensures ReadFamilies([f]) == [f]
    ensures AppendedTags([f], [0], 0, ReadFamilies([f', g]), exist, m) != JoinedTags([f], ReadFamilies([f', g]), exist, m)
  {
    hide AppendedTags, JoinedTags, ReadFamilies, Below, NameList;
    BelowIsStrict(g.name, f.name);
    ReadSwapped(f', g);
    ReadSwapped(f, g);
    var a, b := TagNames([f]), TagNames([g, f']);
    assert TagNames([f])[0] == FamilyNames(f.name, NameList(f.columns));
    assert TagNames([f', g])[0] == FamilyNames(f.name, NameList(f'.columns));
    SwappedDistinct(f', g);
    LateGain(f, f', g);
    AppendedTagsIff([f], [0], 0, [g, f'], exist, m);
  }

  lemma SwappedDistinct(f: Family, g: Family)
    requires DistinctTags([f, g])
    ensures DistinctTags([g, f])
  {
    hide NameList;
    var a, b := TagNames([f, g]), TagNames([g, f]);
    assert b[0] == a[1] && b[1] == a[0];
    assert Heads(a)[0] != Heads(a)[1];
  }

  lemma LateGain(f: Family, f': Family, g: Family)
    requires f.name == f'.name && f.name != g.name && NameList(f.columns) < NameList(f'.columns) && DistinctTags([f'])
    ensures !CleanTags(TagNames([f]), [0], 0, TagNames([g, f']))
  {
    hide NameList;
    var a, b := TagNames([f]), TagNames([g, f']);
    var n := |NameList(f.columns)|;
    assert Heads(a) == [f.name] && Heads(b) == [g.name, f.name] && Heads(b)[1..] == [f.name];
    assert IsLate(a, 0, b, f.name);
    SchemaGrowth.TwoFamilies(b[0], b[1], f.name);
    assert Unique(TagNames([f'])[0].columns);
    assert NameList(f'.columns)[n] in NameSet(NameList(f'.columns)) && NameList(f'.columns)[n] !in NameSet(NameList(f.columns));
    assert !FamilyFine(a[0].columns, 0, true, ColumnNamesOf(b, a[0].name));
  }
}
