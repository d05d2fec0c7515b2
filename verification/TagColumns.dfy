/**
  Appending the tag families of one block to those of another.

  The full path goes by name twice: through pointers to the families, taken before new families are
  added, and inside each family through pointers to its columns, taken before new columns are added.
  When the slice of families moves, a pointer leads to the family as it was: its list of columns
  still shares the columns themselves with the family that moved, so values appended to them arrive,
  but columns added to that list do not.  When the slice of columns moves, it is the values that are
  lost.  The fast path may give up in a later family after it has appended to all of an earlier one.
 */
module TagColumns {
  import opened Points
  import opened Schemas
  import opened Columns

  datatype Family = Family(name: string, columns: seq<Column>)

  function TagNames(fs: seq<Family>): seq<FamilyNames> {
    seq(|fs|, i requires 0 <= i < |fs| => FamilyNames(fs[i].name, NameList(fs[i].columns)))
  }

  function KnownFamilies(fs: seq<Family>): set<string> {
    NameSet(Heads(TagNames(fs)))
  }

  /** The columns of a family, none if there is no such family. */
  function ColumnsOf(fs: seq<Family>, name: string): seq<Column> {
    if fs == [] then [] else if fs[0].name == name then fs[0].columns else ColumnsOf(fs[1..], name)
  }

  ghost predicate DistinctTags(fs: seq<Family>) {
    UniqueTags(TagNames(fs))
  }

  ghost predicate FilledTags(fs: seq<Family>, n: nat) {
    forall i :: 0 <= i < |fs| ==> Filled(fs[i].columns, n)
  }

  // ---------- the join ----------

  function NewFamilies(bs: seq<Family>, exist: nat): seq<Family> {
    seq(|bs|, i requires 0 <= i < |bs| => Family(bs[i].name, NewCols(bs[i].columns, exist)))
  }

  function FreshFamilies(bs: seq<Family>, known: set<string>): seq<Family> {
    if bs == [] then [] else (if bs[0].name in known then [] else [bs[0]]) + FreshFamilies(bs[1..], known)
  }

  /** Each family joined with its counterpart, then the families that are new. */
  function JoinedTags(fs: seq<Family>, bs: seq<Family>, exist: nat, m: nat): seq<Family> {
    seq(|fs|, i requires 0 <= i < |fs| => Family(fs[i].name, Joined(fs[i].columns, ColumnsOf(bs, fs[i].name), exist, m)))
    + NewFamilies(FreshFamilies(bs, KnownFamilies(fs)), exist)
  }

  // ---------- what the code computes ----------

  /** A family reached through a live pointer, or through one that leads to the family as it was. */
  function FullFamily(cols: seq<Column>, room: nat, late: bool, cs: seq<Column>, exist: nat, m: nat): seq<Column> {
    if late then Extend(cols, Got(Names(cols), |cs|, cs, m)) else Full(cols, room, cs, exist, m)
  }

  function FullTags(fs: seq<Family>, rooms: seq<nat>, room: nat, bs: seq<Family>, exist: nat, m: nat): seq<Family>
    requires |rooms| == |fs|
  {
    seq(|fs|, i requires 0 <= i < |fs| =>
      Family(fs[i].name, FullFamily(fs[i].columns, rooms[i], IsLate(TagNames(fs), room, TagNames(bs), fs[i].name),
                                    ColumnsOf(bs, fs[i].name), exist, m)))
    + NewFamilies(FreshFamilies(bs, KnownFamilies(fs)), exist)
  }

  /** The families after the fast path, which stops at the first name or number of columns that differs. */
  function FastTags(fs: seq<Family>, bs: seq<Family>): (r: seq<Family>)
    requires |fs| == |bs|
    ensures |r| == |fs|
  {
    if fs == [] then []
    else
      var f, b := fs[0], bs[0];
      if f.name != b.name || |f.columns| != |b.columns| then fs
      else
        var k := Agree(f.columns, b.columns);
        [Family(f.name, Extend(f.columns, Taken(b.columns[..k])))]
        + if k == |b.columns| then FastTags(fs[1..], bs[1..]) else fs[1..]
  }

  function AppendedTags(fs: seq<Family>, rooms: seq<nat>, room: nat, bs: seq<Family>, exist: nat, m: nat): seq<Family>
    requires |rooms| == |fs|
  {
    if |fs| != |bs| then FullTags(fs, rooms, room, bs, exist, m)
    else if TagNames(fs) == TagNames(bs) then FastTags(fs, bs)
    else FullTags(FastTags(fs, bs), rooms, room, bs, exist, m)
  }

  // ---------- names ----------

  lemma DistinctIs(cols: seq<Column>)
    ensures Distinct(cols) <==> Unique(NameList(cols))
  {
    if Unique(NameList(cols)) {
      forall i, j | 0 <= i < j < |cols| ensures cols[i].name != cols[j].name {
        assert NameList(cols)[i] != NameList(cols)[j];
      }
    }
  }

  lemma {:induction false} ColumnsOfNames(fs: seq<Family>, name: string)
    ensures NameList(ColumnsOf(fs, name)) == ColumnNamesOf(TagNames(fs), name)
  {
    if fs != [] {
      ColumnsOfNames(fs[1..], name);
      assert TagNames(fs)[1..] == TagNames(fs[1..]);
    }
  }

  lemma {:induction false} ColumnsOfAt(fs: seq<Family>, i: nat)
    requires Unique(Heads(TagNames(fs))) && i < |fs|
    ensures ColumnsOf(fs, fs[i].name) == fs[i].columns
  {
    if i > 0 {
      assert Heads(TagNames(fs))[0] != Heads(TagNames(fs))[i];
      forall j, k | 0 <= j < k < |fs[1..]|
        ensures Heads(TagNames(fs[1..]))[j] != Heads(TagNames(fs[1..]))[k]
      {
        assert Heads(TagNames(fs))[j + 1] != Heads(TagNames(fs))[k + 1];
      }
      ColumnsOfAt(fs[1..], i - 1);
    }
  }

  lemma {:induction false} ColumnsOfFilled(fs: seq<Family>, n: nat, name: string)
    requires FilledTags(fs, n)
    ensures Filled(ColumnsOf(fs, name), n)
  {
    if fs != [] {
      assert forall i :: 0 <= i < |fs[1..]| ==> fs[1..][i] == fs[i + 1];
      ColumnsOfFilled(fs[1..], n, name);
    }
  }

  // ---------- one family ----------

  lemma {:induction false} NewColsEmpty(cs: seq<Column>, exist: nat)
    ensures NewCols(cs, exist) == [] <==> cs == []
  {
    NewColsIs(cs, exist);
  }

  lemma {:induction false} NoFreshIff(cs: seq<Column>, known: set<string>)
    ensures Fresh(cs, known) == [] <==> Names(cs) <= known
  {
    FreshIs(cs, known);
    if Names(cs) <= known {
      NothingFresh(cs, known);
    } else {
      var n :| n in Names(cs) && n !in known;
      var c :| c in cs && c.name == n;
      assert c in Fresh(cs, known);
    }
  }

  /** A late family is the join exactly when it gains no column, any other when no shared column is late. */
  lemma FullFamilyIff(cols: seq<Column>, room: nat, late: bool, cs: seq<Column>, exist: nat, m: nat)
    requires Filled(cs, m) && m > 0
    ensures FullFamily(cols, room, late, cs, exist, m) == Joined(cols, cs, exist, m)
       <==> FamilyFine(NameList(cols), room, late, NameList(cs))
  {
    hide Full, Joined, NoneLate, Filled, Extend, Got, NewCols, Fresh, Names, Additions;
    NamesAre(cols);
    NamesAre(cs);
    if late {
      LateFamily(cols, cs, exist, m);
    } else {
      FullIff(cols, room, cs, exist, m);
    }
  }

  lemma {:induction false} LateFamily(cols: seq<Column>, cs: seq<Column>, exist: nat, m: nat)
    ensures Extend(cols, Got(Names(cols), |cs|, cs, m)) == Joined(cols, cs, exist, m) <==> Names(cs) <= Names(cols)
  {
    hide Extend, Got, NewCols, Fresh, Names, FreshBefore, Additions;
    forall n | n in NameList(cs) && n in Names(cols) ensures FreshBefore(NameList(cs), Names(cols), n) <= |cs| {
      FreshBeforeBound(NameList(cs), Names(cols), n);
    }
    GotAll(cols, |cs|, cs, m);
    NewColsEmpty(Fresh(cs, Names(cols)), exist);
    NoFreshIff(cs, Names(cols));
    var a, b := Extend(cols, Additions(cols, cs, m)), NewCols(Fresh(cs, Names(cols)), exist);
    assert a + b == a <==> b == [] by {
      assert |a + b| == |a| + |b|;
    }
  }

  // ---------- the full path ----------

  /** The full path computes the join exactly when every family is fine. */
  lemma FullTagsIff(fs: seq<Family>, rooms: seq<nat>, room: nat, bs: seq<Family>, exist: nat, m: nat)
    requires |rooms| == |fs| && FilledTags(bs, m) && m > 0
    ensures FullTags(fs, rooms, room, bs, exist, m) == JoinedTags(fs, bs, exist, m)
       <==> FamiliesFine(TagNames(fs), rooms, room, TagNames(bs))
  {
    hide FullFamily, Joined, FamilyFine, IsLate, FilledTags, NewFamilies, FreshFamilies;
    var full, join := FullTags(fs, rooms, room, bs, exist, m), JoinedTags(fs, bs, exist, m);
    forall i | 0 <= i < |fs|
      ensures full[i] == join[i]
         <==> FamilyFine(TagNames(fs)[i].columns, rooms[i], IsLate(TagNames(fs), room, TagNames(bs), fs[i].name),
                         ColumnNamesOf(TagNames(bs), fs[i].name))
    {
      ColumnsOfFilled(bs, m, fs[i].name);
      ColumnsOfNames(bs, fs[i].name);
      FullFamilyIff(fs[i].columns, rooms[i], IsLate(TagNames(fs), room, TagNames(bs), fs[i].name),
                    ColumnsOf(bs, fs[i].name), exist, m);
    }
    if FamiliesFine(TagNames(fs), rooms, room, TagNames(bs)) {
      assert forall i :: 0 <= i < |fs| ==> full[i] == join[i];
      assert full == join;
    } else {
      var i :| 0 <= i < |fs| && !FamilyFine(TagNames(fs)[i].columns, rooms[i],
        IsLate(TagNames(fs), room, TagNames(bs), TagNames(fs)[i].name), ColumnNamesOf(TagNames(bs), TagNames(fs)[i].name));
      assert full[i] != join[i];
    }
  }

  // ---------- the fast path ----------

  lemma {:induction false} NoFreshFamilies(bs: seq<Family>, known: set<string>)
    requires NameSet(Heads(TagNames(bs))) <= known
    ensures FreshFamilies(bs, known) == []
  {
    if bs != [] {
      assert Heads(TagNames(bs))[0] == bs[0].name;
      forall n | n in Heads(TagNames(bs[1..])) ensures n in Heads(TagNames(bs)) {
        var i :| 0 <= i < |bs[1..]| && Heads(TagNames(bs[1..]))[i] == n;
        assert Heads(TagNames(bs))[i + 1] == n;
      }
      NoFreshFamilies(bs[1..], known);
    }
  }

  lemma TagNamesAt(fs: seq<Family>, bs: seq<Family>, i: nat)
    requires TagNames(fs) == TagNames(bs) && i < |fs|
    ensures |fs| == |bs| && fs[i].name == bs[i].name && NameList(fs[i].columns) == NameList(bs[i].columns)
    ensures |fs[i].columns| == |bs[i].columns|
  {
    assert |TagNames(fs)| == |fs| && |TagNames(bs)| == |bs|;
    assert TagNames(fs)[i] == TagNames(bs)[i];
    assert |NameList(fs[i].columns)| == |fs[i].columns| && |NameList(bs[i].columns)| == |bs[i].columns|;
  }

  lemma {:induction false} FastAt(fs: seq<Family>, bs: seq<Family>, i: nat)
    requires TagNames(fs) == TagNames(bs) && |fs| == |bs| && i < |fs|
    ensures FastTags(fs, bs)[i] == Family(fs[i].name, Extend(fs[i].columns, Taken(bs[i].columns)))
  {
    hide Extend, Taken;
    TagNamesAt(fs, bs, 0);
    assert Agree(fs[0].columns, bs[0].columns) == |bs[0].columns|;
    assert bs[0].columns[..|bs[0].columns|] == bs[0].columns;
    if i > 0 {
      assert TagNames(fs[1..]) == TagNames(fs)[1..] && TagNames(bs[1..]) == TagNames(bs)[1..];
      FastAt(fs[1..], bs[1..], i - 1);
    }
  }

  /** On equal names the fast path computes the join. */
  lemma {:induction false} FastTagsIsJoin(fs: seq<Family>, bs: seq<Family>, exist: nat, m: nat)
    requires DistinctTags(fs) && DistinctTags(bs) && TagNames(fs) == TagNames(bs) && |fs| == |bs|
    ensures FastTags(fs, bs) == JoinedTags(fs, bs, exist, m)
  {
    hide Extend, Taken, Joined, FastTags, FreshFamilies;
    NoFreshFamilies(bs, KnownFamilies(fs));
    forall i | 0 <= i < |fs| ensures FastTags(fs, bs)[i] == JoinedTags(fs, bs, exist, m)[i] {
      FastAt(fs, bs, i);
      TagNamesAt(fs, bs, i);
      ColumnsOfAt(bs, i);
      DistinctIs(fs[i].columns);
      DistinctIs(bs[i].columns);
      assert TagNames(fs)[i].columns == NameList(fs[i].columns) && TagNames(bs)[i].columns == NameList(bs[i].columns);
      FastIsJoin(fs[i].columns, bs[i].columns, exist, m);
    }
  }

  lemma {:induction false} QuietFast(fs: seq<Family>, bs: seq<Family>)
    requires |fs| == |bs| && !Wrote(TagNames(fs), TagNames(bs))
    ensures FastTags(fs, bs) == fs
  {
    hide Extend, Taken;
    if fs != [] {
      var a, b := TagNames(fs), TagNames(bs);
      assert |a[0].columns| == |fs[0].columns| && |b[0].columns| == |bs[0].columns|;
      assert a[1..] == TagNames(fs[1..]) && b[1..] == TagNames(bs[1..]);
      if fs[0].name == bs[0].name && |fs[0].columns| == |bs[0].columns| {
        assert Agree(fs[0].columns, bs[0].columns) == 0;
        NothingTaken(fs[0].columns, bs[0].columns);
        assert fs == [fs[0]] + fs[1..];
        if |bs[0].columns| == 0 {
          assert a[0].columns == [];
          QuietFast(fs[1..], bs[1..]);
        }
      }
    }
  }

  /** Where the fast path has written: a family it shares with the other block, whose first columns agree. */
  lemma {:induction false} WroteAt(fs: seq<Family>, bs: seq<Family>) returns (i: nat, k: nat)
    requires |fs| == |bs| && Wrote(TagNames(fs), TagNames(bs))
    ensures i < |fs| && fs[i].name == bs[i].name && 0 < k <= |bs[i].columns| && k == Agree(fs[i].columns, bs[i].columns)
    ensures FastTags(fs, bs)[i] == Family(fs[i].name, Extend(fs[i].columns, Taken(bs[i].columns[..k])))
  {
    hide Extend, Taken;
    var a, b := TagNames(fs), TagNames(bs);
    assert |a[0].columns| == |fs[0].columns| && |b[0].columns| == |bs[0].columns|;
    if Matching(a[0].columns, b[0].columns) > 0 {
      i, k := 0, Agree(fs[0].columns, bs[0].columns);
    } else {
      assert a[1..] == TagNames(fs[1..]) && b[1..] == TagNames(bs[1..]);
      var j;
      j, k := WroteAt(fs[1..], bs[1..]);
      i := j + 1;
      assert |bs[0].columns| == 0;
    }
  }

  /** A family the fast path has written to has the values of its first column twice after the full path. */
  lemma {:induction false} DoubledFamily(cols: seq<Column>, room: nat, late: bool, cs: seq<Column>, exist: nat, m: nat, k: nat)
    requires Filled(cs, m) && m > 0 && 0 < k <= |cs| && k == Agree(cols, cs)
    ensures FullFamily(Extend(cols, Taken(cs[..k])), room, late, cs, exist, m) != Joined(cols, cs, exist, m)
  {
    hide Extend, NewCols, Fresh, Filled, Names, Got, Taken, Joined;
    ExtendNames(cols, Taken(cs[..k]));
    if late {
      AppendedTwice(cols, |cs|, cs, exist, m, k, []);
      var e := Extend(Extend(cols, Taken(cs[..k])), Got(Names(cols), |cs|, cs, m));
      assert e + [] == e;
    } else {
      AppendedTwice(cols, room, cs, exist, m, k, NewCols(Fresh(cs, Names(cols)), exist));
    }
  }

  lemma {:induction false} DoubledTags(fs: seq<Family>, rooms: seq<nat>, room: nat, bs: seq<Family>, exist: nat, m: nat)
    requires |rooms| == |fs| == |bs| && DistinctTags(bs) && FilledTags(bs, m) && m > 0
    requires Wrote(TagNames(fs), TagNames(bs))
    ensures FullTags(FastTags(fs, bs), rooms, room, bs, exist, m) != JoinedTags(fs, bs, exist, m)
  {
    hide FullFamily, Joined, IsLate, Extend, Taken, FastTags, NewFamilies, FreshFamilies;
    var i, k := WroteAt(fs, bs);
    ColumnsOfAt(bs, i);
    var now := FastTags(fs, bs);
    DoubledFamily(fs[i].columns, rooms[i], IsLate(TagNames(now), room, TagNames(bs), fs[i].name), bs[i].columns, exist, m, k);
    assert FullTags(now, rooms, room, bs, exist, m)[i] != JoinedTags(fs, bs, exist, m)[i];
  }

  /** Appending tag families is appending rows if and only if the families are clean. */
  lemma AppendedTagsIff(fs: seq<Family>, rooms: seq<nat>, room: nat, bs: seq<Family>, exist: nat, m: nat)
    requires |rooms| == |fs| && DistinctTags(fs) && DistinctTags(bs) && FilledTags(bs, m) && m > 0
    ensures AppendedTags(fs, rooms, room, bs, exist, m) == JoinedTags(fs, bs, exist, m)
       <==> CleanTags(TagNames(fs), rooms, room, TagNames(bs))
  {
    hide FullTags, JoinedTags, FastTags, FamiliesFine, DistinctTags, FilledTags, Wrote;
    var a, b := TagNames(fs), TagNames(bs);
    assert |a| == |fs| && |b| == |bs|;
    if |fs| != |bs| {
      FullTagsIff(fs, rooms, room, bs, exist, m);
    } else if a == b {
      FastTagsIsJoin(fs, bs, exist, m);
    } else if Wrote(a, b) {
      DoubledTags(fs, rooms, room, bs, exist, m);
    } else {
      QuietFast(fs, bs);
      FullTagsIff(fs, rooms, room, bs, exist, m);
    }
  }

  /** A family that gains a column, after a new family, in a full slice: its values arrive, the column does not. */
  lemma LateFamilyLosesColumn(v: Option<Bytes>)
    ensures var fs := [Family("F", [Column("x", [v])])];
      var bs := [Family("G", []), Family("F", [Column("x", [v]), Column("y", [v])])];
      && AppendedTags(fs, [0], 0, bs, 1, 1) != JoinedTags(fs, bs, 1, 1)
      && AppendedTags(fs, [0], 0, bs, 1, 1)[0] == Family("F", [Column("x", [v, v])])
  {
    hide FullFamily, Joined;
    var fs := [Family("F", [Column("x", [v])])];
    var cs := [Column("x", [v]), Column("y", [v])];
    var bs := [Family("G", []), Family("F", cs)];
    WitnessIsLate(v);
    WitnessFamily(v);
    assert bs[1..] == [Family("F", cs)];
    assert "G" != "F" by { assert "G"[0] != "F"[0]; }
    assert ColumnsOf(bs, "F") == cs;
    assert AppendedTags(fs, [0], 0, bs, 1, 1)[0] != JoinedTags(fs, bs, 1, 1)[0];
  }

  lemma WitnessIsLate(v: Option<Bytes>)
    ensures IsLate(TagNames([Family("F", [Column("x", [v])])]), 0,
                   TagNames([Family("G", []), Family("F", [Column("x", [v]), Column("y", [v])])]), "F")
  {
    var a := TagNames([Family("F", [Column("x", [v])])]);
    var b := TagNames([Family("G", []), Family("F", [Column("x", [v]), Column("y", [v])])]);
    assert "G" != "F" by { assert "G"[0] != "F"[0]; }
    assert Heads(a) == ["F"] && Heads(b) == ["G", "F"] && ["G", "F"][1..] == ["F"];
  }

  lemma WitnessFamily(v: Option<Bytes>)
    ensures var cols, cs := [Column("x", [v])], [Column("x", [v]), Column("y", [v])];
      && FullFamily(cols, 0, true, cs, 1, 1) == [Column("x", [v, v])]
      && FullFamily(cols, 0, true, cs, 1, 1) != Joined(cols, cs, 1, 1)
  {
    hide Extend, Joined;
    var cols, cs := [Column("x", [v])], [Column("x", [v]), Column("y", [v])];
    assert "x" != "y" by { assert "x"[0] != "y"[0]; }
    assert cols[0] in cols && cs[0] in cs && cs[1] in cs;
    assert Names(cols) == {"x"} && "x" in Names(cs) && "y" in Names(cs);
    LateFamily(cols, cs, 1, 1);
    assert NameList(cs)[0] == "x";
    assert Got(Names(cols), 2, cs, 1) == map["x" := [v]];
    ExtendIs(cols, map["x" := [v]]);
    assert [v] + [v] == [v, v];
  }
}
