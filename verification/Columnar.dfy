/**
  A block as it is laid out, timestamps, versions and columns, and the rows it holds.  Appending the
  columns of a block whose schema fits appends its rows, however little room the slices have.
 */
module Columnar {
  import opened Points
  import opened Schemas
  import opened Joins
  import opened Columns
  import opened TagColumns
  import opened TagAppend
  import Parts
  import BlockMerge

  // ---------- the rows of columns ----------

  type Key = (Option<string>, string)

  function CellAt(fs: seq<Family>, cols: seq<Column>, k: Key, i: nat): Option<Bytes> {
    match k.0
    case None => Cell(cols, k.1, i)
    case Some(f) => Cell(ColumnsOf(fs, f), k.1, i)
  }

  function Keys(fs: seq<Family>, cols: seq<Column>): set<Key> {
    (set i, n | 0 <= i < |fs| && n in Names(fs[i].columns) :: (Some(fs[i].name), n)) + (set n | n in Names(cols) :: (None, n))
  }

  function RowData(fs: seq<Family>, cols: seq<Column>, i: nat): Payload {
    map k | k in Keys(fs, cols) && CellAt(fs, cols, k, i).Some? :: CellAt(fs, cols, k, i).value
  }

  function RowsOf(sid: nat, timestamps: seq<int>, versions: seq<int>, fs: seq<Family>, cols: seq<Column>): seq<Point>
    requires |versions| == |timestamps|
  {
    seq(|timestamps|, i requires 0 <= i < |timestamps| => Point(sid, timestamps[i], versions[i], RowData(fs, cols, i)))
  }

  lemma {:induction false} HasColumns(fs: seq<Family>, name: string) returns (i: nat)
    requires ColumnsOf(fs, name) != []
    ensures i < |fs| && fs[i].name == name && ColumnsOf(fs, name) == fs[i].columns
  {
    if fs[0].name == name {
      i := 0;
    } else {
      var j := HasColumns(fs[1..], name);
      i := j + 1;
    }
  }

  /** A cell that is not nil has its column among the keys. */
  lemma CellHasKey(fs: seq<Family>, cols: seq<Column>, k: Key, i: nat)
    requires CellAt(fs, cols, k, i).Some?
    ensures k in Keys(fs, cols)
  {
    hide Names;
    match k.0
    case None =>
      if k.1 !in Names(cols) { ValuesOfMissing(cols, k.1); }
    case Some(f) =>
      var cs := ColumnsOf(fs, f);
      if k.1 !in Names(cs) { ValuesOfMissing(cs, k.1); }
      var j := HasColumns(fs, f);
      assert (Some(fs[j].name), k.1) in Keys(fs, cols);
  }

  /** Rows with the same cells are the same. */
  lemma SameRow(fs: seq<Family>, cols: seq<Column>, i: nat, fs': seq<Family>, cols': seq<Column>, i': nat)
    requires forall k :: CellAt(fs, cols, k, i) == CellAt(fs', cols', k, i')
    ensures RowData(fs, cols, i) == RowData(fs', cols', i')
  {
    hide CellAt, Keys;
    forall k | CellAt(fs, cols, k, i).Some? ensures k in Keys(fs, cols) && k in Keys(fs', cols') {
      assert CellAt(fs, cols, k, i) == CellAt(fs', cols', k, i');
      CellHasKey(fs, cols, k, i);
      CellHasKey(fs', cols', k, i');
    }
    assert forall k :: k in RowData(fs, cols, i) <==> k in RowData(fs', cols', i');
  }

  // ---------- the rows of a join ----------

  lemma {:induction false} FreshColumns(bs: seq<Family>, known: set<string>, name: string, exist: nat)
    requires name !in known
    ensures ColumnsOf(NewFamilies(FreshFamilies(bs, known), exist), name) == NewCols(ColumnsOf(bs, name), exist)
  {
    hide NewCols;
    if bs == [] {
      NewColsIs([], exist);
    } else {
      FreshColumns(bs[1..], known, name, exist);
      var rest := FreshFamilies(bs[1..], known);
      if bs[0].name in known {
        assert FreshFamilies(bs, known) == rest;
      } else {
        assert FreshFamilies(bs, known) == [bs[0]] + rest;
        assert NewFamilies([bs[0]] + rest, exist)[1..] == NewFamilies(rest, exist);
      }
    }
  }

  lemma {:induction false} ColumnsOfConcat(a: seq<Family>, b: seq<Family>, name: string)
    ensures ColumnsOf(a + b, name) == if name in Heads(TagNames(a)) then ColumnsOf(a, name) else ColumnsOf(b, name)
  {
    if a == [] {
      assert a + b == b;
    } else {
      ColumnsOfConcat(a[1..], b, name);
      assert (a + b)[1..] == a[1..] + b;
      var names := Heads(TagNames(a));
      assert names[0] == a[0].name && names[1..] == Heads(TagNames(a[1..]));
    }
  }

  /** Family by family, the join of tags is the join of columns. */
  lemma {:induction false} JoinedColumns(fs: seq<Family>, bs: seq<Family>, exist: nat, m: nat, name: string)
    requires Unique(Heads(TagNames(fs)))
    ensures ColumnsOf(JoinedTags(fs, bs, exist, m), name) == Joined(ColumnsOf(fs, name), ColumnsOf(bs, name), exist, m)
  {
    hide Joined, ColumnsOf, FreshFamilies, NewFamilies;
    var shared := JoinedTags(fs, bs, exist, m)[..|fs|];
    var added := NewFamilies(FreshFamilies(bs, KnownFamilies(fs)), exist);
    assert JoinedTags(fs, bs, exist, m) == shared + added;
    assert Heads(TagNames(shared)) == Heads(TagNames(fs));
    ColumnsOfConcat(shared, added, name);
    if name in Heads(TagNames(fs)) {
      var i :| 0 <= i < |fs| && Heads(TagNames(fs))[i] == name;
      ColumnsOfAt(fs, i);
      ColumnsOfAt(shared, i);
    } else {
      ColumnsOfMissing(fs, name);
      FreshColumns(bs, KnownFamilies(fs), name, exist);
      JoinedNothing(ColumnsOf(bs, name), exist, m);
    }
  }

  lemma {:induction false} JoinedNothing(cs: seq<Column>, exist: nat, m: nat)
    ensures Joined([], cs, exist, m) == NewCols(cs, exist)
  {
    hide Extend, NewCols, Fresh;
    AllFresh(cs);
    ExtendIs([], Additions([], cs, m));
  }

  lemma {:induction false} SlicedValues(cs: seq<Column>, idx: nat, offset: nat, n: string)
    requires idx <= offset && Reaches(cs, offset)
    ensures n in Names(cs) ==>
      |ValuesOf(cs, n)| >= offset && ValuesOf(Sliced(cs, idx, offset), n) == ValuesOf(cs, n)[idx..offset]
    ensures n !in Names(cs) ==> ValuesOf(Sliced(cs, idx, offset), n) == ValuesOf(cs, n) == []
  {
    if cs != [] {
      assert cs[0] in cs && forall c :: c in cs[1..] ==> c in cs;
      SlicedValues(cs[1..], idx, offset, n);
      NamesHead(cs);
    }
  }

  lemma {:induction false} SlicedCell(cs: seq<Column>, idx: nat, offset: nat, n: string, i: nat)
    requires idx <= offset && Reaches(cs, offset) && i < offset - idx
    ensures Cell(Sliced(cs, idx, offset), n, i) == Cell(cs, n, idx + i)
  {
    hide Sliced, ValuesOf, Names;
    SlicedValues(cs, idx, offset, n);
  }

  lemma {:induction false} SlicedColumns(bs: seq<Family>, idx: nat, offset: nat, name: string)
    requires idx <= offset && ReachesTags(bs, offset)
    ensures Reaches(ColumnsOf(bs, name), offset)
    ensures ColumnsOf(SlicedTags(bs, idx, offset), name) == Sliced(ColumnsOf(bs, name), idx, offset)
  {
    hide Sliced;
    if bs == [] {
      SlicedNone(idx, offset);
    } else {
      assert forall i :: 0 <= i < |bs[1..]| ==> bs[1..][i] == bs[i + 1];
      SlicedColumns(bs[1..], idx, offset, name);
      assert SlicedTags(bs, idx, offset)[1..] == SlicedTags(bs[1..], idx, offset);
    }
  }

  /** Every cell of the join is that of the row it belongs to. */
  lemma {:induction false} JoinedCellAt(fs: seq<Family>, cols: seq<Column>, exist: nat, bfs: seq<Family>, bcols: seq<Column>, idx: nat,
                     offset: nat, k: Key, i: nat)
    requires Unique(Heads(TagNames(fs))) && FilledTags(fs, exist) && Filled(cols, exist)
    requires idx <= offset && ReachesTags(bfs, offset) && Reaches(bcols, offset) && i < exist + (offset - idx)
    ensures CellAt(JoinedTags(fs, SlicedTags(bfs, idx, offset), exist, offset - idx),
                   Joined(cols, Sliced(bcols, idx, offset), exist, offset - idx), k, i)
         == if i < exist then CellAt(fs, cols, k, i) else CellAt(bfs, bcols, k, idx + i - exist)
  {
    hide Joined, JoinedTags, Cell, ColumnsOf, Sliced, SlicedTags, Filled, FilledTags;
    match k.0
    case None =>
      SlicedIs(bcols, idx, offset);
      JoinedCells(cols, Sliced(bcols, idx, offset), exist, offset - idx, k.1, i);
      if i >= exist { SlicedCell(bcols, idx, offset, k.1, i - exist); }
    case Some(f) =>
      SlicedColumns(bfs, idx, offset, f);
      SlicedIs(ColumnsOf(bfs, f), idx, offset);
      JoinedColumns(fs, SlicedTags(bfs, idx, offset), exist, offset - idx, f);
      ColumnsOfFilled(fs, exist, f);
      JoinedCells(ColumnsOf(fs, f), Sliced(ColumnsOf(bfs, f), idx, offset), exist, offset - idx, k.1, i);
      if i >= exist { SlicedCell(ColumnsOf(bfs, f), idx, offset, k.1, i - exist); }
  }

  /** Joining columns is appending rows. */
  lemma {:induction false} JoinedRows(sid: nat, ts: seq<int>, vs: seq<int>, fs: seq<Family>, cols: seq<Column>,
                   bts: seq<int>, bvs: seq<int>, bfs: seq<Family>, bcols: seq<Column>, idx: nat, offset: nat)
    requires |vs| == |ts| && |bvs| == |bts| && idx <= offset <= |bts|
    requires Unique(Heads(TagNames(fs))) && FilledTags(fs, |ts|) && Filled(cols, |ts|)
    requires ReachesTags(bfs, offset) && Reaches(bcols, offset)
    ensures RowsOf(sid, ts + bts[idx..offset], vs + bvs[idx..offset],
                   JoinedTags(fs, SlicedTags(bfs, idx, offset), |ts|, offset - idx),
                   Joined(cols, Sliced(bcols, idx, offset), |ts|, offset - idx))
         == RowsOf(sid, ts, vs, fs, cols) + RowsOf(sid, bts, bvs, bfs, bcols)[idx..offset]
  {
    hide Joined, JoinedTags, CellAt, RowData, Sliced, SlicedTags, Filled, FilledTags, ReachesTags, Reaches;
    var tags := JoinedTags(fs, SlicedTags(bfs, idx, offset), |ts|, offset - idx);
    var fields := Joined(cols, Sliced(bcols, idx, offset), |ts|, offset - idx);
    forall i: nat | i < |ts| + (offset - idx)
      ensures RowData(tags, fields, i)
           == if i < |ts| then RowData(fs, cols, i) else RowData(bfs, bcols, idx + i - |ts|)
    {
      forall k
        ensures CellAt(tags, fields, k, i)
             == if i < |ts| then CellAt(fs, cols, k, i) else CellAt(bfs, bcols, k, idx + i - |ts|)
      {
        JoinedCellAt(fs, cols, |ts|, bfs, bcols, idx, offset, k, i);
      }
      if i < |ts| {
        SameRow(tags, fields, i, fs, cols, i);
      } else {
        SameRow(tags, fields, i, bfs, bcols, idx + i - |ts|);
      }
    }
  }

  // ---------- the names of a join ----------

  lemma {:induction false} FreshNameList(cs: seq<Column>, known: set<string>)
    ensures NameList(Fresh(cs, known)) == FreshNames(NameList(cs), known)
  {
    if cs != [] {
      FreshNameList(cs[1..], known);
      assert NameList(cs)[0] == cs[0].name && NameList(cs)[1..] == NameList(cs[1..]);
      var rest := Fresh(cs[1..], known);
      assert NameList([cs[0]] + rest) == [cs[0].name] + NameList(rest);
    }
  }

  lemma JoinedNames(cols: seq<Column>, cs: seq<Column>, exist: nat, m: nat)
    ensures NameList(Joined(cols, cs, exist, m)) == JoinNames(NameList(cols), NameList(cs))
  {
    hide Extend, NewCols, Fresh, Names, FreshNames;
    var more, added := Additions(cols, cs, m), Fresh(cs, Names(cols));
    ExtendIs(cols, more);
    NewColsIs(added, exist);
    assert NameList(Extend(cols, more)) == NameList(cols);
    assert NameList(NewCols(added, exist)) == NameList(added);
    assert NameList(Joined(cols, cs, exist, m)) == NameList(cols) + NameList(added);
    NamesAre(cols);
    FreshNameList(cs, Names(cols));
  }

  lemma {:induction false} JoinedFilled(cols: seq<Column>, cs: seq<Column>, exist: nat, m: nat)
    requires Filled(cols, exist) && Filled(cs, m)
    ensures Filled(Joined(cols, cs, exist, m), exist + m)
  {
    hide Extend, NewCols, Fresh, Names, ValuesOf;
    var more, added := Additions(cols, cs, m), Fresh(cs, Names(cols));
    ExtendIs(cols, more);
    NewColsIs(added, exist);
    FreshIs(cs, Names(cols));
    NilsLength(exist);
    NilsLength(m);
    forall i | 0 <= i < |cols| ensures |Extend(cols, more)[i].values| == exist + m {
      assert cols[i] in cols;
      NamesAre(cols);
      assert NameList(cols)[i] in NameSet(NameList(cols));
      if cols[i].name in Names(cs) { ValuesLength(cs, m, cols[i].name); }
    }
    forall i | 0 <= i < |added| ensures |NewCols(added, exist)[i].values| == exist + m {
      assert added[i] in added;
    }
  }

  lemma {:induction false} FreshTagNames(bs: seq<Family>, known: set<string>)
    ensures TagNames(FreshFamilies(bs, known)) == FreshFamilyNames(TagNames(bs), known)
  {
    hide NameList;
    if bs != [] {
      FreshTagNames(bs[1..], known);
      assert TagNames(bs)[0] == FamilyNames(bs[0].name, NameList(bs[0].columns));
      assert TagNames(bs)[1..] == TagNames(bs[1..]);
      var rest := FreshFamilies(bs[1..], known);
      assert TagNames([bs[0]] + rest) == [TagNames(bs)[0]] + TagNames(rest);
    }
  }

  /** The names of joined tags are the joined names. */
  lemma {:induction false} JoinedTagNames(fs: seq<Family>, bs: seq<Family>, exist: nat, m: nat)
    ensures TagNames(JoinedTags(fs, bs, exist, m)) == JoinTags(TagNames(fs), TagNames(bs))
  {
    hide Joined, ColumnsOf, FreshFamilies, NewFamilies, FreshFamilyNames, ColumnNamesOf, NameList, JoinNames;
    var added := FreshFamilies(bs, KnownFamilies(fs));
    var all, names := JoinedTags(fs, bs, exist, m), JoinTags(TagNames(fs), TagNames(bs));
    NewFamilyNames(added, exist);
    FreshTagNames(bs, KnownFamilies(fs));
    assert |TagNames(added)| == |added|;
    forall i | 0 <= i < |all| ensures TagNames(all)[i] == names[i] {
      if i < |fs| {
        JoinedNames(fs[i].columns, ColumnsOf(bs, fs[i].name), exist, m);
        ColumnsOfNames(bs, fs[i].name);
      } else {
        assert TagNames(all)[i] == TagNames(NewFamilies(added, exist))[i - |fs|];
      }
    }
  }

  lemma NewFamilyNames(bs: seq<Family>, exist: nat)
    ensures TagNames(NewFamilies(bs, exist)) == TagNames(bs) && |NewFamilies(bs, exist)| == |bs|
  {
    hide NewCols;
    forall i | 0 <= i < |bs| ensures NameList(NewCols(bs[i].columns, exist)) == NameList(bs[i].columns) {
      NewColsIs(bs[i].columns, exist);
    }
  }

  lemma {:induction false} JoinedTagsFilled(fs: seq<Family>, bs: seq<Family>, exist: nat, m: nat)
    requires FilledTags(fs, exist) && FilledTags(bs, m)
    ensures FilledTags(JoinedTags(fs, bs, exist, m), exist + m)
  {
    hide Joined, ColumnsOf, FreshFamilies, Filled, NewCols;
    forall i | 0 <= i < |fs| ensures Filled(Joined(fs[i].columns, ColumnsOf(bs, fs[i].name), exist, m), exist + m) {
      ColumnsOfFilled(bs, m, fs[i].name);
      JoinedFilled(fs[i].columns, ColumnsOf(bs, fs[i].name), exist, m);
    }
    var added := FreshFamilies(bs, KnownFamilies(fs));
    forall i | 0 <= i < |added| ensures Filled(NewCols(added[i].columns, exist), exist + m) {
      FreshFamiliesAre(bs, KnownFamilies(fs), i);
      NewFilled(added[i].columns, exist, m);
    }
  }

  lemma {:induction false} NewFilled(cs: seq<Column>, exist: nat, m: nat)
    requires Filled(cs, m)
    ensures Filled(NewCols(cs, exist), exist + m)
  {
    hide NewCols;
    NewColsIs(cs, exist);
    NilsLength(exist);
    forall i | 0 <= i < |cs| ensures |NewCols(cs, exist)[i].values| == exist + m {
      assert cs[i] in cs;
    }
  }

  // ---------- the block ----------

  function SchemaOf(fs: seq<Family>, cols: seq<Column>): Schema {
    Schema(TagNames(fs), NameList(cols))
  }

  lemma {:induction false} SlicedSchema(fs: seq<Family>, cols: seq<Column>, idx: nat, offset: nat)
    requires idx <= offset && ReachesTags(fs, offset) && Reaches(cols, offset)
    ensures SchemaOf(SlicedTags(fs, idx, offset), Sliced(cols, idx, offset)) == SchemaOf(fs, cols)
    ensures FilledTags(SlicedTags(fs, idx, offset), offset - idx) && Filled(Sliced(cols, idx, offset), offset - idx)
  {
    hide Sliced;
    SlicedTagsAre(fs, idx, offset);
    SlicedIs(cols, idx, offset);
    assert NameList(Sliced(cols, idx, offset)) == NameList(cols);
  }

  /** The join of two blocks has the joined schema, and a value for every row in every column. */
  lemma JoinedSchema(fs: seq<Family>, cols: seq<Column>, bfs: seq<Family>, bcols: seq<Column>, exist: nat, m: nat)
    requires FilledTags(fs, exist) && Filled(cols, exist) && FilledTags(bfs, m) && Filled(bcols, m)
    ensures SchemaOf(JoinedTags(fs, bfs, exist, m), Joined(cols, bcols, exist, m))
         == Join(SchemaOf(fs, cols), SchemaOf(bfs, bcols))
    ensures FilledTags(JoinedTags(fs, bfs, exist, m), exist + m) && Filled(Joined(cols, bcols, exist, m), exist + m)
  {
    hide TagNames, NameList, Joined, JoinedTags, Filled, FilledTags;
    JoinedNames(cols, bcols, exist, m);
    JoinedTagNames(fs, bfs, exist, m);
    JoinedFilled(cols, bcols, exist, m);
    JoinedTagsFilled(fs, bfs, exist, m);
  }

  class ColumnBlock {
    var timestamps: seq<int>
    var versions: seq<int>
    const tags: Tags
    const fields: Fields
    var idx: nat

    constructor ()
      ensures Valid() && timestamps == [] && idx == 0 && Names() == NO_COLUMNS && fresh(tags) && fresh(fields)
    {
      timestamps, versions, idx := [], [], 0;
      tags := new Tags([], [], 0);
      fields := new Fields([], 0);
    }

    ghost predicate Valid()
      reads this, tags, fields
    {
      && |versions| == |timestamps| && tags.Valid() && fields.Valid()
      && FilledTags(tags.families, |timestamps|) && Filled(fields.columns, |timestamps|)
    }

    function Rows(sid: nat): seq<Point>
      requires |versions| == |timestamps|
      reads this, tags, fields
    {
      RowsOf(sid, timestamps, versions, tags.families, fields.columns)
    }

    function Names(): Schema
      reads tags, fields
    {
      SchemaOf(tags.families, fields.columns)
    }

    /** The room left in the slices. */
    ghost function RoomLeft(): Room
      requires tags.Valid() && fields.Valid()
      reads tags, fields
    {
      Room(tags.cap - |tags.families|, RoomByName(TagNames(tags.families), tags.Rooms()), fields.cap - |fields.columns|)
    }

    /** The tags, then the fields; both appends are clean. */
    method AppendColumns(b: ColumnBlock, offset: nat)
      requires b != this && b.tags != tags && b.fields != fields
      requires Valid() && b.Valid() && b.idx < offset <= |b.timestamps| && CleanAt(Names(), RoomLeft(), b.Names())
      modifies tags, fields
      ensures tags.Fit() && |fields.columns| <= fields.cap
      ensures JoinOf(old(tags.families), old(fields.columns), b.tags.families, b.fields.columns, b.idx, offset,
                     |timestamps|, tags.families, fields.columns)
    {
      hide JoinedTags, Joined, SlicedTags, Sliced, CleanTags, Clean;
      ghost var fs, cols, bfs, bcols := tags.families, fields.columns, b.tags.families, b.fields.columns;
      FilledReaches(bfs, bcols, |b.timestamps|, offset);
      SlicedSchema(bfs, bcols, b.idx, offset);
      tags.RoomsLength();
      TagNamesLength(fs);
      RoomsByName(TagNames(fs), tags.Rooms());
      tags.Append(b.tags.families, b.idx, offset, |timestamps|);
      fields.Append(b.fields.columns, b.idx, offset, |timestamps|);
    }

    /**
      append, on the columns: if it is clean for the room that the slices have, the rows of `b` from its
      cursor to `offset` are appended.
     */
    method Append(b: ColumnBlock, offset: nat)
      requires b != this && b.tags != tags && b.fields != fields
      requires Valid() && b.Valid() && offset <= |b.timestamps|
      requires b.idx < offset ==> idx < offset && CleanAt(Names(), RoomLeft(), b.Names())
      modifies this, tags, fields
      ensures Valid() && idx == old(idx)
      ensures offset <= b.idx ==> Names() == old(Names()) && forall sid :: Rows(sid) == old(Rows(sid))
      ensures b.idx < offset ==>
        Names() == Join(old(Names()), b.Names()) && forall sid :: Rows(sid) == old(Rows(sid)) + b.Rows(sid)[b.idx..offset]
    {
      hide RowsOf, JoinOf, Join, CleanAt, Filled, FilledTags, DistinctTags, Distinct;
      if offset <= b.idx {
        return;
      }
      ghost var fs, cols, ts, vs := tags.families, fields.columns, timestamps, versions;
      AppendColumns(b, offset);
      timestamps := timestamps + b.timestamps[b.idx..offset];
      versions := versions + b.versions[b.idx..offset];
      forall sid: nat {
        JoinOfRows(sid, ts, vs, fs, cols, b.timestamps, b.versions, b.tags.families, b.fields.columns, b.idx, offset,
                   tags.families, fields.columns);
      }
      JoinOfRows(0, ts, vs, fs, cols, b.timestamps, b.versions, b.tags.families, b.fields.columns, b.idx, offset,
                 tags.families, fields.columns);
    }
  }

  /** The cells of the rows are in the columns of the block. */
  lemma RowsNamed(sid: nat, ts: seq<int>, vs: seq<int>, fs: seq<Family>, cols: seq<Column>)
    requires |vs| == |ts|
    ensures Parts.Named(RowsOf(sid, ts, vs, fs, cols), SchemaOf(fs, cols))
  {
    hide Keys, CellAt, TagNames, NameList, Parts.HasColumn;
    var rows := RowsOf(sid, ts, vs, fs, cols);
    forall i, k | 0 <= i < |rows| && k in rows[i].data ensures Parts.HasColumn(SchemaOf(fs, cols), k) {
      CellNamed(fs, cols, k, i);
    }
  }

  lemma CellNamed(fs: seq<Family>, cols: seq<Column>, k: Key, i: nat)
    requires CellAt(fs, cols, k, i).Some?
    ensures Parts.HasColumn(SchemaOf(fs, cols), k)
  {
    hide TagNames, ColumnsOf, ColumnNamesOf, ValuesOf;
    var cs := if k.0.None? then cols else ColumnsOf(fs, k.0.value);
    if k.1 !in Names(cs) { ValuesOfMissing(cs, k.1); }
    var j :| 0 <= j < |cs| && cs[j].name == k.1;
    assert NameList(cs)[j] == k.1;
    if k.0.Some? { ColumnsOfNames(fs, k.0.value); }
  }

  /** The row view of a block: what `BlockMerge` works on. */
  ghost predicate Shows(p: BlockMerge.BlockPointer, c: ColumnBlock, sid: nat)
    reads p, c, c.tags, c.fields
  {
    c.Valid() && p.rows == c.Rows(sid) && p.schema == c.Names() && p.idx == c.idx
  }

  /** Appending rows and appending columns are one operation. */
  method AppendShows(p: BlockMerge.BlockPointer, q: BlockMerge.BlockPointer, c: ColumnBlock, d: ColumnBlock, offset: nat,
                     ghost sid: nat)
    requires p != q && c != d && c.tags != d.tags && c.fields != d.fields
    requires Shows(p, c, sid) && Shows(q, d, sid) && offset <= |q.rows|
    requires q.idx < offset ==> p.idx < offset && CleanAt(p.schema, c.RoomLeft(), q.schema)
    modifies p`rows, p`schema, c, c.tags, c.fields
    ensures Shows(p, c, sid)
  {
    hide RowsOf, CleanAt, Join, Filled, FilledTags, DistinctTags, Distinct, Parts.Named;
    RowsLength(sid, d.timestamps, d.versions, d.tags.families, d.fields.columns);
    ghost var room := c.RoomLeft();
    SchemaWF(c.tags.families, c.fields.columns);
    SchemaWF(d.tags.families, d.fields.columns);
    RowsNamed(sid, c.timestamps, c.versions, c.tags.families, c.fields.columns);
    RowsNamed(sid, d.timestamps, d.versions, d.tags.families, d.fields.columns);
    assert p.Columned() && q.Columned();
    c.Append(d, offset);
    p.Append(q, offset, room);
  }

  lemma SchemaWF(fs: seq<Family>, cols: seq<Column>)
    ensures WFSchema(SchemaOf(fs, cols)) <==> DistinctTags(fs) && Distinct(cols)
  {
    hide Unique, UniqueTags;
    DistinctIs(cols);
  }

  /** The room of each family, by its name. */
  function RoomByName(tags: seq<FamilyNames>, rooms: seq<nat>): string -> nat {
    n => RoomOf(tags, rooms, n)
  }

  function RoomOf(tags: seq<FamilyNames>, rooms: seq<nat>, name: string): nat {
    if tags == [] || rooms == [] then 0 else if tags[0].name == name then rooms[0] else RoomOf(tags[1..], rooms[1..], name)
  }

  lemma {:induction false} RoomOfAt(tags: seq<FamilyNames>, rooms: seq<nat>, i: nat)
    requires |rooms| == |tags| && Unique(Heads(tags)) && i < |tags|
    ensures RoomOf(tags, rooms, tags[i].name) == rooms[i]
  {
    if i > 0 {
      assert Heads(tags)[0] != Heads(tags)[i];
      forall j, k | 0 <= j < k < |tags[1..]| ensures Heads(tags[1..])[j] != Heads(tags[1..])[k] {
        assert Heads(tags)[j + 1] != Heads(tags)[k + 1];
      }
      RoomOfAt(tags[1..], rooms[1..], i - 1);
    }
  }

  lemma RoomsByName(tags: seq<FamilyNames>, rooms: seq<nat>)
    requires |rooms| == |tags| && Unique(Heads(tags))
    ensures RoomsFor(tags, RoomByName(tags, rooms)) == rooms
  {
    hide RoomOf;
    forall i | 0 <= i < |tags| ensures RoomsFor(tags, RoomByName(tags, rooms))[i] == rooms[i] {
      RoomOfAt(tags, rooms, i);
    }
  }

  lemma RowsLength(sid: nat, ts: seq<int>, vs: seq<int>, fs: seq<Family>, cols: seq<Column>)
    requires |vs| == |ts|
    ensures |RowsOf(sid, ts, vs, fs, cols)| == |ts|
  {
  }

  /** `tags` and `fields` are the columns of both blocks joined, `exist` rows being there already. */
  ghost predicate JoinOf(fs: seq<Family>, cols: seq<Column>, bfs: seq<Family>, bcols: seq<Column>, idx: nat, offset: nat,
                         exist: nat, tags: seq<Family>, fields: seq<Column>)
  {
    && idx <= offset && ReachesTags(bfs, offset) && Reaches(bcols, offset)
    && tags == JoinedTags(fs, SlicedTags(bfs, idx, offset), exist, offset - idx)
    && fields == Joined(cols, Sliced(bcols, idx, offset), exist, offset - idx)
  }

  lemma FilledReaches(fs: seq<Family>, cols: seq<Column>, n: nat, offset: nat)
    requires FilledTags(fs, n) && Filled(cols, n) && offset <= n
    ensures ReachesTags(fs, offset) && Reaches(cols, offset)
  {
  }

  /** What the block holds after the join: both blocks' rows, under the joined schema. */
  lemma JoinOfRows(sid: nat, ts: seq<int>, vs: seq<int>, fs: seq<Family>, cols: seq<Column>,
                   bts: seq<int>, bvs: seq<int>, bfs: seq<Family>, bcols: seq<Column>, idx: nat, offset: nat,
                   tags: seq<Family>, fields: seq<Column>)
    requires |vs| == |ts| && |bvs| == |bts| && idx <= offset <= |bts|
    requires FilledTags(fs, |ts|) && Filled(cols, |ts|) && DistinctTags(fs) && Distinct(cols) && DistinctTags(bfs) && Distinct(bcols)
    requires JoinOf(fs, cols, bfs, bcols, idx, offset, |ts|, tags, fields)
    ensures RowsOf(sid, ts + bts[idx..offset], vs + bvs[idx..offset], tags, fields)
         == RowsOf(sid, ts, vs, fs, cols) + RowsOf(sid, bts, bvs, bfs, bcols)[idx..offset]
    ensures SchemaOf(tags, fields) == Join(SchemaOf(fs, cols), SchemaOf(bfs, bcols))
    ensures DistinctTags(tags) && Distinct(fields)
    ensures FilledTags(tags, |ts| + (offset - idx)) && Filled(fields, |ts| + (offset - idx))
  {
    hide RowsOf, JoinedTags, Joined, SlicedTags, Sliced, TagNames, NameList, Filled, FilledTags, Join, Reaches, ReachesTags,
         Distinct, Unique;
    SlicedSchema(bfs, bcols, idx, offset);
    JoinedSchema(fs, cols, SlicedTags(bfs, idx, offset), Sliced(bcols, idx, offset), |ts|, offset - idx);
    JoinedRows(sid, ts, vs, fs, cols, bts, bvs, bfs, bcols, idx, offset);
    SchemaWF(fs, cols);
    SchemaWF(bfs, bcols);
    SchemaWF(tags, fields);
    JoinWF(SchemaOf(fs, cols), SchemaOf(bfs, bcols));
  }
}
