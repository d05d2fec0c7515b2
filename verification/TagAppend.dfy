/** The code that appends tag families, with the capacities that decide which writes arrive. */
module TagAppend {
  import opened Points
  import opened Schemas
  import opened Columns
  import opened TagColumns

  /** Every column reaches `offset`: the check that would panic. */
  predicate ReachesTags(bs: seq<Family>, offset: nat) {
    forall i :: 0 <= i < |bs| ==> Reaches(bs[i].columns, offset)
  }

  function SlicedTags(bs: seq<Family>, idx: nat, offset: nat): seq<Family>
    requires idx <= offset && ReachesTags(bs, offset)
  {
    seq(|bs|, i requires 0 <= i < |bs| => Family(bs[i].name, Sliced(bs[i].columns, idx, offset)))
  }

  lemma {:induction false} SlicedList(cs: seq<Column>, idx: nat, offset: nat)
    requires idx <= offset && Reaches(cs, offset)
    ensures NameList(Sliced(cs, idx, offset)) == NameList(cs)
  {
    hide Sliced;
    SlicedIs(cs, idx, offset);
  }

  lemma SlicedTagsAre(bs: seq<Family>, idx: nat, offset: nat)
    requires idx <= offset && ReachesTags(bs, offset)
    ensures TagNames(SlicedTags(bs, idx, offset)) == TagNames(bs) && FilledTags(SlicedTags(bs, idx, offset), offset - idx)
  {
    hide Sliced;
    forall i | 0 <= i < |bs|
      ensures NameList(Sliced(bs[i].columns, idx, offset)) == NameList(bs[i].columns)
      ensures Filled(Sliced(bs[i].columns, idx, offset), offset - idx)
    {
      SlicedList(bs[i].columns, idx, offset);
      SlicedIs(bs[i].columns, idx, offset);
    }
  }

  // ---------- the fast path ----------

  ghost predicate SameNamesAt(fs: seq<Family>, bs: seq<Family>, j: nat)
    requires j < |fs| && j < |bs|
  {
    fs[j].name == bs[j].name && NameList(fs[j].columns) == NameList(bs[j].columns)
  }

  /** The first `i` families have been appended, the others are as they were. */
  ghost predicate FastUpTo(fs: seq<Family>, bs: seq<Family>, i: nat, now: seq<Family>) {
    && |fs| == |bs| == |now| && i <= |fs|
    && (forall j :: 0 <= j < i ==>
          SameNamesAt(fs, bs, j) && now[j] == Family(fs[j].name, Extend(fs[j].columns, Taken(bs[j].columns))))
    && (forall j :: i <= j < |fs| ==> now[j] == fs[j])
  }

  lemma FastLengths(fs: seq<Family>, bs: seq<Family>, i: nat, now: seq<Family>)
    requires FastUpTo(fs, bs, i, now)
    ensures |fs| == |bs| == |now| && i <= |fs|
  {
  }

  /** The first family, and the others. */
  lemma {:induction false} FastFirst(fs: seq<Family>, bs: seq<Family>, i: nat, now: seq<Family>)
    requires FastUpTo(fs, bs, i, now) && i > 0
    ensures FastTags(fs, bs) == [now[0]] + FastTags(fs[1..], bs[1..])
    ensures FastUpTo(fs[1..], bs[1..], i - 1, now[1..])
  {
    hide Extend, Taken;
    assert SameNamesAt(fs, bs, 0);
    assert |NameList(fs[0].columns)| == |fs[0].columns| && |NameList(bs[0].columns)| == |bs[0].columns|;
    assert Agree(fs[0].columns, bs[0].columns) == |bs[0].columns|;
    assert bs[0].columns[..|bs[0].columns|] == bs[0].columns;
    FastTail(fs, bs, i, now);
  }

  lemma {:induction false} FastTail(fs: seq<Family>, bs: seq<Family>, i: nat, now: seq<Family>)
    requires FastUpTo(fs, bs, i, now) && i > 0
    ensures FastUpTo(fs[1..], bs[1..], i - 1, now[1..])
  {
    hide Extend, Taken;
    forall j | 0 <= j < i - 1 ensures SameNamesAt(fs[1..], bs[1..], j) {
      assert SameNamesAt(fs, bs, j + 1);
    }
  }

  /** Where the fast path stands when it looks at family `i`. */
  lemma {:induction false} FastFrom(fs: seq<Family>, bs: seq<Family>, i: nat, now: seq<Family>)
    requires FastUpTo(fs, bs, i, now)
    ensures FastTags(fs, bs) == now[..i] + FastTags(fs[i..], bs[i..])
    decreases i
  {
    hide FastTags, FastUpTo;
    FastLengths(fs, bs, i, now);
    if i == 0 {
      assert fs[0..] == fs && bs[0..] == bs && now[..0] == [];
    } else {
      FastFirst(fs, bs, i, now);
      FastFrom(fs[1..], bs[1..], i - 1, now[1..]);
      assert fs[1..][i - 1..] == fs[i..] && bs[1..][i - 1..] == bs[i..];
      assert now[..i] == [now[0]] + now[1..][..i - 1];
    }
  }

  /** The fast path gives up at family `i`. */
  lemma {:induction false} FastStops(fs: seq<Family>, bs: seq<Family>, i: nat, now: seq<Family>, cols: seq<Column>)
    requires FastUpTo(fs, bs, i, now) && i < |fs| && !SameNamesAt(fs, bs, i)
    requires if fs[i].name != bs[i].name || |fs[i].columns| != |bs[i].columns| then cols == fs[i].columns
             else cols == Extend(fs[i].columns, Taken(bs[i].columns[..Agree(fs[i].columns, bs[i].columns)]))
    ensures FastTags(fs, bs) == now[i := Family(fs[i].name, cols)]
    ensures TagNames(fs) != TagNames(bs)
  {
    hide Extend, Taken, FastTags, Agree;
    FastFrom(fs, bs, i, now);
    FastHead(fs[i..], bs[i..], cols);
    assert fs[i..][1..] == now[i + 1..];
    assert now[i := Family(fs[i].name, cols)] == now[..i] + ([Family(fs[i].name, cols)] + now[i + 1..]);
    assert TagNames(fs)[i] != TagNames(bs)[i];
  }

  lemma {:induction false} FastHead(fs: seq<Family>, bs: seq<Family>, cols: seq<Column>)
    requires |fs| == |bs| && fs != [] && !SameNamesAt(fs, bs, 0)
    requires if fs[0].name != bs[0].name || |fs[0].columns| != |bs[0].columns| then cols == fs[0].columns
             else cols == Extend(fs[0].columns, Taken(bs[0].columns[..Agree(fs[0].columns, bs[0].columns)]))
    ensures FastTags(fs, bs) == [Family(fs[0].name, cols)] + fs[1..]
  {
    hide Extend, Taken;
    assert fs == [fs[0]] + fs[1..];
  }

  lemma {:induction false} FastEnds(fs: seq<Family>, bs: seq<Family>, now: seq<Family>)
    requires FastUpTo(fs, bs, |fs|, now)
    ensures FastTags(fs, bs) == now && TagNames(fs) == TagNames(bs)
  {
    hide Extend, Taken;
    FastFrom(fs, bs, |fs|, now);
    assert fs[|fs|..] == [] && now[..|fs|] == now;
    forall j | 0 <= j < |fs| ensures TagNames(fs)[j] == TagNames(bs)[j] {
      assert SameNamesAt(fs, bs, j);
    }
  }

  lemma {:induction false} ExtendNameList(cols: seq<Column>, more: map<string, Values>)
    ensures NameList(Extend(cols, more)) == NameList(cols) && |Extend(cols, more)| == |cols|
  {
    hide Extend;
    ExtendIs(cols, more);
  }

  lemma {:induction false} FastNames(fs: seq<Family>, bs: seq<Family>, i: nat)
    requires |fs| == |bs| && i < |fs|
    ensures FastTags(fs, bs)[i].name == fs[i].name && NameList(FastTags(fs, bs)[i].columns) == NameList(fs[i].columns)
    ensures |FastTags(fs, bs)[i].columns| == |fs[i].columns|
  {
    hide Taken, Extend, NameList, Agree;
    var f, b := fs[0], bs[0];
    if f.name == b.name && |f.columns| == |b.columns| {
      var k := Agree(f.columns, b.columns);
      ExtendNameList(f.columns, Taken(b.columns[..k]));
      if i > 0 && k == |b.columns| {
        FastNames(fs[1..], bs[1..], i - 1);
      }
    }
  }

  lemma {:induction false} FastTagNames(fs: seq<Family>, bs: seq<Family>)
    requires |fs| == |bs|
    ensures TagNames(FastTags(fs, bs)) == TagNames(fs)
    ensures forall i :: 0 <= i < |fs| ==> |FastTags(fs, bs)[i].columns| == |fs[i].columns|
  {
    hide FastTags;
    forall i | 0 <= i < |fs|
      ensures TagNames(FastTags(fs, bs))[i] == TagNames(fs)[i] && |FastTags(fs, bs)[i].columns| == |fs[i].columns|
    {
      FastNames(fs, bs, i);
    }
  }

  // ---------- the full path ----------

  /** What a family's columns are before the last loop pads them. */
  function Half(cols: seq<Column>, room: nat, late: bool, cs: seq<Column>, exist: nat): seq<Column> {
    if late then Extend(cols, Arrived(Names(cols), |cs|, cs))
    else Extend(cols, Arrived(Names(cols), room, cs)) + NewCols(Fresh(cs, Names(cols)), exist)
  }

  /** A family after the loop has seen `bs`. */
  function After(f: Family, r: nat, room: nat, bs: seq<Family>, known: set<string>, exist: nat): Family {
    var names := Heads(TagNames(bs));
    if f.name in names then
      Family(f.name, Half(f.columns, r, FreshBefore(names, known, f.name) > room, ColumnsOf(bs, f.name), exist))
    else f
  }

  lemma HeadsSnoc(bs: seq<Family>, b: Family)
    ensures Heads(TagNames(bs + [b])) == Heads(TagNames(bs)) + [b.name]
  {
  }

  lemma {:induction false} ColumnsOfSnoc(bs: seq<Family>, b: Family, name: string)
    ensures ColumnsOf(bs + [b], name)
         == if name in Heads(TagNames(bs)) then ColumnsOf(bs, name) else if b.name == name then b.columns else []
  {
    if bs != [] {
      ColumnsOfSnoc(bs[1..], b, name);
      assert (bs + [b])[1..] == bs[1..] + [b];
      var names := Heads(TagNames(bs));
      assert names[0] == bs[0].name && names[1..] == Heads(TagNames(bs[1..]));
    } else {
      assert (bs + [b])[1..] == [];
    }
  }

  lemma {:induction false} AfterSnoc(f: Family, r: nat, room: nat, bs: seq<Family>, b: Family, known: set<string>, exist: nat)
    requires b.name !in Heads(TagNames(bs))
    ensures After(f, r, room, bs + [b], known, exist)
         == if f.name == b.name then
              Family(f.name, Half(f.columns, r, FreshCount(Heads(TagNames(bs)), known) > room, b.columns, exist))
            else After(f, r, room, bs, known, exist)
    ensures f.name == b.name ==> After(f, r, room, bs, known, exist) == f
  {
    hide Half, FreshBefore, FreshCount, ColumnsOf;
    HeadsSnoc(bs, b);
    ColumnsOfSnoc(bs, b, f.name);
    FreshBeforeSnoc(Heads(TagNames(bs)), b.name, known, f.name);
  }

  lemma {:induction false} FreshFamiliesSnoc(bs: seq<Family>, b: Family, known: set<string>)
    ensures FreshFamilies(bs + [b], known) == FreshFamilies(bs, known) + (if b.name in known then [] else [b])
    ensures |FreshFamilies(bs, known)| == FreshCount(Heads(TagNames(bs)), known)
  {
    if bs != [] {
      FreshFamiliesSnoc(bs[1..], b, known);
      assert (bs + [b])[1..] == bs[1..] + [b];
      var names := Heads(TagNames(bs));
      assert names[0] == bs[0].name && names[1..] == Heads(TagNames(bs[1..]));
    }
  }

  lemma {:induction false} NewFamiliesSnoc(bs: seq<Family>, b: Family, exist: nat)
    ensures NewFamilies(bs + [b], exist) == NewFamilies(bs, exist) + [Family(b.name, NewCols(b.columns, exist))]
  {
  }

  /** The families once the loop has seen `bs`. */
  ghost predicate FullUpTo(
    fs: seq<Family>, rooms: seq<nat>, room: nat, bs: seq<Family>, exist: nat, now: seq<Family>)
    requires |rooms| == |fs|
  {
    var added := NewFamilies(FreshFamilies(bs, KnownFamilies(fs)), exist);
    && |now| == |fs| + |added| && now[|fs|..] == added
    && forall j :: 0 <= j < |fs| ==> now[j] == After(fs[j], rooms[j], room, bs, KnownFamilies(fs), exist)
  }

  lemma FullStart(fs: seq<Family>, rooms: seq<nat>, room: nat, exist: nat)
    requires |rooms| == |fs|
    ensures FullUpTo(fs, rooms, room, [], exist, fs)
  {
    assert fs[|fs|..] == [];
  }

  /** A family both blocks have: only that family changes. */
  lemma FullShared(fs: seq<Family>, rooms: seq<nat>, room: nat, bs: seq<Family>, b: Family, exist: nat, now: seq<Family>, j: nat)
    requires |rooms| == |fs| && FullUpTo(fs, rooms, room, bs, exist, now) && Unique(Heads(TagNames(fs)))
    requires b.name !in Heads(TagNames(bs)) && j < |fs| && fs[j].name == b.name
    ensures now[j] == fs[j]
    ensures FullUpTo(fs, rooms, room, bs + [b], exist,
                     now[j := Family(b.name, Half(fs[j].columns, rooms[j],
                       FreshCount(Heads(TagNames(bs)), KnownFamilies(fs)) > room, b.columns, exist))])
  {
    hide After, Half, NewFamilies, FreshFamilies, FreshCount;
    var known := KnownFamilies(fs);
    assert Heads(TagNames(fs))[j] == b.name;
    FreshFamiliesSnoc(bs, b, known);
    assert FreshFamilies(bs + [b], known) == FreshFamilies(bs, known);
    var now' := now[j := Family(b.name, Half(fs[j].columns, rooms[j], FreshCount(Heads(TagNames(bs)), known) > room,
                                             b.columns, exist))];
    forall i | 0 <= i < |fs| ensures now'[i] == After(fs[i], rooms[i], room, bs + [b], known, exist) {
      AfterSnoc(fs[i], rooms[i], room, bs, b, known, exist);
      assert i != j ==> Heads(TagNames(fs))[i] != Heads(TagNames(fs))[j];
    }
    AfterSnoc(fs[j], rooms[j], room, bs, b, known, exist);
    assert now'[|fs|..] == now[|fs|..];
  }

  /** A family only the other block has. */
  lemma {:induction false} FullNew(fs: seq<Family>, rooms: seq<nat>, room: nat, bs: seq<Family>, b: Family, exist: nat, now: seq<Family>)
    requires |rooms| == |fs| && FullUpTo(fs, rooms, room, bs, exist, now)
    requires b.name !in Heads(TagNames(bs)) && b.name !in KnownFamilies(fs)
    ensures FullUpTo(fs, rooms, room, bs + [b], exist, now + [Family(b.name, NewCols(b.columns, exist))])
  {
    hide After, NewFamilies, FreshFamilies, NewCols;
    var known := KnownFamilies(fs);
    FreshFamiliesSnoc(bs, b, known);
    NewFamiliesSnoc(FreshFamilies(bs, known), b, exist);
    var now' := now + [Family(b.name, NewCols(b.columns, exist))];
    forall i | 0 <= i < |fs| ensures now'[i] == After(fs[i], rooms[i], room, bs + [b], known, exist) {
      AfterSnoc(fs[i], rooms[i], room, bs, b, known, exist);
      assert Heads(TagNames(fs))[i] == fs[i].name;
    }
    assert now'[|fs|..] == now[|fs|..] + [Family(b.name, NewCols(b.columns, exist))];
  }

  // ---------- padding ----------

  /** Padding a family that the other block has. */
  lemma {:induction false} PaddedHalf(cols: seq<Column>, room: nat, late: bool, cs: seq<Column>, exist: nat, m: nat)
    ensures Padded(Half(cols, room, late, cs, exist), Names(cs), m) == FullFamily(cols, room, late, cs, exist, m)
  {
    hide Extend, NewCols, Fresh, Padded, Arrived, Got, Names, Full;
    if late {
      PaddedExtend(cols, |cs|, cs, m);
    } else {
      PaddedIsFull(cols, room, cs, exist, m);
    }
  }

  lemma {:induction false} PaddedExtend(cols: seq<Column>, room: nat, cs: seq<Column>, m: nat)
    ensures Padded(Extend(cols, Arrived(Names(cols), room, cs)), Names(cs), m) == Extend(cols, Got(Names(cols), room, cs, m))
  {
    hide Extend, FreshBefore, ValuesOf, Padded;
    var known := Names(cols);
    var a, g := Arrived(known, room, cs), Got(known, room, cs, m);
    ExtendIs(cols, a);
    ExtendIs(cols, g);
    PaddedLength(Extend(cols, a), Names(cs), m);
    forall i | 0 <= i < |cols| ensures Padded(Extend(cols, a), Names(cs), m)[i] == Extend(cols, g)[i] {
      assert cols[i] in cols && cols[i].name in known;
      assert cols[i].values + [] == cols[i].values;
    }
  }

  /** Padding a family that the other block does not have. */
  lemma {:induction false} PaddedMissing(cols: seq<Column>, room: nat, late: bool, exist: nat, m: nat)
    ensures Padded(cols, Names([]), m) == FullFamily(cols, room, late, [], exist, m)
  {
    hide Extend, Padded;
    var g := Got(Names(cols), room, [], m);
    ExtendIs(cols, g);
    ExtendIs(cols, Got(Names(cols), 0, [], m));
    PaddedLength(cols, Names([]), m);
    forall i | 0 <= i < |cols|
      ensures Padded(cols, Names([]), m)[i] == Extend(cols, g)[i] == Extend(cols, Got(Names(cols), 0, [], m))[i]
    {
      assert cols[i] in cols && cols[i].name in Names(cols);
    }
    assert Fresh([], Names(cols)) == [] && NewCols([], exist) == [];
    assert Extend(cols, g) + [] == Extend(cols, g);
  }

  /** Padding a family that is new: it has nothing but the other block's columns. */
  lemma {:induction false} PaddedNew(cs: seq<Column>, exist: nat, m: nat)
    ensures Padded(NewCols(cs, exist), Names(cs), m) == NewCols(cs, exist)
  {
    hide Padded, NewCols;
    NewColsIs(cs, exist);
    PaddedLength(NewCols(cs, exist), Names(cs), m);
    forall i | 0 <= i < |cs| ensures Padded(NewCols(cs, exist), Names(cs), m)[i] == NewCols(cs, exist)[i] {
      assert cs[i] in cs;
    }
  }

  lemma {:induction false} ColumnsOfMissing(bs: seq<Family>, name: string)
    requires name !in Heads(TagNames(bs))
    ensures ColumnsOf(bs, name) == []
  {
    if bs != [] {
      var names := Heads(TagNames(bs));
      assert names[0] == bs[0].name && names[1..] == Heads(TagNames(bs[1..]));
      ColumnsOfMissing(bs[1..], name);
    }
  }

  lemma {:induction false} FreshFamiliesAre(bs: seq<Family>, known: set<string>, i: nat)
    requires i < |FreshFamilies(bs, known)|
    ensures FreshFamilies(bs, known)[i] in bs
  {
    if bs[0].name in known {
      FreshFamiliesAre(bs[1..], known, i);
    } else if i > 0 {
      FreshFamiliesAre(bs[1..], known, i - 1);
    }
  }

  /** One family of the loop's result, padded, is one family of the full append. */
  lemma {:induction false} PaddedAt(fs: seq<Family>, rooms: seq<nat>, room: nat, bs: seq<Family>, exist: nat, m: nat, now: seq<Family>, j: nat)
    requires |rooms| == |fs| && FullUpTo(fs, rooms, room, bs, exist, now) && Unique(Heads(TagNames(bs))) && j < |now|
    ensures |FullTags(fs, rooms, room, bs, exist, m)| == |now| && FullTags(fs, rooms, room, bs, exist, m)[j]
         == Family(now[j].name, Padded(now[j].columns, Names(ColumnsOf(bs, now[j].name)), m))
  {
    hide Half, FullFamily, Padded, Names, NewCols, FreshFamilies, ColumnsOf, FreshBefore;
    var full, added := FullTags(fs, rooms, room, bs, exist, m), FreshFamilies(bs, KnownFamilies(fs));
    assert |full| == |now|;
    if j < |fs| {
      var f := fs[j];
      var late := IsLate(TagNames(fs), room, TagNames(bs), f.name);
      if f.name in Heads(TagNames(bs)) {
        PaddedHalf(f.columns, rooms[j], late, ColumnsOf(bs, f.name), exist, m);
      } else {
        ColumnsOfMissing(bs, f.name);
        PaddedMissing(f.columns, rooms[j], late, exist, m);
      }
    } else {
      var i := j - |fs|;
      assert now[j] == now[|fs|..][i];
      FreshFamiliesAre(bs, KnownFamilies(fs), i);
      var k :| 0 <= k < |bs| && bs[k] == added[i];
      ColumnsOfAt(bs, k);
      PaddedNew(added[i].columns, exist, m);
    }
  }

  // ---------- the code ----------

  method FindFamily(fs: seq<Family>, name: string) returns (j: nat)
    requires name in Heads(TagNames(fs))
    ensures j < |fs| && fs[j].name == name
  {
    assert exists i :: 0 <= i < |fs| && fs[i].name == name by {
      var i :| 0 <= i < |fs| && Heads(TagNames(fs))[i] == name;
      assert fs[i].name == name;
    }
    j := 0;
    while j < |fs| && fs[j].name != name
      invariant j <= |fs| && forall i :: 0 <= i < j ==> fs[i].name != name
    {
      j := j + 1;
    }
  }

  /** The columns of one family after the other block's, through a live pointer to it. */
  method FastColumns(columns: seq<Column>, cap: nat, b: seq<Column>, idx: nat, offset: nat)
    returns (columns': seq<Column>, ok: bool)
    requires |columns| <= cap && Distinct(columns) && Distinct(b) && idx <= offset && Reaches(b, offset)
    ensures var cs := Sliced(b, idx, offset); var k := Agree(columns, cs);
      && ok == (|columns| == |cs| == k)
      && columns' == if |columns| != |cs| then columns else Extend(columns, Taken(cs[..k]))
  {
    hide Extend, Taken, Sliced, Agree;
    var f := new Fields(columns, cap);
    ok := f.FastAppend(b, idx, offset);
    columns' := f.columns;
  }

  method AppendLive(columns: seq<Column>, cap: nat, b: seq<Column>, idx: nat, offset: nat, exist: nat)
    returns (columns': seq<Column>, cap': nat)
    requires |columns| <= cap && Distinct(columns) && Distinct(b) && idx <= offset && Reaches(b, offset)
    ensures columns' == Half(columns, cap - |columns|, false, Sliced(b, idx, offset), exist) && |columns'| <= cap'
  {
    hide Extend, Arrived, NewCols, Fresh, Sliced, Names;
    var f := new Fields(columns, cap);
    f.AppendByName(b, idx, offset, exist);
    columns', cap' := f.columns, f.cap;
  }

  /** Through a pointer to the family as it was: it has the columns, and what it adds to its own list is lost. */
  method AppendStale(columns: seq<Column>, b: seq<Column>, idx: nat, offset: nat, exist: nat)
    returns (columns': seq<Column>)
    requires Distinct(columns) && Distinct(b) && idx <= offset && Reaches(b, offset)
    ensures columns' == Half(columns, 0, true, Sliced(b, idx, offset), exist) && |columns'| == |columns|
  {
    hide Extend, Arrived, NewCols, Fresh, Sliced;
    ghost var cs := Sliced(b, idx, offset);
    SlicedIs(b, idx, offset);
    var f := new Fields(columns, |columns| + |b|);
    f.AppendByName(b, idx, offset, exist);
    ExtendIs(columns, Arrived(Names(columns), |b|, cs));
    columns' := f.columns[..|columns|];
    assert columns' == Extend(columns, Arrived(Names(columns), |b|, cs));
  }

  method NewColumns(b: seq<Column>, idx: nat, offset: nat, exist: nat) returns (columns: seq<Column>)
    requires Distinct(b) && idx <= offset && Reaches(b, offset)
    ensures columns == NewCols(Sliced(b, idx, offset), exist)
  {
    hide Extend, Arrived, NewCols, Sliced, Fresh;
    var f := new Fields([], 0);
    f.AppendByName(b, idx, offset, exist);
    columns := f.columns;
    ExtendIs([], Arrived({}, 0, Sliced(b, idx, offset)));
    AllFresh(Sliced(b, idx, offset));
  }

  lemma {:induction false} AllFresh(cs: seq<Column>)
    ensures Fresh(cs, {}) == cs && Names([]) == {}
  {
    if cs != [] {
      AllFresh(cs[1..]);
      assert cs == [cs[0]] + cs[1..];
    }
  }

  class Tags {
    var families: seq<Family>
    var caps: seq<nat>      // of each family's columns
    var cap: nat

    constructor (families: seq<Family>, caps: seq<nat>, cap: nat)
      ensures this.families == families && this.caps == caps && this.cap == cap
    {
      this.families, this.caps, this.cap := families, caps, cap;
    }

    ghost predicate Fit()
      reads this
    {
      |families| <= cap && |caps| == |families| && forall i :: 0 <= i < |families| ==> |families[i].columns| <= caps[i]
    }

    ghost predicate Valid()
      reads this
    {
      Fit() && DistinctTags(families)
    }

    /** The room left in each family's columns. */
    ghost function Rooms(): seq<nat>
      requires Fit()
      reads this
    {
      seq(|families|, i requires 0 <= i < |families| reads this requires Fit() => caps[i] - |families[i].columns|)
    }

    /** fastTagAppend */
    method FastAppend(b: seq<Family>, idx: nat, offset: nat) returns (ok: bool)
      requires Valid() && DistinctTags(b) && idx <= offset && ReachesTags(b, offset)
      modifies this`families
      ensures Valid() && |families| == |old(families)| && Rooms() == old(Rooms())
      ensures var bs := SlicedTags(b, idx, offset);
        && ok == (TagNames(old(families)) == TagNames(bs))
        && families == if |old(families)| != |bs| then old(families) else FastTags(old(families), bs)
    {
      hide Sliced, Extend, Taken, FastTags, Agree;
      ghost var fs, bs := families, SlicedTags(b, idx, offset);
      SlicedTagsAre(b, idx, offset);
      if |families| != |b| {
        assert |TagNames(fs)| != |TagNames(bs)|;
        return false;
      }
      FastTagNames(fs, bs);
      var i := 0;
      while i < |b|
        invariant 0 <= i <= |b| && FastUpTo(fs, bs, i, families)
      {
        if families[i].name != b[i].name {
          FastStops(fs, bs, i, families, fs[i].columns);
          assert families == families[i := Family(fs[i].name, fs[i].columns)];
          return false;
        }
        ColumnsDistinct(b, i);
        ColumnsDistinct(fs, i);
        var cols, same := FastColumns(families[i].columns, caps[i], b[i].columns, idx, offset);
        SlicedIs(b[i].columns, idx, offset);
        if !same {
          FastStops(fs, bs, i, families, cols);
          families := families[i := Family(families[i].name, cols)];
          return false;
        }
        assert bs[i].columns[..|bs[i].columns|] == bs[i].columns;
        families := families[i := Family(families[i].name, cols)];
        i := i + 1;
      }
      FastEnds(fs, bs, families);
      return true;
    }

    /** The loop of fullTagAppend over the other block's families. */
    method AppendByName(b: seq<Family>, idx: nat, offset: nat, exist: nat)
      requires Valid() && DistinctTags(b) && idx <= offset && ReachesTags(b, offset)
      modifies this
      ensures Fit()
      ensures FullUpTo(old(families), old(Rooms()), old(cap - |families|), SlicedTags(b, idx, offset), exist, families)
    {
      hide Sliced, Half, NewCols, FreshFamilies, NewFamilies, After, FreshCount, FullUpTo, Names;
      var fs, room := families, cap - |families|;
      ghost var bs, known, rooms := SlicedTags(b, idx, offset), KnownFamilies(fs), Rooms();
      SlicedTagsAre(b, idx, offset);
      var moved := false;     // the pointers to families taken before the loop lead to the slice as it was
      FullStart(fs, rooms, room, exist);
      NoneSeen(bs, known);
      for i := 0 to |b|
        invariant Fit() && FullUpTo(fs, rooms, room, bs[..i], exist, families)
        invariant moved == (FreshCount(Heads(TagNames(bs[..i])), known) > room)
        invariant !moved ==> cap - |families| == room - FreshCount(Heads(TagNames(bs[..i])), known)
        invariant |fs| <= |families|
        invariant forall j :: 0 <= j < |fs| && fs[j].name !in Heads(TagNames(bs[..i])) ==> caps[j] == old(caps)[j]
      {
        NextFamily(b, bs, i, idx, offset);
        CountNext(bs, known, i);
        if b[i].name in Heads(TagNames(fs)) {
          var j := FindFamily(fs, b[i].name);
          FullShared(fs, rooms, room, bs[..i], bs[i], exist, families, j);
          ColumnsDistinct(fs, j);
          if !moved {
            var columns, c := AppendLive(families[j].columns, caps[j], b[i].columns, idx, offset, exist);
            families := families[j := Family(b[i].name, columns)];
            caps := caps[j := c];
          } else {
            var columns := AppendStale(families[j].columns, b[i].columns, idx, offset, exist);
            LateHalf(families[j].columns, rooms[j], bs[i].columns, exist);
            families := families[j := Family(b[i].name, columns)];
          }
        } else {
          var columns := NewColumns(b[i].columns, idx, offset, exist);
          FullNew(fs, rooms, room, bs[..i], bs[i], exist, families);
          if |families| == cap {
            moved := true;
            var c: nat :| c > cap;
            cap := c;
          }
          families := families + [Family(b[i].name, columns)];
          caps := caps + [|columns|];
        }
      }
      assert bs[..|b|] == bs;
    }

    /** The last loop of fullTagAppend: nils for what the other block does not have. */
    method PadMissing(b: seq<Family>, m: nat)
      requires Fit()
      modifies this
      ensures |families| == |old(families)| && Fit()
      ensures forall j :: 0 <= j < |families| ==>
        var f := old(families)[j];
        families[j] == Family(f.name, Padded(f.columns, Names(ColumnsOf(b, f.name)), m))
    {
      hide Padded, Names, ColumnsOf;
      ghost var fs := families;
      for i := 0 to |families|
        invariant |families| == |fs| && Fit()
        invariant forall j :: 0 <= j < i ==>
          families[j] == Family(fs[j].name, Padded(fs[j].columns, Names(ColumnsOf(b, fs[j].name)), m))
        invariant forall j :: i <= j < |families| ==> families[j] == fs[j]
      {
        var f := new Fields(families[i].columns, caps[i]);
        f.PadMissing(ColumnsOf(b, families[i].name), m);
        PaddedLength(fs[i].columns, Names(ColumnsOf(b, fs[i].name)), m);
        families := families[i := Family(families[i].name, f.columns)];
      }
    }

    /** fullTagAppend */
    method FullAppend(b: seq<Family>, idx: nat, offset: nat, exist: nat)
      requires Valid() && DistinctTags(b) && idx <= offset && ReachesTags(b, offset)
      modifies this
      ensures Fit()
      ensures families == FullTags(old(families), old(Rooms()), old(cap - |families|), SlicedTags(b, idx, offset), exist, offset - idx)
    {
      hide FullUpTo, FullTags, Padded, Names, ColumnsOf, SlicedTags, Rooms;
      ghost var fs, rooms, room := families, Rooms(), cap - |families|;
      RoomsLength();
      AppendByName(b, idx, offset, exist);
      ghost var half := families;
      PadMissing(b, offset - idx);
      PaddedTags(fs, rooms, room, b, idx, offset, exist, half, families);
    }

    lemma RoomsLength()
      requires Fit()
      ensures |Rooms()| == |families|
    {
    }

    /**
      appendTagFamilies, for `exist` rows already there.  The result is the join of the two lists of
      families, that is, the tags of the other block's rows are appended, if and only if they are clean.
     */
    method Append(b: seq<Family>, idx: nat, offset: nat, exist: nat)
      requires Valid() && DistinctTags(b) && idx < offset && ReachesTags(b, offset)
      modifies this
      ensures Fit()
      ensures var fs, bs := old(families), SlicedTags(b, idx, offset);
        && |old(Rooms())| == |TagNames(fs)|
        && (families == JoinedTags(fs, bs, exist, offset - idx)
            <==> CleanTags(TagNames(fs), old(Rooms()), old(cap - |families|), TagNames(bs)))
    {
      hide FullTags, FastTags, JoinedTags, SlicedTags, Rooms, CleanTags, TagNames;
      ghost var fs, rooms, room, bs := families, Rooms(), cap - |families|, SlicedTags(b, idx, offset);
      RoomsLength();
      SlicedFacts(b, idx, offset);
      TagNamesLength(fs);
      TagNamesLength(bs);
      AppendedTagsIff(fs, rooms, room, bs, exist, offset - idx);
      if |families| == 0 && |b| > 0 {
        FullAppend(b, idx, offset, exist);
      } else {
        var ok := FastAppend(b, idx, offset);
        if !ok {
          if |fs| == |bs| {
            FastTagNames(fs, bs);
          }
          FullAppend(b, idx, offset, exist);
        }
      }
    }
  }

  lemma SlicedFacts(b: seq<Family>, idx: nat, offset: nat)
    requires idx <= offset && ReachesTags(b, offset) && DistinctTags(b)
    ensures DistinctTags(SlicedTags(b, idx, offset)) && FilledTags(SlicedTags(b, idx, offset), offset - idx)
    ensures |SlicedTags(b, idx, offset)| == |b|
  {
    hide Sliced;
    SlicedTagsAre(b, idx, offset);
  }

  lemma TagNamesLength(fs: seq<Family>)
    ensures |TagNames(fs)| == |fs|
  {
  }

  lemma {:induction false} SlicedColumnsOf(b: seq<Family>, idx: nat, offset: nat, name: string)
    requires idx <= offset && ReachesTags(b, offset)
    ensures Names(ColumnsOf(SlicedTags(b, idx, offset), name)) == Names(ColumnsOf(b, name))
  {
    hide Sliced, ColumnsOf, Names;
    SlicedTagsAre(b, idx, offset);
    ColumnsOfNames(b, name);
    ColumnsOfNames(SlicedTags(b, idx, offset), name);
    NamesAre(ColumnsOf(b, name));
    NamesAre(ColumnsOf(SlicedTags(b, idx, offset), name));
  }

  /** The padded families are those of the full append. */
  lemma {:induction false} PaddedTags(fs: seq<Family>, rooms: seq<nat>, room: nat, b: seq<Family>, idx: nat, offset: nat, exist: nat,
                   half: seq<Family>, now: seq<Family>)
    requires |rooms| == |fs| && idx <= offset && ReachesTags(b, offset) && DistinctTags(b) && |now| == |half|
    requires FullUpTo(fs, rooms, room, SlicedTags(b, idx, offset), exist, half)
    requires forall j :: 0 <= j < |now| ==>
      now[j] == Family(half[j].name, Padded(half[j].columns, Names(ColumnsOf(b, half[j].name)), offset - idx))
    ensures now == FullTags(fs, rooms, room, SlicedTags(b, idx, offset), exist, offset - idx)
  {
    hide FullUpTo, FullTags, Padded, Names, ColumnsOf, SlicedTags;
    var bs := SlicedTags(b, idx, offset);
    SlicedTagsAre(b, idx, offset);
    FullLength(fs, rooms, room, bs, exist, offset - idx, half);
    forall j | 0 <= j < |now|
      ensures now[j] == FullTags(fs, rooms, room, bs, exist, offset - idx)[j]
    {
      PaddedAt(fs, rooms, room, bs, exist, offset - idx, half, j);
      SlicedColumnsOf(b, idx, offset, half[j].name);
    }
  }

  lemma FullLength(fs: seq<Family>, rooms: seq<nat>, room: nat, bs: seq<Family>, exist: nat, m: nat, half: seq<Family>)
    requires |rooms| == |fs| && FullUpTo(fs, rooms, room, bs, exist, half)
    ensures |FullTags(fs, rooms, room, bs, exist, m)| == |half|
  {
    hide FreshFamilies, FullFamily, After;
  }

  lemma {:induction false} NoneSeen(bs: seq<Family>, known: set<string>)
    ensures bs[..0] == [] && FreshCount(Heads(TagNames(bs[..0])), known) == 0
  {
    assert Heads(TagNames(bs[..0])) == [];
  }

  lemma {:induction false} NextFamily(b: seq<Family>, bs: seq<Family>, i: nat, idx: nat, offset: nat)
    requires idx <= offset && ReachesTags(b, offset) && bs == SlicedTags(b, idx, offset) && DistinctTags(b) && i < |b|
    ensures bs[i].name == b[i].name && bs[i].columns == Sliced(b[i].columns, idx, offset)
    ensures bs[..i + 1] == bs[..i] + [bs[i]] && bs[i].name !in Heads(TagNames(bs[..i]))
    ensures Distinct(b[i].columns) && Reaches(b[i].columns, offset)
  {
    hide Sliced;
    forall j | 0 <= j < i ensures Heads(TagNames(bs[..i]))[j] != bs[i].name {
      assert Heads(TagNames(b))[j] != Heads(TagNames(b))[i];
    }
    DistinctIs(b[i].columns);
    assert TagNames(b)[i].columns == NameList(b[i].columns);
  }

  lemma {:induction false} CountNext(bs: seq<Family>, known: set<string>, i: nat)
    requires i < |bs|
    ensures Heads(TagNames(bs[..i + 1])) == Heads(TagNames(bs[..i])) + [bs[i].name]
    ensures FreshCount(Heads(TagNames(bs[..i + 1])), known)
         == FreshCount(Heads(TagNames(bs[..i])), known) + (if bs[i].name in known then 0 else 1)
  {
    assert bs[..i + 1] == bs[..i] + [bs[i]];
    HeadsSnoc(bs[..i], bs[i]);
    FreshCountSnoc(Heads(TagNames(bs[..i])), bs[i].name, known);
  }

  lemma ColumnsDistinct(fs: seq<Family>, j: nat)
    requires DistinctTags(fs) && j < |fs|
    ensures Distinct(fs[j].columns)
  {
    DistinctIs(fs[j].columns);
    assert TagNames(fs)[j].columns == NameList(fs[j].columns);
  }

  lemma LateHalf(cols: seq<Column>, room: nat, cs: seq<Column>, exist: nat)
    ensures Half(cols, room, true, cs, exist) == Half(cols, 0, true, cs, exist)
  {
  }
}
