/**
  Appending the field columns of one block to those of another.

  Columns are matched by name.  The fast path appends position by position and gives up at the
  first name that differs; what it has appended by then stays.  The full path then appends by name,
  through pointers into the column slice that it took before adding new columns to that slice; once
  a new column makes the slice move, writes through those pointers are lost.  `room` is what is
  left of the slice's capacity.  Both are proved against the join of the two tables, and the exact
  condition under which they produce it is stated.
 */
module Columns {
  import opened Points
  import opened Schemas

  type Values = seq<Option<Bytes>>

  datatype Column = Column(name: string, values: Values)

  function Nils(n: nat): Values {
    if n == 0 then [] else [None] + Nils(n - 1)
  }

  lemma {:induction false} NilsLength(n: nat)
    ensures |Nils(n)| == n && forall i :: 0 <= i < n ==> Nils(n)[i] == None
  {
    if n > 0 {
      NilsLength(n - 1);
    }
  }

  function Names(cols: seq<Column>): set<string> {
    set c | c in cols :: c.name
  }

  function NameList(cols: seq<Column>): seq<string> {
    seq(|cols|, i requires 0 <= i < |cols| => cols[i].name)
  }

  ghost predicate Distinct(cols: seq<Column>) {
    forall i, j :: 0 <= i < j < |cols| ==> cols[i].name != cols[j].name
  }

  ghost predicate Filled(cols: seq<Column>, n: nat) {
    forall c :: c in cols ==> |c.values| == n
  }

  /** The values of a column, none if there is no such column. */
  function ValuesOf(cols: seq<Column>, name: string): Values {
    if cols == [] then [] else if cols[0].name == name then cols[0].values else ValuesOf(cols[1..], name)
  }

  lemma {:induction false} ValuesOfAt(cols: seq<Column>, i: nat)
    requires i < |cols| && Distinct(cols)
    ensures ValuesOf(cols, cols[i].name) == cols[i].values
  {
    if i > 0 {
      ValuesOfAt(cols[1..], i - 1);
    }
  }

  // ---------- the join of two tables ----------

  /** Columns continued by `more`. */
  function Extend(cols: seq<Column>, more: map<string, Values>): seq<Column> {
    if cols == [] then []
    else
      var c := cols[0];
      [Column(c.name, c.values + if c.name in more then more[c.name] else [])] + Extend(cols[1..], more)
  }

  /** New columns start with nils for the rows that are already there. */
  function NewCols(cs: seq<Column>, exist: nat): seq<Column> {
    if cs == [] then [] else [Column(cs[0].name, Nils(exist) + cs[0].values)] + NewCols(cs[1..], exist)
  }

  function Fresh(cs: seq<Column>, known: set<string>): seq<Column> {
    if cs == [] then [] else (if cs[0].name in known then [] else [cs[0]]) + Fresh(cs[1..], known)
  }

  /** What each existing column gets: the other table's values, or nils. */
  function Additions(cols: seq<Column>, cs: seq<Column>, m: nat): map<string, Values> {
    map n | n in Names(cols) :: if n in Names(cs) then ValuesOf(cs, n) else Nils(m)
  }

  /** `cols` with `exist` rows, followed by the `m` rows of `cs`. */
  function Joined(cols: seq<Column>, cs: seq<Column>, exist: nat, m: nat): seq<Column> {
    Extend(cols, Additions(cols, cs, m)) + NewCols(Fresh(cs, Names(cols)), exist)
  }

  lemma {:induction false} ExtendIs(cols: seq<Column>, more: map<string, Values>)
    ensures |Extend(cols, more)| == |cols|
    ensures forall i :: 0 <= i < |cols| ==>
      Extend(cols, more)[i] == Column(cols[i].name, cols[i].values + if cols[i].name in more then more[cols[i].name] else [])
  {
    if cols != [] {
      ExtendIs(cols[1..], more);
    }
  }

  lemma {:induction false} NewColsIs(cs: seq<Column>, exist: nat)
    ensures |NewCols(cs, exist)| == |cs|
    ensures forall i :: 0 <= i < |cs| ==> NewCols(cs, exist)[i] == Column(cs[i].name, Nils(exist) + cs[i].values)
  {
    if cs != [] {
      NewColsIs(cs[1..], exist);
    }
  }

  lemma {:induction false} FreshIs(cs: seq<Column>, known: set<string>)
    ensures forall c :: c in Fresh(cs, known) <==> c in cs && c.name !in known
    ensures Distinct(cs) ==> Distinct(Fresh(cs, known))
  {
    if cs != [] {
      FreshIs(cs[1..], known);
      assert forall c :: c in cs <==> c == cs[0] || c in cs[1..];
      var rest := Fresh(cs[1..], known);
      if Distinct(cs) && cs[0].name !in known {
        assert Distinct(cs[1..]);
        forall j | 0 <= j < |rest| ensures rest[j].name != cs[0].name {
          assert rest[j] in cs[1..];
        }
        assert Fresh(cs, known) == [cs[0]] + rest;
      }
    }
  }

  lemma {:induction false} FreshSnoc(cs: seq<Column>, c: Column, known: set<string>)
    ensures Fresh(cs + [c], known) == Fresh(cs, known) + (if c.name in known then [] else [c])
  {
    if cs != [] {
      FreshSnoc(cs[1..], c, known);
      assert (cs + [c])[1..] == cs[1..] + [c];
    }
  }

  lemma {:induction false} NewColsSnoc(cs: seq<Column>, c: Column, exist: nat)
    ensures NewCols(cs + [c], exist) == NewCols(cs, exist) + [Column(c.name, Nils(exist) + c.values)]
  {
    if cs != [] {
      NewColsSnoc(cs[1..], c, exist);
      assert (cs + [c])[1..] == cs[1..] + [c];
    }
  }

  // ---------- what the join means, cell by cell ----------

  /** The cell of a row; a column that is not there has none. */
  function Cell(cols: seq<Column>, name: string, i: nat): Option<Bytes> {
    var vs := ValuesOf(cols, name);
    if i < |vs| then vs[i] else None
  }

  lemma {:induction false} ValuesOfConcat(a: seq<Column>, b: seq<Column>, name: string)
    ensures ValuesOf(a + b, name) == if name in Names(a) then ValuesOf(a, name) else ValuesOf(b, name)
  {
    if a == [] {
      assert a + b == b;
    } else {
      ValuesOfConcat(a[1..], b, name);
      assert (a + b)[1..] == a[1..] + b && a == [a[0]] + a[1..];
      assert a[0].name in Names(a);
    }
  }

  lemma {:induction false} ValuesOfMissing(cols: seq<Column>, name: string)
    requires name !in Names(cols)
    ensures ValuesOf(cols, name) == []
  {
    if cols != [] {
      assert cols[0] in cols && forall c :: c in cols[1..] ==> c in cols;
      ValuesOfMissing(cols[1..], name);
    }
  }

  lemma {:induction false} ValuesOfExtend(cols: seq<Column>, more: map<string, Values>, name: string)
    requires name in Names(cols)
    ensures ValuesOf(Extend(cols, more), name) == ValuesOf(cols, name) + if name in more then more[name] else []
  {
    if cols[0].name != name {
      var c :| c in cols && c.name == name;
      assert c in cols[1..];
      ValuesOfExtend(cols[1..], more, name);
    }
  }

  lemma {:induction false} ValuesOfNew(cs: seq<Column>, exist: nat, name: string)
    requires name in Names(cs)
    ensures ValuesOf(NewCols(cs, exist), name) == Nils(exist) + ValuesOf(cs, name)
  {
    if cs[0].name != name {
      var c :| c in cs && c.name == name;
      assert c in cs[1..];
      ValuesOfNew(cs[1..], exist, name);
    }
  }

  lemma {:induction false} ValuesOfFresh(cs: seq<Column>, known: set<string>, name: string)
    requires name !in known
    ensures ValuesOf(Fresh(cs, known), name) == ValuesOf(cs, name)
    ensures name in Names(Fresh(cs, known)) <==> name in Names(cs)
  {
    FreshIs(cs, known);
    if cs != [] {
      ValuesOfFresh(cs[1..], known, name);
      var rest := Fresh(cs[1..], known);
      if cs[0].name in known {
        assert Fresh(cs, known) == rest;
      } else {
        assert Fresh(cs, known) == [cs[0]] + rest && ([cs[0]] + rest)[1..] == rest;
      }
    }
  }

  lemma {:induction false} ExtendNames(cols: seq<Column>, more: map<string, Values>)
    ensures Names(Extend(cols, more)) == Names(cols)
  {
    ExtendIs(cols, more);
    forall n | n in Names(cols) ensures n in Names(Extend(cols, more)) {
      var c :| c in cols && c.name == n;
      var i :| 0 <= i < |cols| && cols[i] == c;
      assert Extend(cols, more)[i] in Extend(cols, more);
    }
    forall n | n in Names(Extend(cols, more)) ensures n in Names(cols) {
      var c :| c in Extend(cols, more) && c.name == n;
      var i :| 0 <= i < |cols| && Extend(cols, more)[i] == c;
      assert cols[i] in cols;
    }
  }

  lemma {:induction false} ValuesLength(cols: seq<Column>, n: nat, name: string)
    requires Filled(cols, n) && name in Names(cols)
    ensures |ValuesOf(cols, name)| == n
  {
    if cols[0].name == name {
      assert cols[0] in cols;
    } else {
      var c :| c in cols && c.name == name;
      assert c in cols[1..] && forall x :: x in cols[1..] ==> x in cols;
      ValuesLength(cols[1..], n, name);
    }
  }

  /** The values of a column of the join: first the one table's, then the other's, nil where there are none. */
  lemma {:induction false} JoinedValues(cols: seq<Column>, cs: seq<Column>, exist: nat, m: nat, name: string)
    ensures ValuesOf(Joined(cols, cs, exist, m), name)
         == if name in Names(cols) then ValuesOf(cols, name) + (if name in Names(cs) then ValuesOf(cs, name) else Nils(m))
            else if name in Names(cs) then Nils(exist) + ValuesOf(cs, name)
            else []
  {
    hide Extend, NewCols, Fresh, Names, ValuesOf;
    var old', new' := Extend(cols, Additions(cols, cs, m)), NewCols(Fresh(cs, Names(cols)), exist);
    ValuesOfConcat(old', new', name);
    ExtendNames(cols, Additions(cols, cs, m));
    if name in Names(cols) {
      ValuesOfExtend(cols, Additions(cols, cs, m), name);
    } else {
      ValuesOfFresh(cs, Names(cols), name);
      if name in Names(cs) {
        ValuesOfNew(Fresh(cs, Names(cols)), exist, name);
      } else {
        NewColsNames(Fresh(cs, Names(cols)), exist);
        ValuesOfMissing(new', name);
      }
    }
  }

  lemma {:induction false} NewColsNames(cs: seq<Column>, exist: nat)
    ensures Names(NewCols(cs, exist)) == Names(cs)
  {
    NewColsIs(cs, exist);
    forall n | n in Names(cs) ensures n in Names(NewCols(cs, exist)) {
      var c :| c in cs && c.name == n;
      var i :| 0 <= i < |cs| && cs[i] == c;
      assert NewCols(cs, exist)[i] in NewCols(cs, exist);
    }
    forall n | n in Names(NewCols(cs, exist)) ensures n in Names(cs) {
      var c :| c in NewCols(cs, exist) && c.name == n;
      var i :| 0 <= i < |cs| && NewCols(cs, exist)[i] == c;
      assert cs[i] in cs;
    }
  }

  /** Appending tables is appending rows: every cell stays where it was or moves to its row's new place. */
  lemma {:induction false} JoinedCells(cols: seq<Column>, cs: seq<Column>, exist: nat, m: nat, name: string, i: nat)
    requires Filled(cols, exist) && Filled(cs, m) && i < exist + m
    ensures Cell(Joined(cols, cs, exist, m), name, i)
         == if i < exist then Cell(cols, name, i) else Cell(cs, name, i - exist)
    ensures name in Names(cols) + Names(cs) ==> |ValuesOf(Joined(cols, cs, exist, m), name)| == exist + m
  {
    hide Joined, Names, Filled;
    JoinedValues(cols, cs, exist, m, name);
    NilsLength(exist);
    NilsLength(m);
    if name in Names(cols) { ValuesLength(cols, exist, name); } else { ValuesOfMissing(cols, name); }
    if name in Names(cs) { ValuesLength(cs, m, name); } else { ValuesOfMissing(cs, name); }
  }

  // ---------- what the code computes ----------

  function Sliced(cs: seq<Column>, idx: nat, offset: nat): seq<Column>
    requires idx <= offset && Reaches(cs, offset)
  {
    if cs == [] then []
    else
      assert cs[0] in cs && forall c :: c in cs[1..] ==> c in cs;
      [Column(cs[0].name, cs[0].values[idx..offset])] + Sliced(cs[1..], idx, offset)
  }

  /** Every column reaches `offset`: the check that would panic. */
  predicate Reaches(cs: seq<Column>, offset: nat) {
    forall c :: c in cs ==> offset <= |c.values|
  }

  lemma {:induction false} SlicedAt(cs: seq<Column>, idx: nat, offset: nat, i: nat)
    requires idx <= offset && Reaches(cs, offset) && i < |cs|
    ensures |Sliced(cs, idx, offset)| == |cs| && cs[i] in cs
    ensures Sliced(cs, idx, offset)[i] == Column(cs[i].name, cs[i].values[idx..offset])
  {
    assert cs[0] in cs && cs[i] in cs && forall c :: c in cs[1..] ==> c in cs;
    if i > 0 {
      SlicedAt(cs[1..], idx, offset, i - 1);
    } else if |cs| > 1 {
      SlicedAt(cs[1..], idx, offset, 0);
    }
  }

  lemma {:induction false} SlicedIs(cs: seq<Column>, idx: nat, offset: nat)
    requires idx <= offset && Reaches(cs, offset)
    ensures |Sliced(cs, idx, offset)| == |cs|
    ensures forall i :: 0 <= i < |cs| ==> Sliced(cs, idx, offset)[i].name == cs[i].name
    ensures Filled(Sliced(cs, idx, offset), offset - idx)
    ensures Distinct(cs) ==> Distinct(Sliced(cs, idx, offset))
  {
    hide Sliced;
    if cs == [] {
      SlicedNone(idx, offset);
    } else {
      SlicedAt(cs, idx, offset, 0);
    }
    forall i | 0 <= i < |cs|
      ensures Sliced(cs, idx, offset)[i].name == cs[i].name && |Sliced(cs, idx, offset)[i].values| == offset - idx
    {
      SlicedAt(cs, idx, offset, i);
    }
  }

  lemma {:induction false} SlicedNone(idx: nat, offset: nat)
    requires idx <= offset
    ensures Sliced([], idx, offset) == []
  {
  }

  /** How many leading names agree. */
  function Agree(cols: seq<Column>, cs: seq<Column>): (k: nat)
    ensures k <= |cols| && k <= |cs|
    ensures forall i :: 0 <= i < k ==> cols[i].name == cs[i].name
    ensures k < |cols| && k < |cs| ==> cols[k].name != cs[k].name
    ensures |cols| == |cs| == k <==> NameList(cols) == NameList(cs)
  {
    var k := Matching(NameList(cols), NameList(cs));
    assert forall i :: 0 <= i < |cols| ==> cols[i].name == NameList(cols)[i];
    assert forall i :: 0 <= i < |cs| ==> cs[i].name == NameList(cs)[i];
    k
  }

  function Taken(cs: seq<Column>): map<string, Values> {
    map n | n in Names(cs) :: ValuesOf(cs, n)
  }

  /** The shared columns whose values arrive: those reached before the slice has moved. */
  function Arrived(known: set<string>, room: nat, cs: seq<Column>): map<string, Values> {
    map n | n in Names(cs) && n in known && FreshBefore(NameList(cs), known, n) <= room :: ValuesOf(cs, n)
  }

  function Got(known: set<string>, room: nat, cs: seq<Column>, m: nat): map<string, Values> {
    map n | n in known && (n !in Names(cs) || n in Arrived(known, room, cs)) ::
      if n in Names(cs) then ValuesOf(cs, n) else Nils(m)
  }

  function Full(cols: seq<Column>, room: nat, cs: seq<Column>, exist: nat, m: nat): seq<Column> {
    Extend(cols, Got(Names(cols), room, cs, m)) + NewCols(Fresh(cs, Names(cols)), exist)
  }

  function Appended(cols: seq<Column>, room: nat, cs: seq<Column>, exist: nat, m: nat): seq<Column> {
    if |cols| != |cs| then Full(cols, room, cs, exist, m)
    else
      var k := Agree(cols, cs);
      var fast := Extend(cols, Taken(cs[..k]));
      if k == |cs| then fast else Full(fast, room, cs, exist, m)
  }

  // ---------- steps of the loops ----------

  lemma {:induction false} FreshIsCount(cs: seq<Column>, known: set<string>)
    ensures |Fresh(cs, known)| == FreshCount(NameList(cs), known)
  {
    if cs != [] {
      FreshIsCount(cs[1..], known);
      assert NameList(cs)[1..] == NameList(cs[1..]);
    }
  }

  lemma NamesAre(cs: seq<Column>)
    ensures Names(cs) == NameSet(NameList(cs)) && forall n :: n in Names(cs) <==> n in NameList(cs)
  {
    forall n | n in Names(cs) ensures n in NameList(cs) {
      var c :| c in cs && c.name == n;
      var i :| 0 <= i < |cs| && cs[i] == c;
      assert NameList(cs)[i] == n;
    }
    forall n | n in NameList(cs) ensures n in Names(cs) {
      var i :| 0 <= i < |cs| && NameList(cs)[i] == n;
      assert cs[i] in cs;
    }
  }

  /** One more name. */
  lemma {:induction false} FreshBeforeMore(cs: seq<Column>, c: Column, known: set<string>, name: string)
    ensures name in Names(cs) ==> FreshBefore(NameList(cs + [c]), known, name) == FreshBefore(NameList(cs), known, name)
    ensures name !in Names(cs) && c.name == name ==>
      FreshBefore(NameList(cs + [c]), known, name) == |Fresh(cs, known)|
  {
    NamesAre(cs);
    FreshIsCount(cs, known);
    FreshBeforeSnoc(NameList(cs), c.name, known, name);
    assert NameList(cs + [c]) == NameList(cs) + [c.name];
  }

  lemma NamesHead(cs: seq<Column>)
    requires cs != []
    ensures Names(cs) == {cs[0].name} + Names(cs[1..])
  {
    assert cs[0] in cs;
    forall n | n in Names(cs[1..]) ensures n in Names(cs) {
      var c :| c in cs[1..] && c.name == n;
      assert c in cs;
    }
    forall n | n in Names(cs) ensures n == cs[0].name || n in Names(cs[1..]) {
      var c :| c in cs && c.name == n;
      assert c == cs[0] || c in cs[1..];
    }
  }

  lemma NamesSnoc(cs: seq<Column>, c: Column)
    ensures Names(cs + [c]) == Names(cs) + {c.name}
  {
    assert c in cs + [c];
    forall n | n in Names(cs) ensures n in Names(cs + [c]) {
      var x :| x in cs && x.name == n;
      assert x in cs + [c];
    }
  }

  lemma {:induction false} ValuesOfSnoc(cs: seq<Column>, c: Column, name: string)
    ensures ValuesOf(cs + [c], name) == if name in Names(cs) then ValuesOf(cs, name) else if c.name == name then c.values else []
  {
    ValuesOfConcat(cs, [c], name);
  }

  /** One more column of the other table, whose name has not occurred. */
  lemma {:induction false} ArrivedSnoc(known: set<string>, room: nat, cs: seq<Column>, c: Column)
    requires c.name !in Names(cs)
    ensures Arrived(known, room, cs + [c])
         == if c.name in known && |Fresh(cs, known)| <= room then Arrived(known, room, cs)[c.name := c.values]
            else Arrived(known, room, cs)
  {
    hide Fresh, FreshBefore, Names, ValuesOf;
    NamesSnoc(cs, c);
    var a, b := Arrived(known, room, cs), Arrived(known, room, cs + [c]);
    forall n | n in Names(cs + [c])
      ensures ValuesOf(cs + [c], n) == if n in Names(cs) then ValuesOf(cs, n) else c.values
      ensures FreshBefore(NameList(cs + [c]), known, n) == if n in Names(cs) then FreshBefore(NameList(cs), known, n) else |Fresh(cs, known)|
    {
      ValuesOfSnoc(cs, c, n);
      FreshBeforeMore(cs, c, known, n);
    }
  }

  /** Appending to one column. */
  lemma ExtendPut(cols: seq<Column>, more: map<string, Values>, j: nat, vs: Values)
    requires Distinct(cols) && j < |cols| && cols[j].name !in more
    ensures |Extend(cols, more)| == |cols|
    ensures Extend(cols, more)[j] == cols[j]
    ensures Extend(cols, more)[j := Column(cols[j].name, cols[j].values + vs)] == Extend(cols, more[cols[j].name := vs])
  {
    hide Extend;
    ExtendIs(cols, more);
    ExtendIs(cols, more[cols[j].name := vs]);
    assert cols[j].values + [] == cols[j].values;
  }

  lemma TakenSnoc(cs: seq<Column>, c: Column)
    requires c.name !in Names(cs)
    ensures Taken(cs + [c]) == Taken(cs)[c.name := c.values]
  {
    hide Names, ValuesOf;
    NamesSnoc(cs, c);
    forall n | n in Names(cs + [c])
      ensures ValuesOf(cs + [c], n) == if n in Names(cs) then ValuesOf(cs, n) else c.values
    {
      ValuesOfSnoc(cs, c, n);
    }
  }

  lemma PrefixNames(cs: seq<Column>, i: nat)
    requires Distinct(cs) && i < |cs|
    ensures cs[i].name !in Names(cs[..i]) && cs[..i + 1] == cs[..i] + [cs[i]]
  {
  }

  lemma ConcatThrice(v: Values, x: Values, y: Values)
    ensures v + x + y == v + (x + y) && v + [] + [] == v + []
  {
  }

  lemma {:induction false} ExtendTwice(cols: seq<Column>, f: map<string, Values>, g: map<string, Values>, h: map<string, Values>)
    requires forall n :: n in h <==> n in f || n in g
    requires forall n :: n in h ==> h[n] == (if n in f then f[n] else []) + (if n in g then g[n] else [])
    ensures Extend(Extend(cols, f), g) == Extend(cols, h)
  {
    hide Extend;
    ExtendIs(cols, f);
    ExtendIs(cols, h);
    ExtendIs(Extend(cols, f), g);
    var a, b := Extend(Extend(cols, f), g), Extend(cols, h);
    forall i | 0 <= i < |cols| ensures a[i] == b[i] {
      var n, v := cols[i].name, cols[i].values;
      ConcatThrice(v, if n in f then f[n] else [], if n in g then g[n] else []);
    }
  }

  // ---------- when the code computes the join ----------

  lemma {:induction false} ExtendDiffers(cols: seq<Column>, f: map<string, Values>, g: map<string, Values>, n: string)
    requires n in Names(cols)
    requires |if n in f then f[n] else []| != |if n in g then g[n] else []|
    ensures Extend(cols, f) != Extend(cols, g)
  {
    ExtendIs(cols, f);
    ExtendIs(cols, g);
    var c :| c in cols && c.name == n;
    var i :| 0 <= i < |cols| && cols[i] == c;
    assert Extend(cols, f)[i].values != Extend(cols, g)[i].values;
  }

  lemma ConcatDiffers(a: seq<Column>, c: seq<Column>, b: seq<Column>, d: seq<Column>)
    requires |a| == |b| && a != b
    ensures a + c != b + d
  {
    assert (a + c)[..|a|] == a && (b + d)[..|b|] == b;
  }

  lemma GotAll(cols: seq<Column>, room: nat, cs: seq<Column>, m: nat)
    requires NoneLate(Names(cols), room, NameList(cs))
    ensures Got(Names(cols), room, cs, m) == Additions(cols, cs, m)
  {
    NamesAre(cs);
    hide Names, ValuesOf, FreshBefore;
  }

  /** The full path computes the join exactly when no shared column comes too late. */
  lemma FullIff(cols: seq<Column>, room: nat, cs: seq<Column>, exist: nat, m: nat)
    requires Filled(cs, m) && m > 0
    ensures Full(cols, room, cs, exist, m) == Joined(cols, cs, exist, m) <==> NoneLate(Names(cols), room, NameList(cs))
  {
    hide Names, ValuesOf, FreshBefore, Extend, NewCols, Fresh, Filled;
    NamesAre(cs);
    if NoneLate(Names(cols), room, NameList(cs)) {
      GotAll(cols, room, cs, m);
    } else {
      var n :| n in Names(cs) && n in Names(cols) && FreshBefore(NameList(cs), Names(cols), n) > room;
      ValuesLength(cs, m, n);
      var f, g := Got(Names(cols), room, cs, m), Additions(cols, cs, m);
      ExtendDiffers(cols, f, g, n);
      ExtendIs(cols, f);
      ExtendIs(cols, g);
      var tail := NewCols(Fresh(cs, Names(cols)), exist);
      ConcatDiffers(Extend(cols, f), tail, Extend(cols, g), tail);
    }
  }

  /** On equal names the fast path computes what the full path does, the join. */
  lemma {:induction false} FastIsJoin(cols: seq<Column>, cs: seq<Column>, exist: nat, m: nat)
    requires Distinct(cols) && Distinct(cs) && |cols| == |cs| == Agree(cols, cs)
    ensures Extend(cols, Taken(cs)) == Joined(cols, cs, exist, m)
    ensures forall room :: Full(cols, room, cs, exist, m) == Joined(cols, cs, exist, m)
  {
    hide ValuesOf, Extend, NewCols, Fresh, FreshBefore;
    SameNames(cols, cs);
    NothingFresh(cs, Names(cols));
    NewColsIs([], exist);
    assert Taken(cs) == Additions(cols, cs, m);
    forall room: nat ensures Full(cols, room, cs, exist, m) == Joined(cols, cs, exist, m) {
      NamesAre(cs);
      forall n | n in NameList(cs) ensures FreshBefore(NameList(cs), Names(cols), n) == 0 {
        NoneFresh(NameList(cs), Names(cols), n);
      }
      GotAll(cols, room, cs, m);
    }
  }

  lemma SameNames(cols: seq<Column>, cs: seq<Column>)
    requires |cols| == |cs| == Agree(cols, cs)
    ensures Names(cols) == Names(cs)
  {
    forall n | n in Names(cols) ensures n in Names(cs) {
      var c :| c in cols && c.name == n;
      var i :| 0 <= i < |cols| && cols[i] == c;
      assert cs[i] in cs;
    }
    forall n | n in Names(cs) ensures n in Names(cols) {
      var c :| c in cs && c.name == n;
      var i :| 0 <= i < |cs| && cs[i] == c;
      assert cols[i] in cols;
    }
  }

  lemma {:induction false} NothingFresh(cs: seq<Column>, known: set<string>)
    requires Names(cs) <= known
    ensures Fresh(cs, known) == []
  {
    if cs != [] {
      NamesHead(cs);
      NothingFresh(cs[1..], known);
    }
  }

  /** Columns that the fast path has appended to get those values again; whatever follows, it is not the join. */
  lemma {:induction false} AppendedTwice(cols: seq<Column>, room: nat, cs: seq<Column>, exist: nat, m: nat, k: nat, tail: seq<Column>)
    requires Filled(cs, m) && m > 0 && 0 < k <= |cs| && k == Agree(cols, cs)
    ensures Extend(Extend(cols, Taken(cs[..k])), Got(Names(cols), room, cs, m)) + tail != Joined(cols, cs, exist, m)
  {
    hide Extend, NewCols, Fresh, Filled, ValuesOf, Names;
    var f, g, e := Taken(cs[..k]), Got(Names(cols), room, cs, m), Additions(cols, cs, m);
    var h := map x | x in f.Keys + g.Keys :: (if x in f then f[x] else []) + (if x in g then g[x] else []);
    ExtendTwice(cols, f, g, h);
    FirstDoubled(cols, room, cs, m, k);
    ExtendDiffers(cols, h, e, cs[0].name);
    ExtendIs(cols, h);
    ExtendIs(cols, e);
    ConcatDiffers(Extend(cols, h), tail, Extend(cols, e), NewCols(Fresh(cs, Names(cols)), exist));
  }

  /** A fast path that gives up after its first write has that column's values appended twice. */
  lemma Doubled(cols: seq<Column>, room: nat, cs: seq<Column>, exist: nat, m: nat)
    requires Filled(cs, m) && m > 0 && |cols| == |cs| && 0 < Agree(cols, cs) < |cs|
    ensures Appended(cols, room, cs, exist, m) != Joined(cols, cs, exist, m)
  {
    hide Extend, NewCols, Fresh, Filled, Names, Got, Taken, Joined;
    var k := Agree(cols, cs);
    ExtendNames(cols, Taken(cs[..k]));
    AppendedTwice(cols, room, cs, exist, m, k, NewCols(Fresh(cs, Names(cols)), exist));
  }

  lemma FirstDoubled(cols: seq<Column>, room: nat, cs: seq<Column>, m: nat, k: nat)
    requires Filled(cs, m) && m > 0 && 0 < k <= |cols| && k <= |cs| && cols[0].name == cs[0].name
    ensures var n := cs[0].name; var f, g := Taken(cs[..k]), Got(Names(cols), room, cs, m);
      && n in Names(cols) && n in Names(cs) && n in f && n in g && |f[n]| == m && |g[n]| == m
      && |Additions(cols, cs, m)[n]| == m
  {
    assert cols[0] in cols && cs[0] in cs && cs[..k][0] == cs[0] && cs[0] in cs[..k];
  }

  /** Appending fields is appending rows if and only if the tables are clean. */
  lemma AppendedIff(cols: seq<Column>, room: nat, cs: seq<Column>, exist: nat, m: nat)
    requires Distinct(cols) && Distinct(cs) && Filled(cs, m) && m > 0
    ensures Appended(cols, room, cs, exist, m) == Joined(cols, cs, exist, m) <==> Clean(NameList(cols), room, NameList(cs))
  {
    hide Full, Joined, NoneLate, Distinct, Filled, Extend, Taken, Names;
    var k := Agree(cols, cs);
    NamesAre(cols);
    assert |NameList(cols)| == |cols| && |NameList(cs)| == |cs|;
    if |cols| != |cs| {
      FullIff(cols, room, cs, exist, m);
    } else if k == |cs| {
      assert cs[..k] == cs;
      FastIsJoin(cols, cs, exist, m);
    } else if k == 0 {
      NothingTaken(cols, cs);
      FullIff(cols, room, cs, exist, m);
    } else {
      Doubled(cols, room, cs, exist, m);
    }
  }

  lemma {:induction false} NothingTaken(cols: seq<Column>, cs: seq<Column>)
    ensures Extend(cols, Taken(cs[..0])) == cols
  {
    hide Extend;
    assert cs[..0] == [];
    ExtendIs(cols, Taken([]));
    forall i | 0 <= i < |cols| ensures Extend(cols, Taken([]))[i] == cols[i] {
      assert cols[i].values + [] == cols[i].values;
    }
  }

  // ---------- the code ----------

  method IndexOf(cols: seq<Column>, name: string) returns (j: nat)
    requires name in Names(cols)
    ensures j < |cols| && cols[j].name == name
  {
    assert exists i :: 0 <= i < |cols| && cols[i].name == name;
    j := 0;
    while j < |cols| && cols[j].name != name
      invariant j <= |cols| && forall i :: 0 <= i < j ==> cols[i].name != name
    {
      j := j + 1;
    }
  }

  class Fields {
    var columns: seq<Column>
    var cap: nat

    constructor (columns: seq<Column>, cap: nat)
      ensures this.columns == columns && this.cap == cap
    {
      this.columns, this.cap := columns, cap;
    }

    ghost predicate Valid()
      reads this
    {
      |columns| <= cap && Distinct(columns)
    }

    /** fastFieldAppend */
    method FastAppend(b: seq<Column>, idx: nat, offset: nat) returns (ok: bool)
      requires Valid() && Distinct(b) && idx <= offset && Reaches(b, offset)
      modifies this`columns
      ensures Valid()
      ensures var cs := Sliced(b, idx, offset); var k := Agree(old(columns), cs);
        && ok == (|old(columns)| == |cs| == k)
        && columns == if |old(columns)| != |cs| then old(columns) else Extend(old(columns), Taken(cs[..k]))
    {
      hide Sliced, Extend, Taken, Agree;
      ghost var cs, cols := Sliced(b, idx, offset), columns;
      SlicedIs(b, idx, offset);
      if |columns| != |b| {
        return false;
      }
      NothingTaken(cols, cs);
      var i := 0;
      while i < |b|
        invariant 0 <= i <= |b| && |columns| == |cols| && i <= Agree(cols, cs)
        invariant columns == Extend(cols, Taken(cs[..i])) && Valid()
      {
        ExtendIs(cols, Taken(cs[..i]));
        if columns[i].name != b[i].name {
          assert Agree(cols, cs) == i;
          return false;
        }
        SlicedAt(b, idx, offset, i);
        FastStep(cols, cs, i);
        columns := columns[i := Column(columns[i].name, columns[i].values + b[i].values[idx..offset])];
        i := i + 1;
      }
      return true;
    }

    /** The loop of fullFieldAppend over the other block's columns. */
    method AppendByName(b: seq<Column>, idx: nat, offset: nat, exist: nat)
      requires Valid() && Distinct(b) && idx <= offset && Reaches(b, offset)
      modifies this
      ensures |columns| <= cap
      ensures var cs, known := Sliced(b, idx, offset), Names(old(columns));
        columns == Extend(old(columns), Arrived(known, old(cap - |columns|), cs)) + NewCols(Fresh(cs, known), exist)
    {
      hide Sliced, Extend, Arrived, NewCols, Fresh;
      var cols, room := columns, cap - |columns|;
      ghost var cs, known := Sliced(b, idx, offset), Names(cols);
      SlicedIs(b, idx, offset);
      var moved := false;     // the pointers taken before the loop no longer point into the slice
      NothingArrived(cols, room, cs, exist);
      for i := 0 to |b|
        invariant moved == (|Fresh(cs[..i], known)| > room)
        invariant columns == Extend(cols, Arrived(known, room, cs[..i])) + NewCols(Fresh(cs[..i], known), exist)
        invariant !moved ==> cap - |columns| == room - |Fresh(cs[..i], known)|
        invariant |columns| <= cap
      {
        SlicedAt(b, idx, offset, i);
        ByNameStep(cols, room, cs, i, exist);
        if b[i].name in Names(cols) {
          if !moved {
            var j := IndexOf(cols, b[i].name);
            PutShared(cols, room, cs, i, exist, j);
            columns := columns[j := Column(columns[j].name, columns[j].values + b[i].values[idx..offset])];
          }
        } else {
          if |columns| == cap {
            moved := true;
            var c: nat :| c > cap;
            cap := c;
          }
          columns := columns + [Column(b[i].name, Nils(exist) + b[i].values[idx..offset])];
        }
      }
      assert cs[..|b|] == cs;
    }

    /** The last loop of fullFieldAppend: nils for columns that the other block does not have. */
    method PadMissing(b: seq<Column>, m: nat)
      modifies this`columns
      ensures columns == Padded(old(columns), Names(b), m)
    {
      hide Padded;
      ghost var cols := columns;
      var i := 0;
      PaddedLength([], Names(b), m);
      while i < |columns|
        invariant 0 <= i <= |columns| == |cols|
        invariant columns == Padded(cols[..i], Names(b), m) + cols[i..]
      {
        PaddedLength(cols[..i], Names(b), m);
        PaddedSnoc(cols[..i], cols[i], Names(b), m);
        assert cols[..i + 1] == cols[..i] + [cols[i]] && columns[i] == cols[i];
        if columns[i].name !in Names(b) {
          columns := columns[i := Column(columns[i].name, columns[i].values + Nils(m))];
        }
        i := i + 1;
      }
      assert cols[..i] == cols;
    }

    /** fullFieldAppend */
    method FullAppend(b: seq<Column>, idx: nat, offset: nat, exist: nat)
      requires Valid() && Distinct(b) && idx <= offset && Reaches(b, offset)
      modifies this
      ensures columns == Full(old(columns), old(cap - |columns|), Sliced(b, idx, offset), exist, offset - idx)
      ensures |columns| <= cap
    {
      hide Sliced, Extend, Arrived, NewCols, Fresh, Full, Padded;
      ghost var cols, room, cs := columns, cap - |columns|, Sliced(b, idx, offset);
      AppendByName(b, idx, offset, exist);
      PadMissing(b, offset - idx);
      PaddedIsFull(cols, room, cs, exist, offset - idx);
      SlicedNames(b, idx, offset);
      PaddedLength(Extend(cols, Arrived(Names(cols), room, cs)) + NewCols(Fresh(cs, Names(cols)), exist), Names(b), offset - idx);
    }

    /**
      The field part of append, for `exist` rows already there.  The result is the join of the two
      tables, that is, the rows of the other block are appended, if and only if the tables are clean.
     */
    method Append(b: seq<Column>, idx: nat, offset: nat, exist: nat)
      requires Valid() && Distinct(b) && idx < offset && Reaches(b, offset)
      modifies this
      ensures var cols, cs := old(columns), Sliced(b, idx, offset);
        columns == Joined(cols, cs, exist, offset - idx) <==> Clean(NameList(cols), old(cap - |columns|), NameList(cs))
      ensures |columns| <= cap
    {
      hide Sliced, Extend, Full, Taken, Joined, Clean, Appended, Distinct, Reaches, NameList, Agree;
      ghost var cols, room, cs := columns, cap - |columns|, Sliced(b, idx, offset);
      SlicedIs(b, idx, offset);
      AppendedIff(cols, room, cs, exist, offset - idx);
      AppendedIs(cols, room, cs, exist, offset - idx);
      if |columns| == 0 && |b| > 0 {
        FullAppend(b, idx, offset, exist);
      } else {
        var ok := FastAppend(b, idx, offset);
        if !ok {
          if |cols| == |cs| {
            ExtendIs(cols, Taken(cs[..Agree(cols, cs)]));
          }
          FullAppend(b, idx, offset, exist);
        }
      }
    }
  }

  lemma {:induction false} AppendedIs(cols: seq<Column>, room: nat, cs: seq<Column>, exist: nat, m: nat)
    ensures Appended(cols, room, cs, exist, m)
         == (if |cols| != |cs| then Full(cols, room, cs, exist, m)
             else if Agree(cols, cs) == |cs| then Extend(cols, Taken(cs[..Agree(cols, cs)]))
             else Full(Extend(cols, Taken(cs[..Agree(cols, cs)])), room, cs, exist, m))
  {
  }

  lemma FastStep(cols: seq<Column>, cs: seq<Column>, i: nat)
    requires Distinct(cols) && Distinct(cs) && i < |cs| == |cols| && i <= Agree(cols, cs) && cols[i].name == cs[i].name
    ensures i + 1 <= Agree(cols, cs)
    ensures |Extend(cols, Taken(cs[..i]))| == |cols| && Extend(cols, Taken(cs[..i]))[i] == cols[i]
    ensures Extend(cols, Taken(cs[..i]))[i := Column(cols[i].name, cols[i].values + cs[i].values)]
         == Extend(cols, Taken(cs[..i + 1]))
    ensures Distinct(Extend(cols, Taken(cs[..i + 1])))
  {
    hide Extend, Agree;
    PrefixNames(cs, i);
    TakenSnoc(cs[..i], cs[i]);
    ExtendPut(cols, Taken(cs[..i]), i, cs[i].values);
    ExtendIs(cols, Taken(cs[..i + 1]));
  }

  lemma {:induction false} NothingArrived(cols: seq<Column>, room: nat, cs: seq<Column>, exist: nat)
    ensures Extend(cols, Arrived(Names(cols), room, cs[..0])) + NewCols(Fresh(cs[..0], Names(cols)), exist) == cols
    ensures Fresh(cs[..0], Names(cols)) == []
  {
    assert cs[..0] == [];
    NothingTaken(cols, cs);
    assert Taken(cs[..0]) == Arrived(Names(cols), room, cs[..0]);
  }

  /** What one turn of the loop has to do. */
  lemma {:induction false} ByNameStep(cols: seq<Column>, room: nat, cs: seq<Column>, i: nat, exist: nat)
    requires Distinct(cs) && i < |cs|
    ensures var known, c := Names(cols), cs[i];
      var added, added' := Fresh(cs[..i], known), Fresh(cs[..i + 1], known);
      && |added'| == |added| + (if c.name in known then 0 else 1) && (c.name in known ==> added' == added)
      && (c.name !in known ==>
            && Arrived(known, room, cs[..i + 1]) == Arrived(known, room, cs[..i])
            && Extend(cols, Arrived(known, room, cs[..i + 1])) + NewCols(added', exist)
               == Extend(cols, Arrived(known, room, cs[..i])) + NewCols(added, exist)
                  + [Column(c.name, Nils(exist) + c.values)])
      && (c.name in known && |added| > room ==> Arrived(known, room, cs[..i + 1]) == Arrived(known, room, cs[..i]))
      && (c.name in known && |added| <= room ==>
            && c.name !in Arrived(known, room, cs[..i])
            && Arrived(known, room, cs[..i + 1]) == Arrived(known, room, cs[..i])[c.name := c.values])
  {
    hide Fresh, NewCols, FreshBefore, ValuesOf, Extend;
    PrefixNames(cs, i);
    FreshSnoc(cs[..i], cs[i], Names(cols));
    NewColsSnoc(Fresh(cs[..i], Names(cols)), cs[i], exist);
    ArrivedSnoc(Names(cols), room, cs[..i], cs[i]);
  }

  lemma {:induction false} PutShared(cols: seq<Column>, room: nat, cs: seq<Column>, i: nat, exist: nat, j: nat)
    requires Distinct(cols) && Distinct(cs) && i < |cs| && j < |cols| && cols[j].name == cs[i].name
    requires |Fresh(cs[..i], Names(cols))| <= room && cs[i].name in Names(cols)
    ensures var known := Names(cols);
      var now := Extend(cols, Arrived(known, room, cs[..i])) + NewCols(Fresh(cs[..i], known), exist);
      && j < |now| && now[j].name == cs[i].name
      && now[j := Column(now[j].name, now[j].values + cs[i].values)]
         == Extend(cols, Arrived(known, room, cs[..i + 1])) + NewCols(Fresh(cs[..i + 1], known), exist)
  {
    hide Fresh, NewCols, Extend, Arrived, Names;
    ByNameStep(cols, room, cs, i, exist);
    ExtendPut(cols, Arrived(Names(cols), room, cs[..i]), j, cs[i].values);
    assert Fresh(cs[..i + 1], Names(cols)) == Fresh(cs[..i], Names(cols));
  }

  function Padded(cols: seq<Column>, known: set<string>, m: nat): seq<Column> {
    if cols == [] then []
    else
      [if cols[0].name in known then cols[0] else Column(cols[0].name, cols[0].values + Nils(m))]
      + Padded(cols[1..], known, m)
  }

  lemma {:induction false} PaddedLength(cols: seq<Column>, known: set<string>, m: nat)
    ensures |Padded(cols, known, m)| == |cols|
    ensures forall i :: 0 <= i < |cols| ==>
      Padded(cols, known, m)[i]
      == if cols[i].name in known then cols[i] else Column(cols[i].name, cols[i].values + Nils(m))
  {
    if cols != [] {
      PaddedLength(cols[1..], known, m);
    }
  }

  lemma {:induction false} PaddedSnoc(cols: seq<Column>, c: Column, known: set<string>, m: nat)
    ensures Padded(cols + [c], known, m)
         == Padded(cols, known, m) + [if c.name in known then c else Column(c.name, c.values + Nils(m))]
  {
    if cols != [] {
      PaddedSnoc(cols[1..], c, known, m);
      assert (cols + [c])[1..] == cols[1..] + [c];
    }
  }

  lemma {:induction false} SlicedNames(b: seq<Column>, idx: nat, offset: nat)
    requires idx <= offset && Reaches(b, offset)
    ensures Names(Sliced(b, idx, offset)) == Names(b)
  {
    hide Sliced;
    SlicedIs(b, idx, offset);
    var cs := Sliced(b, idx, offset);
    forall n | n in Names(b) ensures n in Names(cs) {
      var c :| c in b && c.name == n;
      var i :| 0 <= i < |b| && b[i] == c;
      assert cs[i] in cs;
    }
    forall n | n in Names(cs) ensures n in Names(b) {
      var c :| c in cs && c.name == n;
      var i :| 0 <= i < |cs| && cs[i] == c;
      assert b[i] in b;
    }
  }

  /** After padding, every column has what the full path gives it. */
  lemma {:induction false} PaddedIsFull(cols: seq<Column>, room: nat, cs: seq<Column>, exist: nat, m: nat)
    ensures Padded(Extend(cols, Arrived(Names(cols), room, cs)) + NewCols(Fresh(cs, Names(cols)), exist), Names(cs), m)
         == Full(cols, room, cs, exist, m)
  {
    hide Extend, NewCols, Fresh, FreshBefore, ValuesOf, Padded;
    var known := Names(cols);
    var a, g, added := Arrived(known, room, cs), Got(known, room, cs, m), Fresh(cs, known);
    var now := Extend(cols, a) + NewCols(added, exist);
    ExtendIs(cols, a);
    ExtendIs(cols, g);
    NewColsIs(added, exist);
    FreshIs(cs, known);
    PaddedLength(now, Names(cs), m);
    forall i | 0 <= i < |now| ensures Padded(now, Names(cs), m)[i] == Full(cols, room, cs, exist, m)[i] {
      if i < |cols| {
        assert cols[i] in cols && cols[i].name in known;
        assert cols[i].values + [] == cols[i].values;
      } else {
        assert added[i - |cols|] in added && added[i - |cols|] in cs;
      }
    }
  }

  /** A shared column after a new one, in a full slice: its new values are lost. */
  lemma LateColumnIsLost(x: Option<Bytes>)
    ensures var cols, cs := [Column("a", [x])], [Column("b", [x]), Column("a", [x])];
      Appended(cols, 0, cs, 1, 1) != Joined(cols, cs, 1, 1)
  {
    var cols, cs := [Column("a", [x])], [Column("b", [x]), Column("a", [x])];
    assert "b" != "a" by { assert "b"[0] != "a"[0]; }
    assert cols[0] in cols && cs[1] in cs;
    assert "a" in Names(cols) && "a" in Names(cs);
    assert "b" !in Names(cols);
    assert NameList(cols) == ["a"] && NameList(cs) == ["b", "a"];
    assert ["b", "a"][1..] == ["a"];
    NamesAre(cols);
    assert FreshBefore(NameList(cs), Names(cols), "a") == 1;
    AppendedIff(cols, 0, cs, 1, 1);
  }
}
