/**
  The column names of blocks that are appended to each other, and exactly when every append of a merge
  is clean.  How much room a slice has left is up to the runtime, so a merge is safe only if its appends
  are clean whatever the room.
 */
module Joins {
  import opened Schemas

  // ---------- the names of a join ----------

  function FreshNames(names: seq<string>, known: set<string>): seq<string> {
    if names == [] then [] else (if names[0] in known then [] else [names[0]]) + FreshNames(names[1..], known)
  }

  function JoinNames(a: seq<string>, b: seq<string>): seq<string> {
    a + FreshNames(b, NameSet(a))
  }

  function FreshFamilyNames(b: seq<FamilyNames>, known: set<string>): seq<FamilyNames> {
    if b == [] then [] else (if b[0].name in known then [] else [b[0]]) + FreshFamilyNames(b[1..], known)
  }

  function JoinTags(a: seq<FamilyNames>, b: seq<FamilyNames>): seq<FamilyNames> {
    seq(|a|, i requires 0 <= i < |a| => FamilyNames(a[i].name, JoinNames(a[i].columns, ColumnNamesOf(b, a[i].name))))
    + FreshFamilyNames(b, NameSet(Heads(a)))
  }

  /** The columns of a block of schema `a` to which one of schema `b` has been appended cleanly. */
  function Join(a: Schema, b: Schema): Schema {
    Schema(JoinTags(a.tags, b.tags), JoinNames(a.fields, b.fields))
  }

  lemma {:induction false} FreshNamesAre(names: seq<string>, known: set<string>)
    ensures forall n :: n in FreshNames(names, known) <==> n in names && n !in known
    ensures Unique(names) ==> Unique(FreshNames(names, known))
    ensures known == {} ==> FreshNames(names, known) == names
  {
    if names != [] {
      FreshNamesAre(names[1..], known);
      assert forall n :: n in names <==> n == names[0] || n in names[1..];
      assert names == [names[0]] + names[1..];
      if Unique(names) {
        UniqueTail(names);
        UniqueWith(names[0], FreshNames(names[1..], known));
      }
    }
  }

  lemma UniqueTail(names: seq<string>)
    requires names != [] && Unique(names)
    ensures Unique(names[1..]) && names[0] !in names[1..]
  {
    var rest := names[1..];
    forall i, j | 0 <= i < j < |rest| ensures rest[i] != rest[j] {
      assert names[i + 1] != names[j + 1];
    }
    forall k | 0 <= k < |rest| ensures rest[k] != names[0] {
      assert names[0] != names[k + 1];
    }
  }

  lemma UniqueWith(n: string, rest: seq<string>)
    requires Unique(rest) && n !in rest
    ensures Unique([n] + rest)
  {
  }

  /** A join has the names of both, each once. */
  lemma JoinNamesAre(a: seq<string>, b: seq<string>)
    ensures forall n :: n in JoinNames(a, b) <==> n in a || n in b
    ensures Unique(a) && Unique(b) ==> Unique(JoinNames(a, b))
    ensures a == [] ==> JoinNames(a, b) == b
  {
    FreshNamesAre(b, NameSet(a));
    var added := FreshNames(b, NameSet(a));
    if Unique(a) && Unique(b) {
      forall i, j | 0 <= i < j < |a + added| ensures (a + added)[i] != (a + added)[j] {
        if i < |a| <= j {
          assert added[j - |a|] in added && a[i] in NameSet(a);
        }
      }
    }
  }

  lemma NoElements(s: seq<string>)
    ensures s == [] <==> forall n :: n !in s
  {
    if s != [] {
      assert s[0] in s;
    }
  }

  /** Nothing new, nothing added. */
  lemma JoinKnown(a: seq<string>, b: seq<string>)
    requires forall n :: n in b ==> n in a
    ensures JoinNames(a, b) == a
  {
    FreshNamesAre(b, NameSet(a));
    NoElements(FreshNames(b, NameSet(a)));
  }

  lemma {:induction false} FreshHeads(b: seq<FamilyNames>, known: set<string>)
    ensures Heads(FreshFamilyNames(b, known)) == FreshNames(Heads(b), known)
  {
    if b != [] {
      FreshHeads(b[1..], known);
      assert Heads(b)[0] == b[0].name && Heads(b)[1..] == Heads(b[1..]);
      var rest := FreshFamilyNames(b[1..], known);
      assert Heads([b[0]] + rest) == [b[0].name] + Heads(rest);
    }
  }

  lemma {:induction false} JoinHeads(a: seq<FamilyNames>, b: seq<FamilyNames>)
    ensures Heads(JoinTags(a, b)) == JoinNames(Heads(a), Heads(b))
    ensures |JoinTags(a, b)| == |a| + |FreshFamilyNames(b, NameSet(Heads(a)))|
  {
    hide FreshFamilyNames, FreshNames, JoinNames, ColumnNamesOf;
    FreshHeads(b, NameSet(Heads(a)));
    var added := FreshFamilyNames(b, NameSet(Heads(a)));
    assert Heads(JoinTags(a, b)) == Heads(a) + Heads(added);
    JoinNamesIs(Heads(a), Heads(b));
  }

  lemma {:induction false} JoinNamesIs(a: seq<string>, b: seq<string>)
    ensures JoinNames(a, b) == a + FreshNames(b, NameSet(a))
  {
  }

  lemma {:induction false} FreshFamilyColumns(b: seq<FamilyNames>, known: set<string>, name: string)
    requires name !in known
    ensures ColumnNamesOf(FreshFamilyNames(b, known), name) == ColumnNamesOf(b, name)
  {
    if b != [] {
      FreshFamilyColumns(b[1..], known, name);
      var rest := FreshFamilyNames(b[1..], known);
      assert FreshFamilyNames(b, known) == if b[0].name in known then rest else [b[0]] + rest;
      assert ([b[0]] + rest)[1..] == rest;
    }
  }

  lemma {:induction false} ColumnNamesConcat(a: seq<FamilyNames>, b: seq<FamilyNames>, name: string)
    ensures ColumnNamesOf(a + b, name) == if name in Heads(a) then ColumnNamesOf(a, name) else ColumnNamesOf(b, name)
  {
    if a == [] {
      assert a + b == b;
    } else {
      ColumnNamesConcat(a[1..], b, name);
      assert (a + b)[1..] == a[1..] + b;
      assert Heads(a)[0] == a[0].name && Heads(a)[1..] == Heads(a[1..]);
    }
  }

  /** Family by family, the join of tags is the join of names. */
  lemma {:induction false} JoinColumns(a: seq<FamilyNames>, b: seq<FamilyNames>, name: string)
    requires Unique(Heads(a))
    ensures ColumnNamesOf(JoinTags(a, b), name) == JoinNames(ColumnNamesOf(a, name), ColumnNamesOf(b, name))
  {
    hide JoinNames, ColumnNamesOf, FreshFamilyNames;
    var shared, added := JoinTags(a, b)[..|a|], FreshFamilyNames(b, NameSet(Heads(a)));
    assert JoinTags(a, b) == shared + added && Heads(shared) == Heads(a);
    ColumnNamesConcat(shared, added, name);
    if name in Heads(a) {
      var i :| 0 <= i < |a| && Heads(a)[i] == name;
      ColumnNamesAt(a, i);
      ColumnNamesAt(shared, i);
    } else {
      ColumnNamesMissing(a, name);
      FreshFamilyColumns(b, NameSet(Heads(a)), name);
      JoinNamesAre([], ColumnNamesOf(b, name));
    }
  }

  lemma {:induction false} FreshFamilyAt(b: seq<FamilyNames>, known: set<string>, i: nat)
    requires i < |FreshFamilyNames(b, known)|
    ensures FreshFamilyNames(b, known)[i] in b
  {
    var rest := FreshFamilyNames(b[1..], known);
    var k := if b[0].name in known then 0 else 1;
    if i >= k {
      FreshFamilyAt(b[1..], known, i - k);
      assert FreshFamilyNames(b, known)[i] == rest[i - k];
    }
  }

  lemma {:induction false} UniqueColumns(fs: seq<FamilyNames>, name: string)
    requires forall i :: 0 <= i < |fs| ==> Unique(fs[i].columns)
    ensures Unique(ColumnNamesOf(fs, name))
  {
    if fs != [] {
      assert forall i :: 0 <= i < |fs[1..]| ==> fs[1..][i] == fs[i + 1];
      UniqueColumns(fs[1..], name);
    }
  }

  lemma JoinWF(a: Schema, b: Schema)
    requires WFSchema(a) && WFSchema(b)
    ensures WFSchema(Join(a, b))
  {
    hide Unique, JoinNames, FreshFamilyNames, ColumnNamesOf;
    var t := JoinTags(a.tags, b.tags);
    JoinNamesAre(a.fields, b.fields);
    JoinHeads(a.tags, b.tags);
    JoinNamesAre(Heads(a.tags), Heads(b.tags));
    forall i | 0 <= i < |t| ensures Unique(t[i].columns) {
      if i < |a.tags| {
        UniqueColumns(b.tags, a.tags[i].name);
        JoinNamesAre(a.tags[i].columns, ColumnNamesOf(b.tags, a.tags[i].name));
      } else {
        FreshFamilyAt(b.tags, NameSet(Heads(a.tags)), i - |a.tags|);
      }
    }
  }

  // ---------- what a block already has ----------

  /** `a` has every column of `b`. */
  ghost predicate Knows(a: Schema, b: Schema) {
    && (forall n :: n in b.fields ==> n in a.fields)
    && (forall n :: n in Heads(b.tags) ==> n in Heads(a.tags))
    && (forall f, n :: n in ColumnNamesOf(b.tags, f) ==> n in ColumnNamesOf(a.tags, f))
  }

  /** Appending columns that are there already adds none. */
  lemma JoinAbsorbs(a: Schema, b: Schema)
    requires WFSchema(a) && Knows(a, b)
    ensures Join(a, b) == a
  {
    hide JoinNames, FreshFamilyNames, ColumnNamesOf, FreshNames;
    JoinKnown(a.fields, b.fields);
    JoinHeads(a.tags, b.tags);
    JoinKnown(Heads(a.tags), Heads(b.tags));
    var t := JoinTags(a.tags, b.tags);
    assert |Heads(t)| == |t| && |Heads(a.tags)| == |a.tags|;
    forall i | 0 <= i < |a.tags| ensures t[i] == a.tags[i] {
      ColumnNamesAt(a.tags, i);
      JoinKnown(a.tags[i].columns, ColumnNamesOf(b.tags, a.tags[i].name));
    }
  }

  /** A join has the columns of both sides. */
  lemma JoinKnows(a: Schema, b: Schema)
    requires WFSchema(a)
    ensures Knows(Join(a, b), a) && Knows(Join(a, b), b)
  {
    hide JoinNames, FreshFamilyNames, ColumnNamesOf, JoinTags;
    JoinNamesAre(a.fields, b.fields);
    JoinHeads(a.tags, b.tags);
    JoinNamesAre(Heads(a.tags), Heads(b.tags));
    forall f ensures forall n ::
      n in ColumnNamesOf(Join(a, b).tags, f) <==> n in ColumnNamesOf(a.tags, f) || n in ColumnNamesOf(b.tags, f)
    {
      JoinColumns(a.tags, b.tags, f);
      JoinNamesAre(ColumnNamesOf(a.tags, f), ColumnNamesOf(b.tags, f));
    }
  }

  lemma JoinNothing(b: Schema)
    ensures Join(NO_COLUMNS, b) == b && WFSchema(NO_COLUMNS)
  {
    hide ColumnNamesOf, JoinNames;
    JoinNamesAre([], b.fields);
    AllFamiliesFresh(b.tags);
    assert NameSet(Heads([])) == {};
    assert JoinTags([], b.tags) == FreshFamilyNames(b.tags, {});
  }

  lemma {:induction false} AllFamiliesFresh(b: seq<FamilyNames>)
    ensures FreshFamilyNames(b, {}) == b
  {
    if b != [] {
      AllFamiliesFresh(b[1..]);
      assert b == [b[0]] + b[1..];
    }
  }

  // ---------- one append ----------

  /** The room left in the slice of families, in each family's columns, and in the fields. */
  datatype Room = Room(families: nat, columns: string -> nat, fields: nat)

  const NO_ROOM := Room(0, (n: string) => 0, 0)

  function RoomsFor(tags: seq<FamilyNames>, columns: string -> nat): seq<nat> {
    seq<nat>(|tags|, i requires 0 <= i < |tags| => columns(tags[i].name))
  }

  /** Appending `b` to `a`, whose slices have this room, appends rows: the condition for tags and that for fields. */
  ghost predicate CleanAt(a: Schema, room: Room, b: Schema) {
    && CleanTags(a.tags, RoomsFor(a.tags, room.columns), room.families, b.tags)
    && Clean(a.fields, room.fields, b.fields)
  }

  /** The same without any room. */
  ghost predicate AlwaysClean(a: Schema, b: Schema) {
    CleanAt(a, NO_ROOM, b)
  }

  lemma MoreRoomForFamily(columns: seq<string>, room: nat, late: bool, late': bool, others: seq<string>)
    requires FamilyFine(columns, 0, late, others) && (late' ==> late)
    ensures FamilyFine(columns, room, late', others)
  {
    hide FreshBefore;
    if late && !late' {
      forall n | n in others && n in NameSet(columns) ensures FreshBefore(others, NameSet(columns), n) <= room {
        NoneFresh(others, NameSet(columns), n);
      }
    }
  }

  /** Without any room means whatever the room: more room never makes an append wrong. */
  lemma AlwaysIff(a: Schema, b: Schema)
    ensures AlwaysClean(a, b) <==> forall room :: CleanAt(a, room, b)
  {
    if AlwaysClean(a, b) {
      forall room ensures CleanAt(a, room, b) {
        MoreRoom(a, b, room);
      }
    }
  }

  lemma MoreRoom(a: Schema, b: Schema, room: Room)
    requires AlwaysClean(a, b)
    ensures CleanAt(a, room, b)
  {
    hide FamilyFine, Matching, Wrote, FreshBefore, ColumnNamesOf;
    if a.tags != b.tags {
      forall i | 0 <= i < |a.tags|
        ensures FamilyFine(a.tags[i].columns, RoomsFor(a.tags, room.columns)[i],
                           IsLate(a.tags, room.families, b.tags, a.tags[i].name), ColumnNamesOf(b.tags, a.tags[i].name))
      {
        MoreRoomForFamily(a.tags[i].columns, RoomsFor(a.tags, room.columns)[i],
                          IsLate(a.tags, 0, b.tags, a.tags[i].name),
                          IsLate(a.tags, room.families, b.tags, a.tags[i].name), ColumnNamesOf(b.tags, a.tags[i].name));
      }
    }
  }

  lemma EmptyIsClean(b: Schema)
    ensures AlwaysClean(NO_COLUMNS, b) && AlwaysClean(b, b) && AlwaysClean(b, NO_COLUMNS)
  {
    hide FreshBefore;
    forall i | 0 <= i < |b.tags| ensures ColumnNamesOf([], b.tags[i].name) == [] { }
  }

  // ---------- two blocks ----------

  /** However the rows of two blocks interleave, every append of their merge is clean. */
  ghost predicate Mergeable(a: Schema, b: Schema) {
    && WFSchema(a) && WFSchema(b) && AlwaysClean(a, b) && AlwaysClean(b, a)
    && AlwaysClean(Join(a, b), a) && AlwaysClean(Join(a, b), b)
    && AlwaysClean(Join(b, a), a) && AlwaysClean(Join(b, a), b)
  }

  /** What a merge of two blocks leaves: the columns of one side, or of both. */
  ghost predicate Sides(t: Schema, a: Schema, b: Schema) {
    t == a || t == b || t == Join(a, b) || t == Join(b, a)
  }

  /** What the target may have while it is filled. */
  ghost predicate Between(t: Schema, a: Schema, b: Schema) {
    t == NO_COLUMNS || Sides(t, a, b)
  }

  lemma MergeableSym(a: Schema, b: Schema)
    ensures Mergeable(a, b) == Mergeable(b, a)
  {
    hide WFSchema, AlwaysClean, Join;
  }

  lemma NothingKnown(b: Schema)
    ensures Knows(b, NO_COLUMNS)
  {
  }

  /** One more append of `a` to the target. */
  lemma MergeTurn(t: Schema, a: Schema, b: Schema)
    requires Mergeable(a, b) && Between(t, a, b)
    ensures WFSchema(t) && AlwaysClean(t, a) && Sides(Join(t, a), a, b) && Between(Join(t, a), a, b)
  {
    hide WFSchema, AlwaysClean, Join, Knows;
    EmptyIsClean(a);
    JoinNothing(a);
    JoinWF(a, b);
    JoinWF(b, a);
    JoinKnows(a, b);
    JoinKnows(b, a);
    KnowsItself(a);
    JoinAbsorbs(a, a);
    JoinAbsorbs(Join(a, b), a);
    JoinAbsorbs(Join(b, a), a);
  }

  lemma KnowsItself(a: Schema)
    ensures Knows(a, a)
  {
  }

  lemma BetweenSym(t: Schema, a: Schema, b: Schema)
    ensures Between(t, a, b) == Between(t, b, a) && Sides(t, a, b) == Sides(t, b, a)
  {
  }

  /** The columns after appends of `a` (false) and `b` (true) in turn. */
  function After(t: Schema, turns: seq<bool>, a: Schema, b: Schema): Schema
    decreases |turns|
  {
    if turns == [] then t else After(Join(t, if turns[0] then b else a), turns[1..], a, b)
  }

  ghost predicate TurnsClean(t: Schema, turns: seq<bool>, a: Schema, b: Schema)
    decreases |turns|
  {
    turns == [] || var x := if turns[0] then b else a; AlwaysClean(t, x) && TurnsClean(Join(t, x), turns[1..], a, b)
  }

  /** However the two alternate, starting with nothing. */
  ghost predicate AllTurnsClean(a: Schema, b: Schema) {
    forall turns :: TurnsClean(NO_COLUMNS, turns, a, b)
  }

  lemma {:induction false} TurnsStay(t: Schema, turns: seq<bool>, a: Schema, b: Schema)
    requires Mergeable(a, b) && Between(t, a, b)
    ensures TurnsClean(t, turns, a, b) && Between(After(t, turns, a, b), a, b)
    decreases |turns|
  {
    hide Mergeable, Between, AlwaysClean, Join;
    if turns != [] {
      MergeableSym(a, b);
      BetweenSym(t, a, b);
      BetweenSym(Join(t, b), a, b);
      if turns[0] { MergeTurn(t, b, a); } else { MergeTurn(t, a, b); }
      TurnsStay(Join(t, if turns[0] then b else a), turns[1..], a, b);
    }
  }

  /** `Mergeable` is exact: it holds iff the appends of every interleaving are clean. */
  lemma MergeableIff(a: Schema, b: Schema)
    requires WFSchema(a) && WFSchema(b)
    ensures Mergeable(a, b) <==> AllTurnsClean(a, b)
  {
    hide Mergeable, TurnsClean;
    if Mergeable(a, b) {
      forall turns ensures TurnsClean(NO_COLUMNS, turns, a, b) {
        TurnsStay(NO_COLUMNS, turns, a, b);
      }
    } else if AllTurnsClean(a, b) {
      TurnsMerge(a, b);
    }
  }

  lemma TurnsMerge(a: Schema, b: Schema)
    requires WFSchema(a) && WFSchema(b) && AllTurnsClean(a, b)
    ensures Mergeable(a, b)
  {
    hide WFSchema, AlwaysClean, Join, TurnsClean;
    ThreeTurns(a, b, [false, true, false]);
    ThreeTurns(a, b, [false, true, true]);
    ThreeTurns(a, b, [true, false, false]);
    ThreeTurns(a, b, [true, false, true]);
  }

  lemma {:induction false} ThreeTurns(a: Schema, b: Schema, turns: seq<bool>)
    requires |turns| == 3 && TurnsClean(NO_COLUMNS, turns, a, b)
    ensures var x, y, z := if turns[0] then b else a, if turns[1] then b else a, if turns[2] then b else a;
      AlwaysClean(x, y) && AlwaysClean(Join(x, y), z)
  {
    hide AlwaysClean, Join;
    var x, y := if turns[0] then b else a, if turns[1] then b else a;
    JoinNothing(x);
    assert turns[1..][0] == turns[1] && turns[1..][1..] == turns[2..] && turns[2..][0] == turns[2];
    assert TurnsClean(x, turns[1..], a, b);
    assert TurnsClean(Join(x, y), turns[2..], a, b);
  }

  // ---------- whole merges ----------

  /** What can be pending in merges of blocks `bs`: none of it ever spoils an append. */
  ghost predicate Carries(k: iset<Schema>, bs: iset<Schema>) {
    && NO_COLUMNS in k
    && forall p, b :: p in k && b in bs ==> Mergeable(p, b) && Join(p, b) in k && Join(b, p) in k
  }

  /** Every merge of blocks `bs` is clean. */
  ghost predicate MergesCleanly(bs: iset<Schema>) {
    exists k :: Carries(k, bs)
  }

  /** `s` is in whatever carries the merges of `bs`. */
  ghost predicate Carried(s: Schema, bs: iset<Schema>) {
    forall k :: Carries(k, bs) ==> s in k
  }

  /** Merging: the blocks in the order they are read, and the turns that the merge with each one takes. */
  datatype History = Nothing | Merge(before: History, block: Schema, turns: seq<bool>)

  function Pending(h: History): Schema {
    match h
    case Nothing => NO_COLUMNS
    case Merge(before, b, turns) => After(NO_COLUMNS, turns, Pending(before), b)
  }

  ghost predicate Over(h: History, bs: iset<Schema>) {
    h.Merge? ==> h.block in bs && Over(h.before, bs)
  }

  ghost predicate HistoryClean(h: History) {
    h.Merge? ==> HistoryClean(h.before) && TurnsClean(NO_COLUMNS, h.turns, Pending(h.before), h.block)
  }

  ghost predicate AllHistoriesClean(bs: iset<Schema>) {
    forall h :: Over(h, bs) ==> HistoryClean(h)
  }

  lemma BetweenIsCarried(t: Schema, p: Schema, b: Schema, k: iset<Schema>, bs: iset<Schema>)
    requires Carries(k, bs) && p in k && b in bs && Between(t, p, b)
    ensures t in k
  {
    hide Mergeable, Join;
    JoinNothing(b);
    assert NO_COLUMNS in k && Join(NO_COLUMNS, b) in k;
  }

  lemma {:induction false} HistoryCarried(h: History, k: iset<Schema>, bs: iset<Schema>)
    requires Carries(k, bs) && Over(h, bs)
    ensures HistoryClean(h) && Pending(h) in k
  {
    hide Mergeable, Join;
    if h.Merge? {
      HistoryCarried(h.before, k, bs);
      TurnsStay(NO_COLUMNS, h.turns, Pending(h.before), h.block);
      BetweenIsCarried(Pending(h), Pending(h.before), h.block, k, bs);
    }
  }

  ghost predicate Arises(s: Schema, bs: iset<Schema>) {
    exists h :: Over(h, bs) && Pending(h) == s
  }

  lemma {:induction false} ArisesOnward(h: History, b: Schema, turns: seq<bool>, bs: iset<Schema>)
    requires Over(h, bs) && b in bs
    ensures Arises(After(NO_COLUMNS, turns, Pending(h), b), bs)
  {
    assert Over(Merge(h, b, turns), bs);
  }

  lemma {:induction false} HistoryWF(h: History, bs: iset<Schema>)
    requires Over(h, bs) && forall b :: b in bs ==> WFSchema(b)
    ensures WFSchema(Pending(h))
  {
    hide WFSchema, Join;
    JoinNothing(NO_COLUMNS);
    if h.Merge? {
      HistoryWF(h.before, bs);
      AfterWF(NO_COLUMNS, h.turns, Pending(h.before), h.block);
    }
  }

  lemma {:induction false} AfterWF(t: Schema, turns: seq<bool>, a: Schema, b: Schema)
    requires WFSchema(t) && WFSchema(a) && WFSchema(b)
    ensures WFSchema(After(t, turns, a, b))
    decreases |turns|
  {
    hide WFSchema, Join;
    if turns != [] {
      var x := if turns[0] then b else a;
      JoinWF(t, x);
      AfterWF(Join(t, x), turns[1..], a, b);
    }
  }

  lemma ArisingCarries(bs: iset<Schema>, k: iset<Schema>)
    requires forall b :: b in bs ==> WFSchema(b)
    requires AllHistoriesClean(bs)
    requires k == iset s | Arises(s, bs)
    ensures Carries(k, bs)
  {
    hide WFSchema, Join, Mergeable, TurnsClean, After;
    assert Over(Nothing, bs) && Pending(Nothing) == NO_COLUMNS;
    assert Arises(NO_COLUMNS, bs);
    forall p, b | p in k && b in bs ensures Mergeable(p, b) && Join(p, b) in k && Join(b, p) in k {
      var h :| Over(h, bs) && Pending(h) == p;
      HistoryWF(h, bs);
      forall turns ensures TurnsClean(NO_COLUMNS, turns, p, b) {
        assert Over(Merge(h, b, turns), bs) && HistoryClean(Merge(h, b, turns));
      }
      MergeableIff(p, b);
      TwoTurns(p, b);
      ArisesOnward(h, b, [false, true], bs);
      ArisesOnward(h, b, [true, false], bs);
    }
  }

  lemma {:induction false} TwoTurns(a: Schema, b: Schema)
    ensures After(NO_COLUMNS, [false, true], a, b) == Join(a, b) && After(NO_COLUMNS, [true, false], a, b) == Join(b, a)
  {
    hide Join;
    JoinNothing(a);
    JoinNothing(b);
    assert [false, true][1..] == [true] && [true, false][1..] == [false];
  }

  /**
    `MergesCleanly` is exact: some set carries the merges of `bs` iff every append of every merge of such
    blocks, in any number and order and however their rows interleave, is clean.
   */
  lemma MergesCleanlyIff(bs: iset<Schema>)
    requires forall b :: b in bs ==> WFSchema(b)
    ensures MergesCleanly(bs) <==> AllHistoriesClean(bs)
  {
    hide WFSchema, Join, Mergeable, TurnsClean, Carries, HistoryClean, Over;
    if MergesCleanly(bs) {
      var k :| Carries(k, bs);
      forall h | Over(h, bs) ensures HistoryClean(h) {
        HistoryCarried(h, k, bs);
      }
    } else if AllHistoriesClean(bs) {
      var k := iset s | Arises(s, bs);
      ArisingCarries(bs, k);
    }
  }

  lemma CarriesFewer(k: iset<Schema>, bs: iset<Schema>, some: iset<Schema>)
    requires Carries(k, bs) && some <= bs
    ensures Carries(k, some)
  {
    hide Mergeable, Join;
  }
}
