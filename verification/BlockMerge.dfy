/**
  Block pointers and the two-way merge of blocks.  `MergeTwoBlocks` keeps the source's swapped
  roles: `left` and `right` change places after every step, whether or not the step appended
  anything, and on equal timestamps the newer version wins.
 */
module BlockMerge {
  import opened Points
  import opened Schemas
  import opened Joins
  import opened Parts

  class BlockPointer {
    var rows: seq<Point>
    var schema: Schema
    var bm: BlockMeta
    var idx: nat

    constructor ()
      ensures rows == [] && schema == NO_COLUMNS && idx == 0 && bm == BlockMeta(0, 0, 0, 0, 0)
    {
      rows, schema, idx, bm := [], NO_COLUMNS, 0, BlockMeta(0, 0, 0, 0, 0);
    }

    /** The rows from the cursor on. */
    ghost function Rest(): seq<Point>
      reads this
    {
      if idx <= |rows| then rows[idx..] else []
    }

    /** The metadata range contains the rows from the cursor on; it may be wider. */
    ghost predicate Bounded()
      reads this
    {
      forall i :: 0 <= i < |Rest()| ==> bm.min <= Rest()[i].ts <= bm.max
    }

    method Reset()
      modifies this
      ensures rows == [] && schema == NO_COLUMNS && idx == 0 && bm == BlockMeta(0, 0, 0, 0, 0)
    {
      rows, schema, idx, bm := [], NO_COLUMNS, 0, BlockMeta(0, 0, 0, 0, 0);
    }

    /** Every cell has its column. */
    ghost predicate Columned()
      reads this
    {
      Named(rows, schema)
    }

    /** The columns come from two sides that can be merged; without rows there need be none. */
    ghost predicate Fits(a: Schema, b: Schema)
      reads this
    {
      Mergeable(a, b) && FilledFrom(rows, schema, a, b)
    }

    /**
      Appends `b.rows[b.idx..offset]`.  Besides the check of the offset against the length it needs the
      condition under which `Columnar.ColumnBlock.Append` appends exactly these rows, for the room that
      the slices have.
     */
    method Append(b: BlockPointer, offset: nat, ghost room: Room)
      requires b != this
      requires offset <= |b.rows|
      requires b.idx < offset ==> idx < offset && WFSchema(schema) && WFSchema(b.schema) && CleanAt(schema, room, b.schema)
      requires Columned() && b.Columned()
      modifies this`rows, this`schema
      ensures rows == old(rows) + if offset <= b.idx then [] else b.rows[b.idx..offset]
      ensures schema == if offset <= b.idx then old(schema) else Join(old(schema), b.schema)
      ensures Columned()
    {
      if offset <= b.idx {
        return;
      }
      NamedJoin(rows, schema, b.rows, b.schema, b.idx, offset);
      rows := rows + b.rows[b.idx..offset];
      schema := Join(schema, b.schema);
    }

    /** One append of a merge of `b` with a block of schema `other`, whatever the room. */
    method AppendAny(b: BlockPointer, offset: nat, ghost other: Schema)
      requires b != this
      requires offset <= |b.rows|
      requires b.idx < offset ==> idx < offset
      requires Fits(b.schema, other) && b.Columned()
      modifies this`rows, this`schema
      ensures rows == old(rows) + if offset <= b.idx then [] else b.rows[b.idx..offset]
      ensures Fits(b.schema, other)
      ensures schema == if offset <= b.idx then old(schema) else Join(old(schema), b.schema)
    {
      hide AlwaysClean, CleanAt, Join, WFSchema, Mergeable, Between, Sides, Named;
      ghost var room := SomeRoom();
      MergeTurn(schema, b.schema, other);
      MergeableWF(b.schema, other);
      AlwaysIff(schema, b.schema);
      Append(b, offset, room);
    }

    method AppendAll(b: BlockPointer, ghost other: Schema)
      requires b != this
      requires b.idx <= |b.rows|
      requires idx == 0
      requires Fits(b.schema, other) && b.Columned()
      modifies this`rows, this`schema
      ensures rows == old(rows) + b.Rest()
      ensures Fits(b.schema, other)
      ensures schema == if b.Rest() == [] then old(schema) else Join(old(schema), b.schema)
    {
      if |b.rows| == 0 {
        return;
      }
      AppendAny(b, |b.rows|, other);
    }

    method CopyFrom(src: BlockPointer)
      requires src != this
      requires src.idx <= |src.rows|
      requires WFSchema(src.schema) && src.Columned()
      modifies this
      ensures rows == src.Rest() && bm == src.bm && idx == 0 && Columned()
      ensures schema == if rows == [] then NO_COLUMNS else src.schema
    {
      hide Mergeable, WFSchema, Join, Named;
      Reset();
      bm := src.bm;
      MergesWithItself(src.schema);
      NothingFilled(src.schema, src.schema);
      JoinNothing(src.schema);
      AppendAll(src, src.schema);
    }

    method UpdateMetadata()
      modifies this`bm
      ensures rows == [] ==> bm == old(bm)
      ensures rows != [] ==> bm == old(bm).(min := rows[0].ts, max := rows[|rows| - 1].ts)
    {
      if |rows| == 0 {
        return;
      }
      bm := bm.(min := rows[0].ts, max := rows[|rows| - 1].ts);
    }

    predicate IsFull()
      reads this
    {
      bm.count >= MAX_BLOCK_LENGTH || bm.size >= MAX_UNCOMPRESSED_BLOCK_SIZE
    }
  }

  /** The room that slices have left; nothing is known about it. */
  lemma SomeRoom() returns (room: Room)
  {
    room := NO_ROOM;
  }

  // ---------- the columns of the target ----------

  /** Cells have their columns, which come from the two sides; without rows there need be none. */
  ghost predicate FilledFrom(rows: seq<Point>, t: Schema, a: Schema, b: Schema) {
    Named(rows, t) && Between(t, a, b) && (rows != [] ==> Sides(t, a, b))
  }

  lemma NothingFilled(a: Schema, b: Schema)
    ensures FilledFrom([], NO_COLUMNS, a, b) && Named([], NO_COLUMNS)
  {
    hide Join;
  }

  lemma FilledSym(rows: seq<Point>, t: Schema, a: Schema, b: Schema)
    ensures FilledFrom(rows, t, a, b) == FilledFrom(rows, t, b, a)
    ensures Mergeable(a, b) == Mergeable(b, a)
  {
    hide Named, Join, Mergeable;
    MergeableSym(a, b);
  }

  lemma MergeableWF(a: Schema, b: Schema)
    requires Mergeable(a, b)
    ensures WFSchema(a) && WFSchema(b)
  {
    hide WFSchema, AlwaysClean, Join;
  }

  lemma MergesWithItself(s: Schema)
    requires WFSchema(s)
    ensures Mergeable(s, s)
  {
    hide WFSchema, AlwaysClean, Join;
    EmptyIsClean(s);
    KnowsItself(s);
    JoinAbsorbs(s, s);
  }

  /** A block that knows another's columns has a place for its cells. */
  lemma NamedKnown(rows: seq<Point>, a: Schema, t: Schema)
    requires Named(rows, a) && Knows(t, a)
    ensures Named(rows, t)
  {
    hide ColumnNamesOf, Heads;
    forall i, k | 0 <= i < |rows| && k in rows[i].data ensures HasColumn(t, k) {
      assert HasColumn(a, k);
    }
  }

  lemma NamedJoin(rows: seq<Point>, t: Schema, more: seq<Point>, a: Schema, i: nat, j: nat)
    requires Named(rows, t) && Named(more, a) && WFSchema(t) && i <= j <= |more|
    ensures Named(rows + more[i..j], Join(t, a))
  {
    hide Join, HasColumn, Knows, WFSchema;
    JoinKnows(t, a);
    NamedKnown(rows, t, Join(t, a));
    NamedKnown(more, a, Join(t, a));
  }

  // ---------- one step of the merge, on values ----------

  /** Everything appended so far is earlier than everything still to come. */
  ghost predicate Before(done: seq<Point>, rest: seq<Point>) {
    forall i, j :: 0 <= i < |done| && 0 <= j < |rest| ==> done[i].ts < rest[j].ts
  }

  /** What has been appended plus what remains of both sides stands for the whole input. */
  ghost predicate Progress(done: seq<Point>, a: seq<Point>, b: seq<Point>, all: set<Point>) {
    && StrictTs(done) && StrictTs(a) && StrictTs(b)
    && Before(done, a) && Before(done, b)
    && Refines(Elems(done) + Elems(a) + Elems(b), all)
  }

  lemma TakenElems(done: seq<Point>, a: seq<Point>, b: seq<Point>, k: nat)
    requires k <= |a|
    ensures Elems(done + a[..k]) + Elems(a[k..]) + Elems(b) == Elems(done) + Elems(a) + Elems(b)
  {
    hide Elems;
    ElemsSplit(a, 0, k);
    assert a[0..] == a && a[0..k] == a[..k];
    ElemsConcat(done, a[..k]);
  }

  /** Taking the rows of `a` that are before the head of `b`. */
  lemma TakeEarlier(done: seq<Point>, a: seq<Point>, b: seq<Point>, all: set<Point>, k: nat)
    requires Progress(done, a, b, all)
    requires k <= |a| && b != []
    requires forall i :: 0 <= i < k ==> a[i].ts < b[0].ts
    ensures Progress(done + a[..k], a[k..], b, all)
  {
    assert StrictTs(done + a[..k]) by {
      if done != [] && k > 0 {
        assert done[|done| - 1].ts < a[0].ts;
      }
      StrictTsConcat(done, a[..k]);
    }
    TakenElems(done, a, b, k);
  }

  /** On sets: of two points of one key, one that covers the other is enough. */
  lemma KeepWinner(done: set<Point>, a: set<Point>, b: set<Point>, x: Point, y: Point, w: Point)
    requires (w == x && Covers(x, y)) || (w == y && Covers(y, x))
    ensures Refines(done + {w} + a + b, done + ({x} + a) + ({y} + b))
  {
    var kept := done + {w} + a + b;
    forall p | p in done + ({x} + a) + ({y} + b) ensures CoveredBy(p, kept) {
      if p == x || p == y {
        assert w in kept && Covers(w, p);
      } else {
        assert p in kept && Covers(p, p);
      }
    }
  }

  lemma ElemsHead(s: seq<Point>)
    requires s != []
    ensures Elems(s) == {s[0]} + Elems(s[1..])
  {
    assert s == [s[0]] + s[1..];
    ElemsConcat([s[0]], s[1..]);
  }

  lemma WinnerKeepsOrder(done: seq<Point>, a: seq<Point>, w: Point)
    requires StrictTs(done) && StrictTs(a) && Before(done, a)
    requires a != [] && w.ts == a[0].ts
    ensures StrictTs(done + [w]) && StrictTs(a[1..]) && Before(done + [w], a[1..])
  {
    StrictTsConcat(done, [w]);
  }

  /** Both heads at one timestamp: keep one that covers the other. */
  lemma TakeWinner(done: seq<Point>, a: seq<Point>, b: seq<Point>, all: set<Point>, w: Point)
    requires Progress(done, a, b, all)
    requires a != [] && b != [] && SameKey(a[0], b[0])
    requires (w == a[0] && Covers(a[0], b[0])) || (w == b[0] && Covers(b[0], a[0]))
    ensures Progress(done + [w], a[1..], b[1..], all)
  {
    WinnerKeepsOrder(done, a, w);
    WinnerKeepsOrder(done, b, w);
    ElemsHead(a);
    ElemsHead(b);
    ElemsConcat(done, [w]);
    KeepWinner(Elems(done), Elems(a[1..]), Elems(b[1..]), a[0], b[0], w);
    assert Elems([w]) == {w};
    RefinesTransitive(Elems(done + [w]) + Elems(a[1..]) + Elems(b[1..]), Elems(done) + Elems(a) + Elems(b), all);
  }

  /** The equal-timestamp step: `k` rows of `a` before the shared timestamp, then the winner. */
  lemma TakeEarlierThenWinner(done: seq<Point>, a: seq<Point>, b: seq<Point>, all: set<Point>, k: nat, w: Point)
    requires Progress(done, a, b, all)
    requires k < |a| && b != [] && SameKey(a[k], b[0])
    requires (w == a[k] && Covers(a[k], b[0])) || (w == b[0] && Covers(b[0], a[k]))
    ensures Progress(done + a[..k] + [w], a[k + 1..], b[1..], all)
  {
    TakeEarlier(done, a, b, all, k);
    TakeWinner(done + a[..k], a[k..], b, all, w);
    assert a[k..][1..] == a[k + 1..];
  }

  /** One side exhausted: the other one is appended whole. */
  lemma TakeRest(done: seq<Point>, b: seq<Point>, all: set<Point>)
    requires Progress(done, [], b, all)
    ensures StrictTs(done + b) && Refines(Elems(done + b), all)
  {
    if done != [] && b != [] {
      assert done[|done| - 1].ts < b[0].ts;
    }
    StrictTsConcat(done, b);
    ElemsConcat(done, b);
    assert Elems(done) + Elems([]) + Elems(b) == Elems(done + b);
  }

  lemma ProgressSym(done: seq<Point>, a: seq<Point>, b: seq<Point>, all: set<Point>)
    requires Progress(done, a, b, all)
    ensures Progress(done, b, a, all)
  {
    assert Elems(done) + Elems(b) + Elems(a) == Elems(done) + Elems(a) + Elems(b);
  }

  /**
    Merges two strictly increasing blocks of one series into the empty `target`: the result is
    strictly increasing, invents nothing, and for every input row holds a row of the same
    timestamp whose version is at least as great.
   */
  method MergeTwoBlocks(target: BlockPointer, left: BlockPointer, right: BlockPointer, ghost sid: nat)
    requires target != left && target != right && left != right
    requires target.rows == [] && target.idx == 0
    requires left.idx <= |left.rows| && right.idx <= |right.rows|
    requires StrictTs(left.rows) && StrictTs(right.rows)
    requires left.Bounded() && right.Bounded()
    requires OfSeries(sid, left.rows) && OfSeries(sid, right.rows)
    requires target.schema == NO_COLUMNS && Mergeable(left.schema, right.schema)
    requires left.Columned() && right.Columned()
    modifies target, left`idx, right`idx
    ensures StrictTs(target.rows)
    ensures Refines(Elems(target.rows), old(Elems(left.Rest()) + Elems(right.Rest())))
    ensures OfSeries(sid, target.rows)
    ensures |target.rows| <= old(|left.Rest()| + |right.Rest()|)
    ensures target.Columned() && (target.rows != [] ==> Sides(target.schema, left.schema, right.schema))
    ensures target.idx == 0
    ensures target.rows == [] ==> target.bm == old(target.bm)
    ensures target.rows != [] ==>
              target.bm == old(target.bm).(min := target.rows[0].ts, max := target.rows[|target.rows| - 1].ts)
  {
    ghost var all := Elems(left.Rest()) + Elems(right.Rest());
    RefinesReflexive(all);
    assert Elems([]) + Elems(left.Rest()) + Elems(right.Rest()) == all;
    assert Progress([], left.Rest(), right.Rest(), all);
    NothingFilled(left.schema, right.schema);
    MergeRows(target, left, right, sid, all);
    target.UpdateMetadata();
  }

  /** The body of the merge before the deferred metadata update. */
  method MergeRows(target: BlockPointer, left: BlockPointer, right: BlockPointer, ghost sid: nat, ghost all: set<Point>)
    requires target != left && target != right && left != right
    requires target.rows == [] && target.idx == 0
    requires left.idx <= |left.rows| && right.idx <= |right.rows|
    requires left.Bounded() && right.Bounded()
    requires OfSeries(sid, left.rows) && OfSeries(sid, right.rows)
    requires Progress([], left.Rest(), right.Rest(), all)
    requires target.Fits(left.schema, right.schema) && left.Columned() && right.Columned()
    modifies target`rows, target`schema, left`idx, right`idx
    ensures StrictTs(target.rows) && Refines(Elems(target.rows), all)
    ensures OfSeries(sid, target.rows) && target.Fits(left.schema, right.schema)
    ensures |target.rows| <= old(|left.Rest()| + |right.Rest()|)
  {
    hide Progress, Refines, StrictTs, Elems, Mergeable, FilledFrom, Named;
    FilledSym(target.rows, target.schema, left.schema, right.schema);
    if left.bm.max < right.bm.min {
      AppendBoth(target, left, right, all);
      return;
    }
    if right.bm.max < left.bm.min {
      ProgressSym([], left.Rest(), right.Rest(), all);
      AppendBoth(target, right, left, all);
      FilledSym(target.rows, target.schema, left.schema, right.schema);
      return;
    }
    if left.idx >= |left.rows| {
      TakeRest([], right.Rest(), all);
      target.AppendAll(right, left.schema);
      FilledSym(target.rows, target.schema, left.schema, right.schema);
      return;
    }
    if right.idx >= |right.rows| {
      ProgressSym([], left.Rest(), right.Rest(), all);
      TakeRest([], left.Rest(), all);
      target.AppendAll(left, right.schema);
      return;
    }
    var a, b := left, right;
    if b.rows[b.idx].ts < a.rows[a.idx].ts {
      ProgressSym([], left.Rest(), right.Rest(), all);
      a, b := b, a;
    }
    MergeLoop(target, a, b, sid, all);
    FilledSym(target.rows, target.schema, left.schema, right.schema);
  }

  /** One block lies wholly before the other. */
  method AppendBoth(target: BlockPointer, a: BlockPointer, b: BlockPointer, ghost all: set<Point>)
    requires target != a && target != b
    requires target.rows == [] && target.idx == 0
    requires a.idx <= |a.rows| && b.idx <= |b.rows|
    requires a.Bounded() && b.Bounded() && a.bm.max < b.bm.min
    requires Progress([], a.Rest(), b.Rest(), all)
    requires target.Fits(a.schema, b.schema) && a.Columned() && b.Columned()
    modifies target`rows, target`schema
    ensures target.rows == a.Rest() + b.Rest()
    ensures StrictTs(target.rows) && Refines(Elems(target.rows), all) && target.Fits(a.schema, b.schema)
  {
    hide Mergeable, FilledFrom, Named;
    StrictTsConcat(a.Rest(), b.Rest());
    ElemsConcat(a.Rest(), b.Rest());
    assert Elems([]) + Elems(a.Rest()) + Elems(b.Rest()) == Elems(a.Rest() + b.Rest());
    target.AppendAll(a, b.schema);
    FilledSym(target.rows, target.schema, a.schema, b.schema);
    target.AppendAll(b, a.schema);
    FilledSym(target.rows, target.schema, a.schema, b.schema);
    assert [] + a.Rest() + b.Rest() == a.Rest() + b.Rest();
  }

  /** The first index from `from` on whose timestamp is past `ts`. */
  method FirstPast(rows: seq<Point>, from: nat, ts: int) returns (i: nat)
    requires from <= |rows|
    ensures from <= i <= |rows|
    ensures forall k :: from <= k < i ==> rows[k].ts <= ts
    ensures i < |rows| ==> ts < rows[i].ts
  {
    i := from;
    while i < |rows| && rows[i].ts <= ts
      invariant from <= i <= |rows|
      invariant forall k :: from <= k < i ==> rows[k].ts <= ts
    {
      i := i + 1;
    }
  }

  /** The rows up to the shared timestamp, then the newer of the two rows that have it. */
  method AppendWinner(target: BlockPointer, left: BlockPointer, right: BlockPointer, i: nat)
    requires target != left && target != right
    requires target.idx == 0
    requires left.idx < i <= |left.rows| && right.idx < |right.rows|
    requires target.Fits(left.schema, right.schema) && left.Columned() && right.Columned()
    modifies target`rows, target`schema
    ensures target.Fits(left.schema, right.schema)
    ensures var l, r := left.rows[i - 1], right.rows[right.idx];
            target.rows == old(target.rows) + left.rows[left.idx..i - 1] + [if l.version >= r.version then l else r]
  {
    hide Mergeable, FilledFrom, Named;
    if left.rows[i - 1].version >= right.rows[right.idx].version {
      target.AppendAny(left, i, right.schema);
      assert left.rows[left.idx..i] == left.rows[left.idx..i - 1] + [left.rows[i - 1]];
    } else {
      target.AppendAny(left, i - 1, right.schema);
      FilledSym(target.rows, target.schema, left.schema, right.schema);
      target.AppendAny(right, right.idx + 1, left.schema);
      FilledSym(target.rows, target.schema, left.schema, right.schema);
    }
  }

  /** `TakeEarlierThenWinner` and `TakeEarlier`, stated on whole rows with cursors. */
  lemma CursorStep(done: seq<Point>, l: seq<Point>, li: nat, r: seq<Point>, ri: nat, i: nat, all: set<Point>, sid: nat)
    requires li < |l| && ri < |r| && li <= i <= |l|
    requires Progress(done, l[li..], r[ri..], all)
    requires OfSeries(sid, l) && OfSeries(sid, r)
    requires forall k :: li <= k < i ==> l[k].ts <= r[ri].ts
    ensures li < i && l[i - 1].ts == r[ri].ts ==>
              Progress(done + l[li..i - 1] + [if l[i - 1].version >= r[ri].version then l[i - 1] else r[ri]],
                       l[i..], r[ri + 1..], all)
    ensures !(li < i && l[i - 1].ts == r[ri].ts) ==> Progress(done + l[li..i], l[i..], r[ri..], all)
  {
    var a, b := l[li..], r[ri..];
    assert b[0] == r[ri] && b[1..] == r[ri + 1..];
    if li < i && l[i - 1].ts == r[ri].ts {
      var k := i - 1 - li;
      assert a[..k] == l[li..i - 1] && a[k] == l[i - 1] && a[k + 1..] == l[i..];
      TakeEarlierThenWinner(done, a, b, all, k, if l[i - 1].version >= r[ri].version then l[i - 1] else r[ri]);
    } else {
      var k := i - li;
      assert a[..k] == l[li..i] && a[k..] == l[i..];
      assert li < i ==> a[k - 1] == l[i - 1];
      TakeEarlier(done, a, b, all, k);
    }
  }

  /** One step of the loop, up to the emptiness tests: moves both cursors past what it appends. */
  method Step(target: BlockPointer, left: BlockPointer, right: BlockPointer, ghost sid: nat, ghost all: set<Point>)
    returns (both: bool)
    requires target != left && target != right && left != right
    requires target.idx == 0
    requires left.idx < |left.rows| && right.idx < |right.rows|
    requires OfSeries(sid, target.rows) && OfSeries(sid, left.rows) && OfSeries(sid, right.rows)
    requires Progress(target.rows, left.Rest(), right.Rest(), all)
    requires target.Fits(left.schema, right.schema) && left.Columned() && right.Columned()
    modifies target`rows, target`schema, left`idx, right`idx
    ensures target.Fits(left.schema, right.schema)
    ensures left.idx <= |left.rows| && right.idx <= |right.rows|
    ensures both ==> old(left.idx) < left.idx && right.idx == old(right.idx) + 1
    ensures !both ==> old(left.idx) <= left.idx && right.idx == old(right.idx)
    ensures !both && left.idx < |left.rows| ==> right.rows[right.idx].ts < left.rows[left.idx].ts
    ensures Progress(target.rows, left.Rest(), right.Rest(), all)
    ensures OfSeries(sid, target.rows)
    ensures |target.rows| + |left.Rest()| + |right.Rest()| <= old(|target.rows| + |left.Rest()| + |right.Rest()|)
  {
    hide Progress, Mergeable, FilledFrom, Named;
    var i := FirstPast(left.rows, left.idx, right.rows[right.idx].ts);
    CursorStep(target.rows, left.rows, left.idx, right.rows, right.idx, i, all, sid);
    both := i > left.idx && left.rows[i - 1].ts == right.rows[right.idx].ts;
    if both {
      AppendWinner(target, left, right, i);
      left.idx := i;
      right.idx := right.idx + 1;
    } else {
      target.AppendAny(left, i, right.schema);
      left.idx := i;
    }
  }

  /** The other side is exhausted. */
  method AppendLast(target: BlockPointer, b: BlockPointer, ghost sid: nat, ghost all: set<Point>,
                    ghost other: Schema)
    requires target != b && target.idx == 0 && b.idx <= |b.rows|
    requires OfSeries(sid, target.rows) && OfSeries(sid, b.rows)
    requires Progress(target.rows, [], b.Rest(), all)
    requires target.Fits(b.schema, other) && b.Columned()
    modifies target`rows, target`schema
    ensures target.Fits(b.schema, other)
    ensures target.rows == old(target.rows) + b.Rest()
    ensures StrictTs(target.rows) && Refines(Elems(target.rows), all) && OfSeries(sid, target.rows)
  {
    hide Mergeable, FilledFrom, Named;
    TakeRest(target.rows, b.Rest(), all);
    target.AppendAll(b, other);
  }

  /** The swapping loop; terminates because a step that appends nothing puts the lesser head on the left. */
  method MergeLoop(target: BlockPointer, first: BlockPointer, second: BlockPointer, ghost sid: nat, ghost all: set<Point>)
    requires target != first && target != second && first != second
    requires target.rows == [] && target.idx == 0
    requires first.idx < |first.rows| && second.idx < |second.rows|
    requires OfSeries(sid, first.rows) && OfSeries(sid, second.rows)
    requires Progress([], first.Rest(), second.Rest(), all)
    requires target.Fits(first.schema, second.schema) && first.Columned() && second.Columned()
    modifies target`rows, target`schema, first`idx, second`idx
    ensures StrictTs(target.rows) && Refines(Elems(target.rows), all)
    ensures OfSeries(sid, target.rows) && target.Fits(first.schema, second.schema)
    ensures |target.rows| <= old(|first.Rest()| + |second.Rest()|)
  {
    hide Mergeable, FilledFrom, Named, Progress, Refines, Elems, StrictTs;
    FilledSym(target.rows, target.schema, first.schema, second.schema);
    ghost var total := |first.Rest()| + |second.Rest()|;
    var left, right := first, second;
    while true
      invariant (left == first && right == second) || (left == second && right == first)
      invariant left.idx < |left.rows| && right.idx < |right.rows|
      invariant Progress(target.rows, left.Rest(), right.Rest(), all)
      invariant OfSeries(sid, target.rows) && target.Fits(first.schema, second.schema) && target.Fits(second.schema, first.schema)
      invariant |target.rows| + |left.Rest()| + |right.Rest()| <= total
      decreases |left.rows| + |right.rows| - left.idx - right.idx,
                if left.rows[left.idx].ts > right.rows[right.idx].ts then 1 else 0
    {
      var both := Step(target, left, right, sid, all);
      ProgressSym(target.rows, left.Rest(), right.Rest(), all);
      FilledSym(target.rows, target.schema, left.schema, right.schema);
      if both && right.idx >= |right.rows| {
        assert right.Rest() == [];
        AppendLast(target, left, sid, all, right.schema);
        FilledSym(target.rows, target.schema, left.schema, right.schema);
        break;
      }
      if left.idx >= |left.rows| {
        assert left.Rest() == [];
        AppendLast(target, right, sid, all, left.schema);
        FilledSym(target.rows, target.schema, left.schema, right.schema);
        break;
      }
      left, right := right, left;
    }
  }
}
