/**
  Merging stream parts.  A stream keeps every element: the merge drops nothing, even when two
  elements share a series and a timestamp, and a block grows until its size is over the limit.  An
  element's ID takes the place of the version in a row.
 */
module StreamMerge {
  import Collections
  import opened Points
  import opened Schemas
  import opened Joins
  import opened FamilyOrder
  import opened Parts
  import opened BlockMerge
  import opened BlockWriter
  import opened BlockReader
  import MergeSchemas
  import opened MergePacking

  // ---------- two blocks ----------

  ghost predicate NoLater(a: seq<Point>, b: seq<Point>) {
    forall i, j :: 0 <= i < |a| && 0 <= j < |b| ==> a[i].ts <= b[j].ts
  }

  /** What has been appended and what remains of both sides is the whole input. */
  ghost predicate Conserved(done: seq<Point>, a: seq<Point>, b: seq<Point>, all: multiset<Point>) {
    && SortedTs(done) && SortedTs(a) && SortedTs(b) && NoLater(done, a) && NoLater(done, b)
    && multiset(done) + multiset(a) + multiset(b) == all
  }

  lemma SortedConcat(a: seq<Point>, b: seq<Point>)
    requires SortedTs(a) && SortedTs(b) && NoLater(a, b)
    ensures SortedTs(a + b)
  {
  }

  /** Moving the rows of `a` that are not past the head of `b`. */
  lemma Moved(done: seq<Point>, a: seq<Point>, b: seq<Point>, all: multiset<Point>, k: nat)
    requires Conserved(done, a, b, all) && k <= |a| && b != []
    requires forall i :: 0 <= i < k ==> a[i].ts <= b[0].ts
    ensures Conserved(done + a[..k], a[k..], b, all)
  {
    assert a == a[..k] + a[k..];
    SortedConcat(done, a[..k]);
    assert NoLater(done + a[..k], b) by {
      forall i, j | 0 <= i < |done + a[..k]| && 0 <= j < |b| ensures (done + a[..k])[i].ts <= b[j].ts {
        if i >= |done| {
          assert a[i - |done|].ts <= b[0].ts && b[0].ts <= b[j].ts;
        }
      }
    }
    assert NoLater(done + a[..k], a[k..]);
  }

  lemma Last(done: seq<Point>, b: seq<Point>, all: multiset<Point>)
    requires Conserved(done, [], b, all)
    ensures SortedTs(done + b) && multiset(done + b) == all
  {
    SortedConcat(done, b);
  }

  lemma Swapped(done: seq<Point>, a: seq<Point>, b: seq<Point>, all: multiset<Point>)
    requires Conserved(done, a, b, all)
    ensures Conserved(done, b, a, all)
  {
  }

  /** One side is before the other as a whole. */
  lemma Apart(a: BlockPointer, b: BlockPointer, all: multiset<Point>)
    requires Conserved([], a.Rest(), b.Rest(), all) && a.Bounded() && b.Bounded() && a.bm.max < b.bm.min
    ensures SortedTs(a.Rest() + b.Rest()) && multiset(a.Rest() + b.Rest()) == all
  {
    SortedConcat(a.Rest(), b.Rest());
  }

  /**
    Merges two sorted blocks: the result is sorted and holds every row of both, as often as they do.
    Unlike a measure's, this loop may take a turn that appends nothing before any swap.
   */
  method MergeTwoBlocks(target: BlockPointer, left: BlockPointer, right: BlockPointer, ghost sid: nat)
    requires target != left && target != right && left != right && target.rows == [] && target.idx == 0
    requires left.idx <= |left.rows| && right.idx <= |right.rows|
    requires SortedTs(left.rows) && SortedTs(right.rows) && left.Bounded() && right.Bounded()
    requires OfSeries(sid, left.rows) && OfSeries(sid, right.rows)
    requires target.schema == NO_COLUMNS && Mergeable(left.schema, right.schema)
    requires left.Columned() && right.Columned()
    modifies target, left`idx, right`idx
    ensures target.Columned() && (target.rows != [] ==> Sides(target.schema, left.schema, right.schema))
    ensures SortedTs(target.rows) && multiset(target.rows) == old(multiset(left.Rest()) + multiset(right.Rest()))
    ensures target.idx == 0
    ensures target.rows == [] ==> target.bm == old(target.bm)
    ensures target.rows != [] ==>
              target.bm == old(target.bm).(min := target.rows[0].ts, max := target.rows[|target.rows| - 1].ts)
  {
    ghost var all := multiset(left.Rest()) + multiset(right.Rest());
    NothingFilled(left.schema, right.schema);
    MergeRows(target, left, right, all);
    target.UpdateMetadata();
  }

  /** One block lies wholly before the other. */
  method AppendBoth(target: BlockPointer, a: BlockPointer, b: BlockPointer, ghost all: multiset<Point>)
    requires target != a && target != b && target.rows == [] && target.idx == 0
    requires a.idx <= |a.rows| && b.idx <= |b.rows| && a.Bounded() && b.Bounded() && a.bm.max < b.bm.min
    requires Conserved([], a.Rest(), b.Rest(), all)
    requires target.Fits(a.schema, b.schema) && a.Columned() && b.Columned()
    modifies target`rows, target`schema
    ensures SortedTs(target.rows) && multiset(target.rows) == all && target.Fits(a.schema, b.schema)
  {
    hide Mergeable, FilledFrom, Named, Conserved, SortedTs;
    Apart(a, b, all);
    target.AppendAll(a, b.schema);
    FilledSym(target.rows, target.schema, a.schema, b.schema);
    target.AppendAll(b, a.schema);
    FilledSym(target.rows, target.schema, a.schema, b.schema);
    assert [] + a.Rest() + b.Rest() == a.Rest() + b.Rest();
  }

  method MergeRows(target: BlockPointer, left: BlockPointer, right: BlockPointer, ghost all: multiset<Point>)
    requires target != left && target != right && left != right && target.rows == [] && target.idx == 0
    requires left.idx <= |left.rows| && right.idx <= |right.rows| && left.Bounded() && right.Bounded()
    requires Conserved([], left.Rest(), right.Rest(), all)
    requires target.Fits(left.schema, right.schema) && left.Columned() && right.Columned()
    modifies target`rows, target`schema, left`idx, right`idx
    ensures SortedTs(target.rows) && multiset(target.rows) == all && target.Fits(left.schema, right.schema)
  {
    hide Mergeable, FilledFrom, Named, Conserved, SortedTs;
    FilledSym(target.rows, target.schema, left.schema, right.schema);
    if left.bm.max < right.bm.min {
      AppendBoth(target, left, right, all);
      return;
    }
    Swapped([], left.Rest(), right.Rest(), all);
    if right.bm.max < left.bm.min {
      AppendBoth(target, right, left, all);
      FilledSym(target.rows, target.schema, left.schema, right.schema);
      return;
    }
    if left.idx >= |left.rows| {
      Last([], right.Rest(), all);
      target.AppendAll(right, left.schema);
      FilledSym(target.rows, target.schema, left.schema, right.schema);
      return;
    }
    if right.idx >= |right.rows| {
      Last([], left.Rest(), all);
      target.AppendAll(left, right.schema);
      return;
    }
    MergeLoop(target, left, right, all);
  }

  /** Appends the rows of `left` up to the head of `right`. */
  method Turn(target: BlockPointer, left: BlockPointer, right: BlockPointer, ghost all: multiset<Point>)
    requires target != left && target != right && left != right && target.idx == 0
    requires left.idx < |left.rows| && right.idx < |right.rows|
    requires Conserved(target.rows, left.Rest(), right.Rest(), all)
    requires target.Fits(left.schema, right.schema) && left.Columned()
    modifies target`rows, target`schema, left`idx
    ensures target.Fits(left.schema, right.schema)
    ensures old(left.idx) <= left.idx <= |left.rows|
    ensures left.idx < |left.rows| ==> right.rows[right.idx].ts < left.rows[left.idx].ts
    ensures Conserved(target.rows, left.Rest(), right.Rest(), all)
  {
    hide Mergeable, FilledFrom, Named;
    var i := FirstPast(left.rows, left.idx, right.rows[right.idx].ts);
    ghost var k := i - left.idx;
    assert left.Rest()[..k] == left.rows[left.idx..i] && left.Rest()[k..] == left.rows[i..];
    assert forall n :: 0 <= n < k ==> left.Rest()[n] == left.rows[left.idx + n];
    Moved(target.rows, left.Rest(), right.Rest(), all, k);
    target.AppendAny(left, i, right.schema);
    left.idx := i;
  }

  method MergeLoop(target: BlockPointer, first: BlockPointer, second: BlockPointer, ghost all: multiset<Point>)
    requires target != first && target != second && first != second && target.rows == [] && target.idx == 0
    requires first.idx < |first.rows| && second.idx < |second.rows|
    requires Conserved([], first.Rest(), second.Rest(), all)
    requires target.Fits(first.schema, second.schema) && first.Columned() && second.Columned()
    modifies target`rows, target`schema, first`idx, second`idx
    ensures SortedTs(target.rows) && multiset(target.rows) == all && target.Fits(first.schema, second.schema)
  {
    hide Conserved, Mergeable, FilledFrom, Named;
    FilledSym(target.rows, target.schema, first.schema, second.schema);
    var left, right := first, second;
    while true
      invariant (left == first && right == second) || (left == second && right == first)
      invariant left.idx < |left.rows| && right.idx < |right.rows|
      invariant Conserved(target.rows, left.Rest(), right.Rest(), all)
      invariant target.Fits(first.schema, second.schema) && target.Fits(second.schema, first.schema)
      decreases |left.rows| + |right.rows| - left.idx - right.idx,
                if left.rows[left.idx].ts > right.rows[right.idx].ts then 1 else 0
    {
      Turn(target, left, right, all);
      FilledSym(target.rows, target.schema, left.schema, right.schema);
      if left.idx >= |left.rows| {
        assert left.Rest() == [];
        Last(target.rows, right.Rest(), all);
        target.AppendAll(right, left.schema);
        FilledSym(target.rows, target.schema, left.schema, right.schema);
        break;
      }
      Swapped(target.rows, left.Rest(), right.Rest(), all);
      left, right := right, left;
    }
  }

  // ---------- rows of blocks ----------

  ghost function RowsOf(bs: seq<Block>): multiset<Point> {
    if bs == [] then multiset{} else multiset(bs[0].rows) + RowsOf(bs[1..])
  }

  lemma {:induction false} RowsOfHead(a: seq<Block>)
    requires a != []
    ensures RowsOf(a) == multiset(a[0].rows) + RowsOf(a[1..])
  {
  }

  lemma {:induction false} RowsOfConcat(a: seq<Block>, b: seq<Block>)
    ensures RowsOf(a + b) == RowsOf(a) + RowsOf(b)
  {
    hide RowsOf;
    if a == [] {
      assert a + b == b;
      NoRows();
    } else {
      RowsOfConcat(a[1..], b);
      assert (a + b)[1..] == a[1..] + b;
      RowsOfHead(a);
      RowsOfHead(a + b);
      Collections.Associative(multiset(a[0].rows), RowsOf(a[1..]), RowsOf(b));
    }
  }

  lemma {:induction false} RowsOfCount(bs: seq<Block>)
    ensures |RowsOf(bs)| == RowCount(bs)
  {
    if bs != [] {
      RowsOfCount(bs[1..]);
      assert |multiset(bs[0].rows)| == |bs[0].rows|;
    }
  }

  /** The rows of some blocks, in no order. */
  ghost function RowsIn(todo: multiset<Block>): multiset<Point>
    decreases |todo|
  {
    if todo == multiset{} then multiset{}
    else var b :| b in todo; multiset(b.rows) + RowsIn(todo - multiset{b})
  }

  lemma {:induction false} RowsInTake(todo: multiset<Block>, b: Block)
    requires b in todo
    ensures RowsIn(todo) == multiset(b.rows) + RowsIn(todo - multiset{b})
    decreases |todo|
  {
    hide RowsIn;
    var c := RowsInSome(todo);
    if c != b {
      RowsInTake(todo - multiset{c}, b);
      RowsInTake(todo - multiset{b}, c);
      assert todo - multiset{c} - multiset{b} == todo - multiset{b} - multiset{c};
      Exchange(multiset(b.rows), multiset(c.rows), RowsIn(todo - multiset{b} - multiset{c}));
    }
  }

  lemma RowsInSome(todo: multiset<Block>) returns (c: Block)
    requires todo != multiset{}
    ensures c in todo && RowsIn(todo) == multiset(c.rows) + RowsIn(todo - multiset{c})
  {
    c :| c in todo && RowsIn(todo) == multiset(c.rows) + RowsIn(todo - multiset{c});
  }

  lemma Exchange(a: multiset<Point>, b: multiset<Point>, c: multiset<Point>)
    ensures a + (b + c) == b + (a + c)
  {
  }

  lemma {:induction false} RowsInSeq(bs: seq<Block>, rest: multiset<Block>)
    ensures RowsIn(multiset(bs) + rest) == RowsOf(bs) + RowsIn(rest)
  {
    if bs == [] {
      assert multiset(bs) + rest == rest;
    } else {
      assert bs == [bs[0]] + bs[1..];
      RowsInTake(multiset(bs) + rest, bs[0]);
      assert multiset(bs) + rest - multiset{bs[0]} == multiset(bs[1..]) + rest;
      RowsInSeq(bs[1..], rest);
    }
  }

  /** The rows of some parts together. */
  ghost function PartsRows(parts: seq<Part>): multiset<Point> {
    if parts == [] then multiset{} else RowsOf(Flat(parts[0].primaries)) + PartsRows(parts[1..])
  }

  lemma {:induction false} PartsRowsIn(parts: seq<Part>)
    ensures RowsIn(PartsBlocks(parts)) == PartsRows(parts)
  {
    hide RowsIn, Flat, RowsOf;
    if parts == [] {
      NoRows();
    } else {
      PartsRowsIn(parts[1..]);
      RowsInSeq(Flat(parts[0].primaries), PartsBlocks(parts[1..]));
    }
  }

  lemma NoRows()
    ensures RowsIn(multiset{}) == multiset{} && RowsOf([]) == multiset{}
  {
  }

  ghost function TotalCount(parts: seq<Part>): nat {
    if parts == [] then 0 else parts[0].meta.totalCount + TotalCount(parts[1..])
  }

  lemma {:induction false} PartsRowsCount(parts: seq<Part>)
    requires AllIndexed(parts)
    ensures |PartsRows(parts)| == TotalCount(parts)
  {
    hide Flat, RowsOf, WFIndex, Ordered, ExactBlock, ExactRange;
    if parts != [] {
      assert IndexedPart(parts[0]);
      RowsOfCount(Flat(parts[0].primaries));
      PartsRowsCount(parts[1..]);
    }
  }

  // ---------- the loop invariant, on values ----------

  /** Written, pending and unread rows are the input. */
  ghost predicate AllThere(written: seq<Block>, pend: seq<Point>, todo: multiset<Block>, input: multiset<Point>) {
    RowsOf(written) + multiset(pend) + RowsIn(todo) == input
  }

  ghost predicate TodoAfter(todo: multiset<Block>, last: BlockMeta) {
    forall b :: b in todo ==> ExactBlock(b) && 0 < b.bm.sid && BlockLe(last, b.bm)
  }

  /** Whatever is written next comes after the last written block. */
  ghost predicate InLine(written: seq<Block>, pend: seq<Point>, todo: multiset<Block>, last: BlockMeta) {
    && TodoAfter(todo, last) && SortedTs(pend) && OfSeries(last.sid, pend)
    && (written != [] ==> BlockLe(written[|written| - 1].bm, last))
    && (pend != [] ==> 0 < last.sid && pend[0].ts <= last.min)
    && (written != [] && pend != [] && written[|written| - 1].bm.sid == last.sid ==>
          written[|written| - 1].bm.min <= pend[0].ts)
  }

  ghost predicate LoopInv(
    written: seq<Block>, pend: seq<Point>, todo: multiset<Block>, last: BlockMeta, input: multiset<Point>)
  {
    AllThere(written, pend, todo, input) && InLine(written, pend, todo, last)
  }

  /** `b` is the block just read: outstanding and least. */
  ghost predicate Next(todo: multiset<Block>, b: Block) {
    b in todo && forall x :: x in todo ==> BlockLe(b.bm, x.bm)
  }

  /** `out` is written and `kept` stays pending, in place of the pending rows and those of `b`. */
  lemma {:induction false} AllThereStep(written: seq<Block>, pend: seq<Point>, todo: multiset<Block>, input: multiset<Point>, b: Block,
                     out: seq<Block>, kept: seq<Point>)
    requires AllThere(written, pend, todo, input) && b in todo
    requires RowsOf(out) + multiset(kept) == multiset(pend) + multiset(b.rows)
    ensures AllThere(written + out, kept, todo - multiset{b}, input)
  {
    hide RowsOf, RowsIn;
    RowsOfConcat(written, out);
    RowsInTake(todo, b);
    Regroup(RowsOf(written), RowsOf(out), multiset(kept), RowsIn(todo - multiset{b}), multiset(pend), multiset(b.rows));
  }

  lemma Regroup(w: multiset<Point>, o: multiset<Point>, k: multiset<Point>, r: multiset<Point>, p: multiset<Point>,
                b: multiset<Point>)
    requires o + k == p + b
    ensures w + o + k + r == w + p + (b + r)
  {
    assert w + o + k + r == w + (o + k) + r;
    assert w + p + (b + r) == w + (p + b) + r;
  }

  lemma ReadNext(written: seq<Block>, pend: seq<Point>, todo: multiset<Block>, last: BlockMeta, b: Block)
    requires InLine(written, pend, todo, last) && Next(todo, b)
    ensures ExactBlock(b) && 0 < b.bm.sid && BlockLe(last, b.bm) && TodoAfter(todo - multiset{b}, b.bm)
    ensures written != [] ==> BlockLe(written[|written| - 1].bm, b.bm)
  {
    hide ExactBlock;
    assert forall x :: x in todo - multiset{b} ==> x in todo;
  }

  lemma OneBlock(b: Block)
    ensures RowsOf([b]) == multiset(b.rows)
  {
  }

  /** The block just read becomes pending, after the pending block, if any, has been written. */
  lemma Replace(written: seq<Block>, pend: seq<Point>, todo: multiset<Block>, last: BlockMeta, input: multiset<Point>, b: Block,
                out: seq<Block>)
    requires LoopInv(written, pend, todo, last, input) && Next(todo, b)
    requires if pend == [] then out == [] else |out| == 1 && out[0].rows == pend && BlockLe(out[0].bm, b.bm)
    ensures LoopInv(written + out, b.rows, todo - multiset{b}, b.bm, input)
  {
    hide AllThere, RowsOf, TodoAfter;
    ReadNext(written, pend, todo, last, b);
    if pend == [] {
      NoRows();
    } else {
      assert out == [out[0]];
      OneBlock(out[0]);
    }
    AllThereStep(written, pend, todo, input, b, out, b.rows);
  }

  /** What the merge of the pending block and `b` delivers. */
  ghost predicate MergedRows(tmp: seq<Point>, pend: seq<Point>, b: Block) {
    SortedTs(tmp) && multiset(tmp) == multiset(pend) + multiset(b.rows)
  }

  lemma MergedHead(tmp: seq<Point>, pend: seq<Point>, rows: seq<Point>, sid: nat)
    requires SortedTs(tmp) && SortedTs(pend) && SortedTs(rows) && pend != [] && rows != []
    requires multiset(tmp) == multiset(pend) + multiset(rows) && OfSeries(sid, pend) && OfSeries(sid, rows)
    ensures tmp != [] && OfSeries(sid, tmp) && tmp[0].ts <= rows[0].ts
    ensures pend[0].ts <= tmp[0].ts || rows[0].ts <= tmp[0].ts
  {
    assert rows[0] in multiset(tmp);
    var k :| 0 <= k < |tmp| && tmp[k] == rows[0];
    forall i | 0 <= i < |tmp| ensures tmp[i] in pend || tmp[i] in rows {
      assert tmp[i] in multiset(tmp);
    }
    if tmp[0] in pend {
      var i :| 0 <= i < |pend| && pend[i] == tmp[0];
    } else {
      var i :| 0 <= i < |rows| && rows[i] == tmp[0];
    }
  }

  /** The merged rows follow what has been written and start no later than the block just read. */
  lemma MergedFollows(written: seq<Block>, pend: seq<Point>, todo: multiset<Block>, last: BlockMeta, b: Block, tmp: seq<Point>)
    requires InLine(written, pend, todo, last) && Next(todo, b) && pend != [] && b.bm.sid == last.sid
    requires MergedRows(tmp, pend, b)
    ensures tmp != [] && OfSeries(b.bm.sid, tmp) && tmp[0].ts <= b.bm.min && 0 < b.bm.sid
    ensures written != [] && written[|written| - 1].bm.sid == b.bm.sid ==> written[|written| - 1].bm.min <= tmp[0].ts
  {
    hide TodoAfter;
    ReadNext(written, pend, todo, last, b);
    MergedHead(tmp, pend, b.rows, b.bm.sid);
  }

  /** The merged block becomes pending. */
  lemma Keep(written: seq<Block>, pend: seq<Point>, todo: multiset<Block>, last: BlockMeta, input: multiset<Point>, b: Block,
             tmp: seq<Point>)
    requires LoopInv(written, pend, todo, last, input) && Next(todo, b) && pend != [] && b.bm.sid == last.sid
    requires MergedRows(tmp, pend, b)
    ensures LoopInv(written, tmp, todo - multiset{b}, b.bm, input)
  {
    hide AllThere, RowsOf, TodoAfter, ExactBlock;
    ReadNext(written, pend, todo, last, b);
    MergedFollows(written, pend, todo, last, b, tmp);
    NoRows();
    assert written + [] == written && multiset{} + multiset(tmp) == multiset(tmp);
    AllThereStep(written, pend, todo, input, b, [], tmp);
  }

  /** The merged block is written at once; nothing stays pending. */
  lemma Spill(written: seq<Block>, pend: seq<Point>, todo: multiset<Block>, last: BlockMeta, input: multiset<Point>, b: Block,
              out: Block)
    requires LoopInv(written, pend, todo, last, input) && Next(todo, b) && pend != [] && b.bm.sid == last.sid
    requires MergedRows(out.rows, pend, b) && out.bm.sid == b.bm.sid
    requires out.rows != [] && out.bm.min == out.rows[0].ts
    ensures LoopInv(written + [out], [], todo - multiset{b}, b.bm, input)
  {
    hide AllThere, RowsOf, TodoAfter, ExactBlock;
    ReadNext(written, pend, todo, last, b);
    MergedFollows(written, pend, todo, last, b, out.rows);
    OneBlock(out);
    assert RowsOf([out]) + multiset([]) == RowsOf([out]);
    AllThereStep(written, pend, todo, input, b, [out], []);
  }

  // ---------- the loop ----------

  ghost predicate Holds(pending: BlockPointer, pend: seq<Point>, sid: nat)
    reads pending
  {
    && pending.rows == pend && pend != [] && pending.idx == 0 && pending.bm.sid == sid
    && pending.bm.min == pend[0].ts && pending.bm.max == pend[|pend| - 1].ts && pending.Columned()
  }

  lemma HoldsBounded(pending: BlockPointer, pend: seq<Point>, sid: nat)
    requires Holds(pending, pend, sid) && SortedTs(pend)
    ensures pending.Bounded() && pending.Rest() == pend
  {
    hide Named;
  }

  /** Rows in line may be written next. */
  lemma CanWrite(w: Writer, rows: seq<Point>, sid: nat, last: BlockMeta)
    requires w.Valid() && rows != [] && 0 < sid && sid == last.sid
    requires w.written != [] ==> BlockLe(w.written[|w.written| - 1].bm, last)
    requires w.written != [] && w.written[|w.written| - 1].bm.sid == sid ==>
               w.written[|w.written| - 1].bm.min <= rows[0].ts
    ensures w.InOrder(sid, rows)
    ensures w.MetaOf(sid, rows).sid == sid && w.MetaOf(sid, rows).min == rows[0].ts
  {
    hide Ordered, AllExact, Flat, WFIndex, ExactRange, RowCount;
  }

  /** copyFrom, into a block pointer that holds no rows. */
  method CopyFrom(br: Reader, pending: BlockPointer)
    requires pending != br.block && pending.rows == [] && pending.schema == NO_COLUMNS
    requires br.AtBlock() && ExactBlock(br.cur) && br.block.bm == br.cur.bm && br.block.idx == 0
    requires WFSchema(AsRead(br.cur.schema))
    modifies br.block`rows, br.block`schema, pending
    ensures Holds(pending, br.cur.rows, br.cur.bm.sid) && pending.schema == AsRead(br.cur.schema)
    ensures pending.bm == br.cur.bm
  {
    hide Mergeable, WFSchema, Join, AsRead, Named, SortedTs, OfSeries, Sides, Between;
    br.LoadBlockData();
    NamedAsRead(br.cur.rows, br.cur.schema);
    MergesWithItself(br.block.schema);
    NothingFilled(br.block.schema, br.block.schema);
    JoinNothing(br.block.schema);
    pending.idx := 0;
    pending.bm := br.block.bm;
    pending.AppendAll(br.block, br.block.schema);
  }

  method MergeIntoTmp(br: Reader, pending: BlockPointer, tmp: BlockPointer, ghost pend: seq<Point>)
    requires pending != br.block && tmp != br.block && tmp != pending
    requires br.AtBlock() && ExactBlock(br.cur) && br.block.bm == br.cur.bm && br.block.idx == 0
    requires Holds(pending, pend, br.cur.bm.sid) && SortedTs(pend) && OfSeries(br.cur.bm.sid, pend)
    requires Mergeable(pending.schema, AsRead(br.cur.schema))
    modifies br.block, pending`idx, tmp
    ensures Sides(tmp.schema, pending.schema, AsRead(br.cur.schema))
    ensures MergedRows(tmp.rows, pend, br.cur) && tmp.rows != []
    ensures Holds(tmp, tmp.rows, br.cur.bm.sid) && tmp.bm.size == 0
  {
    hide Mergeable, Sides, AsRead, Named, WFSchema;
    tmp.Reset();
    tmp.bm := tmp.bm.(sid := br.block.bm.sid);
    br.LoadBlockData();
    NamedAsRead(br.cur.rows, br.cur.schema);
    HoldsBounded(pending, pend, br.cur.bm.sid);
    HoldsBounded(br.block, br.cur.rows, br.cur.bm.sid);
    MergeTwoBlocks(tmp, pending, br.block, br.cur.bm.sid);
    MergedHead(tmp.rows, pend, br.cur.rows, br.cur.bm.sid);
  }

  predicate MustReplace(pending: BlockPointer, bm: BlockMeta)
    reads pending
  {
    pending.bm.sid != bm.sid || (pending.bm.size >= MAX_UNCOMPRESSED_BLOCK_SIZE && pending.bm.max <= bm.min)
  }

  /** The pending block may be written, and comes before the block just read. */
  lemma PendingWrite(w: Writer, pending: BlockPointer, pend: seq<Point>, todo: multiset<Block>, last: BlockMeta,
                     input: multiset<Point>)
    requires w.Valid() && LoopInv(w.written, pend, todo, last, input) && Holds(pending, pend, last.sid)
    ensures pend != [] && pending.rows == pend && pending.bm.sid == last.sid && Named(pend, pending.schema)
    ensures w.InOrder(last.sid, pend) && SortedTs(pend) && OfSeries(last.sid, pend)
    ensures forall b :: Next(todo, b) ==> BlockLe(w.MetaOf(last.sid, pend), b.bm)
    ensures w.MetaOf(last.sid, pend).sid == last.sid
  {
    hide AllThere, SortedTs, OfSeries, Named;
    CanWrite(w, pend, last.sid, last);
  }

  lemma NextFacts(written: seq<Block>, pend: seq<Point>, todo: multiset<Block>, last: BlockMeta, input: multiset<Point>, b: Block)
    requires LoopInv(written, pend, todo, last, input) && b in todo && (forall x :: x in todo ==> BlockLe(b.bm, x.bm))
    ensures Next(todo, b) && ExactBlock(b) && SortedTs(pend) && OfSeries(last.sid, pend) && last.sid <= b.bm.sid
    ensures written != [] ==> BlockLe(written[|written| - 1].bm, b.bm) && written[|written| - 1].bm.sid <= last.sid
  {
    hide AllThere, ExactBlock, SortedTs, OfSeries;
    ReadNext(written, pend, todo, last, b);
  }

  lemma SameSeries(pending: BlockPointer, pend: seq<Point>, sid: nat, bm: BlockMeta)
    requires Holds(pending, pend, sid) && !MustReplace(pending, bm)
    ensures bm.sid == sid && pend != []
  {
  }

  lemma MergedWrite(w: Writer, pend: seq<Point>, todo: multiset<Block>, last: BlockMeta, input: multiset<Point>, b: Block,
                    tmp: seq<Point>)
    requires w.Valid() && LoopInv(w.written, pend, todo, last, input) && Next(todo, b) && pend != [] && b.bm.sid == last.sid
    requires MergedRows(tmp, pend, b)
    ensures tmp != [] && w.InOrder(b.bm.sid, tmp) && SortedTs(tmp) && OfSeries(b.bm.sid, tmp)
    ensures w.MetaOf(b.bm.sid, tmp).sid == b.bm.sid && w.MetaOf(b.bm.sid, tmp).min == tmp[0].ts
  {
    hide AllThere, TodoAfter, SortedTs, OfSeries;
    MergedFollows(w.written, pend, todo, last, b, tmp);
    CanWrite(w, tmp, b.bm.sid, last);
  }

  /** The block just read has the pending series and is not after a full pending block. */
  method MergeBranch(w: Writer, br: Reader, pending: BlockPointer, tmp: BlockPointer, ghost pend: seq<Point>,
                     ghost todo: multiset<Block>, ghost last: BlockMeta, ghost input: multiset<Point>, ghost all: multiset<Block>)
    returns (swap: bool, ghost kept: seq<Point>)
    requires br.block != pending && br.block != tmp && pending != tmp && w.Valid()
    requires br.AtBlock() && br.block.bm == br.cur.bm && br.block.idx == 0 && ExactBlock(br.cur)
    requires LoopInv(w.written, pend, todo, last, input) && Next(todo, br.cur)
    requires Holds(pending, pend, last.sid) && br.cur.bm.sid == last.sid && pend != [] && SortedTs(pend) && OfSeries(last.sid, pend)
    requires MergeSchemas.Columned(w.written, Some(pending.schema), todo, last.sid, all)
    requires PackedBefore(w.written, last.sid, all, w.sizeOf, None)
    modifies w, br.block, pending, tmp
    ensures MergeSchemas.Columned(w.written, if swap then Some(tmp.schema) else None, todo - multiset{br.cur}, br.cur.bm.sid, all)
    ensures PackedBefore(w.written, br.cur.bm.sid, all, w.sizeOf, None)
    ensures swap ==> Origin(kept, tmp.bm.size, all)
    ensures w.Valid() && LoopInv(w.written, kept, todo - multiset{br.cur}, br.cur.bm, input)
    ensures swap ==> Holds(tmp, kept, br.cur.bm.sid)
    ensures !swap ==> kept == [] && pending.rows == [] && pending.schema == NO_COLUMNS
  {
    hide *;
    NextIn(todo, br.cur);
    MergeSchemas.Merge(w.written, pending.schema, todo, last.sid, all, br.cur);
    MergeIntoTmp(br, pending, tmp, pend);
    HoldsRows(tmp, tmp.rows, br.cur.bm.sid);
    MergedWrite(w, pend, todo, last, input, br.cur, tmp.rows);
    if w.sizeOf(tmp.rows) <= MAX_UNCOMPRESSED_BLOCK_SIZE {
      Keep(w.written, pend, todo, last, input, br.cur, tmp.rows);
      FromMerge(tmp.rows, all);
      swap, kept := true, tmp.rows;
    } else {
      ghost var out := Block(w.MetaOf(tmp.bm.sid, tmp.rows), tmp.rows, tmp.schema);
      Spill(w.written, pend, todo, last, input, br.cur, out);
      MergeSchemas.WriteLast(w.written, tmp.schema, todo - multiset{br.cur}, last.sid, all, out);
      FullWrite(w.written, last.sid, out, all, w.sizeOf);
      w.MustWriteBlock(tmp.bm.sid, tmp.rows, tmp.schema);
      pending.Reset();
      tmp.Reset();
      swap, kept := false, [];
    }
  }

  /** The pending block is written and the block just read takes its place. */
  method ReplacePending(w: Writer, br: Reader, pending: BlockPointer, ghost pend: seq<Point>, ghost todo: multiset<Block>,
                        ghost last: BlockMeta, ghost input: multiset<Point>, ghost all: multiset<Block>)
    requires pending != br.block && w.Valid()
    requires br.AtBlock() && br.block.bm == br.cur.bm && br.block.idx == 0 && ExactBlock(br.cur) && br.cur in todo
    requires LoopInv(w.written, pend, todo, last, input) && Next(todo, br.cur) && Holds(pending, pend, last.sid)
    requires MergeSchemas.Columned(w.written, Some(pending.schema), todo, last.sid, all) && MustReplace(pending, br.cur.bm)
    requires PackedBefore(w.written, last.sid, all, w.sizeOf, None) && Origin(pend, pending.bm.size, all)
    modifies w, br.block`rows, br.block`schema, pending
    ensures w.Valid() && LoopInv(w.written, br.cur.rows, todo - multiset{br.cur}, br.cur.bm, input)
    ensures Holds(pending, br.cur.rows, br.cur.bm.sid)
    ensures MergeSchemas.Columned(w.written, Some(pending.schema), todo - multiset{br.cur}, br.cur.bm.sid, all)
    ensures PackedBefore(w.written, br.cur.bm.sid, all, w.sizeOf, None) && Origin(br.cur.rows, pending.bm.size, all)
  {
    hide *;
    PendingWrite(w, pending, pend, todo, last, input);
    ghost var out := Block(w.MetaOf(last.sid, pend), pend, pending.schema);
    Replace(w.written, pend, todo, last, input, br.cur, [out]);
    MergeSchemas.Write(w.written, pending.schema, todo, last.sid, all, out);
    MergeSchemas.Fetch(w.written + [out], Some(pending.schema), todo, last.sid, all, br.cur);
    ReplaceFull(pending, br.cur.bm, w.written, out, all, w.sizeOf);
    FromInput(br.cur, all);
    w.MustWriteBlock(pending.bm.sid, pending.rows, pending.schema);
    pending.Reset();
    CopyFrom(br, pending);
  }

  /** A pending block that is replaced within its series is full. */
  lemma ReplaceFull(pending: BlockPointer, bm: BlockMeta, written: seq<Block>, out: Block, all: multiset<Block>,
                    sizeOf: seq<Point> -> nat)
    requires MustReplace(pending, bm) && Origin(pending.rows, pending.bm.size, all)
    requires out.rows == pending.rows && out.bm.sid == pending.bm.sid
    requires PackedBefore(written, pending.bm.sid, all, sizeOf, None)
    ensures PackedBefore(written + [out], bm.sid, all, sizeOf, None)
  {
    hide PackedBefore;
    WriteOut(written, pending.bm.sid, bm.sid, out, all, sizeOf, None);
  }

  lemma FullWrite(written: seq<Block>, sid: nat, out: Block, all: multiset<Block>, sizeOf: seq<Point> -> nat)
    requires PackedBefore(written, sid, all, sizeOf, None) && out.bm.sid == sid
    requires MAX_UNCOMPRESSED_BLOCK_SIZE < sizeOf(out.rows)
    ensures PackedBefore(written + [out], sid, all, sizeOf, None)
  {
    hide PackedBefore;
    WriteOut(written, sid, sid, out, all, sizeOf, None);
  }

  lemma NothingPacked(all: multiset<Block>, sizeOf: seq<Point> -> nat)
    ensures PackedBefore([], 0, all, sizeOf, None)
  {
  }

  lemma NextIn(todo: multiset<Block>, b: Block)
    requires Next(todo, b)
    ensures b in todo
  {
  }

  lemma HoldsRows(pending: BlockPointer, pend: seq<Point>, sid: nat)
    requires Holds(pending, pend, sid)
    ensures pend != [] && pending.rows == pend && pending.bm.sid == sid && Named(pend, pending.schema)
  {
    hide Named;
  }

  lemma {:induction false} EmptyInv(todo: multiset<Block>)
    requires forall b :: b in todo ==> ExactBlock(b) && 0 < b.bm.sid
    ensures LoopInv([], [], todo, BlockMeta(0, 0, 0, 0, 0), RowsIn(todo))
  {
    hide ExactBlock, RowsIn;
  }

  /** At the end, what was written, with the last pending block, is the whole input. */
  lemma {:induction false} Finish(written: seq<Block>, pend: seq<Point>, last: BlockMeta, input: multiset<Point>, out: seq<Block>)
    requires LoopInv(written, pend, multiset{}, last, input)
    requires if pend == [] then out == [] else |out| == 1 && out[0].rows == pend
    ensures RowsOf(written + out) == input
  {
    hide RowsOf, InLine, RowsIn;
    RowsOfConcat(written, out);
    NoRows();
    if pend != [] {
      assert out == [out[0]];
      OneBlock(out[0]);
    }
  }

  datatype Outcome = Merged(part: Part) | Closed | NoPartToMerge

  /** Merges everything the reader delivers; the output holds every row exactly as often as the input. */
  method MergeBlocks(w: Writer, br: Reader, closeAt: Option<nat>) returns (r: Outcome)
    requires w.Valid() && w.written == [] && br.Valid()
    requires forall b :: b in br.todo ==> ExactBlock(b) && 0 < b.bm.sid
    requires MergeSchemas.SchemasAgree(br.todo)
    modifies w, br, br.block
    ensures r.Merged? || (r.Closed? && closeAt.Some?)
    ensures r.Merged? ==> IndexedPart(r.part) && RowsOf(Flat(r.part.primaries)) == old(RowsIn(br.todo))
    ensures r.Merged? ==> MergeSchemas.MixedFrom(Flat(r.part.primaries), old(br.todo))
    ensures r.Merged? ==> Packed(Flat(r.part.primaries), old(br.todo), w.sizeOf, None)
  {
    hide *;
    ghost var all, input := br.todo, RowsIn(br.todo);
    MergeSchemas.Begin(all);
    NothingPacked(all, w.sizeOf);
    EmptyInv(br.todo);
    var pendingEmpty := true;
    var pending := new BlockPointer();
    var tmp := new BlockPointer();
    ghost var pend: seq<Point>, last := [], BlockMeta(0, 0, 0, 0, 0);
    var round := 0;
    while true
      invariant w.Valid() && br.Valid()
      invariant fresh(pending) && fresh(tmp) && pending != tmp && pending != br.block && tmp != br.block
      invariant LoopInv(w.written, pend, br.todo, last, input)
      invariant MergeSchemas.Columned(w.written, if pendingEmpty then None else Some(pending.schema), br.todo, last.sid, all)
      invariant PackedBefore(w.written, last.sid, all, w.sizeOf, None)
      invariant !pendingEmpty ==> Origin(pend, pending.bm.size, all)
      invariant pendingEmpty ==> pend == [] && pending.rows == [] && pending.schema == NO_COLUMNS
      invariant !pendingEmpty ==> Holds(pending, pend, last.sid)
      decreases |br.todo|
    {
      ghost var todo := br.todo;
      var more := br.NextBlockMetadata();
      if !more {
        break;
      }
      if closeAt == Some(round) {
        return Closed;
      }
      round := round + 1;
      NextFacts(w.written, pend, todo, last, input, br.cur);
      if pendingEmpty {
        MergeSchemas.Fetch(w.written, None, todo, last.sid, all, br.cur);
        NextSeries(w.written, last.sid, br.cur.bm.sid, all, w.sizeOf, None);
        FromInput(br.cur, all);
        Replace(w.written, pend, todo, last, input, br.cur, []);
        assert w.written + [] == w.written;
        CopyFrom(br, pending);
        pendingEmpty, pend := false, br.cur.rows;
      } else if MustReplace(pending, br.block.bm) {
        ReplacePending(w, br, pending, pend, todo, last, input, all);
        pend := br.cur.rows;
      } else {
        SameSeries(pending, pend, last.sid, br.cur.bm);
        var swap;
        swap, pend := MergeBranch(w, br, pending, tmp, pend, todo, last, input, all);
        if swap {
          pending, tmp := tmp, pending;
          HoldsRows(pending, pend, br.cur.bm.sid);
        }
        pendingEmpty := !swap || |pending.rows| == 0;
      }
      last := br.cur.bm;
    }
    var part := WriteRest(w, pending, pendingEmpty, pend, br.todo, last, input, all);
    r := Merged(part);
  }

  /** Writes the last pending block and ends the part. */
  method WriteRest(w: Writer, pending: BlockPointer, pendingEmpty: bool, ghost pend: seq<Point>, ghost todo: multiset<Block>,
                   ghost last: BlockMeta, ghost input: multiset<Point>, ghost all: multiset<Block>)
    returns (part: Part)
    requires w.Valid() && todo == multiset{} && LoopInv(w.written, pend, todo, last, input)
    requires MergeSchemas.Columned(w.written, if pendingEmpty then None else Some(pending.schema), todo, last.sid, all)
    requires PackedBefore(w.written, last.sid, all, w.sizeOf, None)
    requires pendingEmpty ==> pend == []
    requires !pendingEmpty ==> Holds(pending, pend, last.sid)
    modifies w
    ensures IndexedPart(part) && RowsOf(Flat(part.primaries)) == input
    ensures MergeSchemas.MixedFrom(Flat(part.primaries), all) && Packed(Flat(part.primaries), all, w.sizeOf, None)
  {
    hide *;
    ghost var before, out: seq<Block> := w.written, [];
    if !pendingEmpty {
      PendingWrite(w, pending, pend, todo, last, input);
      out := [Block(w.MetaOf(last.sid, pend), pend, pending.schema)];
      MergeSchemas.Write(w.written, pending.schema, todo, last.sid, all, out[0]);
      w.MustWriteBlock(pending.bm.sid, pending.rows, pending.schema);
    }
    MergeSchemas.Written(w.written, if pendingEmpty then None else Some(pending.schema), todo, last.sid, all);
    AllPacked(before, last.sid, out, all, w.sizeOf, None);
    Finish(before, pend, last, input, out);
    assert w.written == before + out;
    part := w.Flush();
  }

  ghost predicate AllStreamParts(parts: seq<Part>) {
    AllIndexed(parts) && forall b :: b in PartsBlocks(parts) ==> ExactBlock(b) && 0 < b.bm.sid
  }

  /** Merging stream parts conserves the rows and the total count; the result is again a well-indexed part. */
  method MergeParts(parts: seq<Part>, sizeOf: seq<Point> -> nat, metaLen: BlockMeta -> nat, closeAt: Option<nat>)
    returns (r: Outcome)
    requires AllStreamParts(parts) && MergeSchemas.SchemasAgree(PartsBlocks(parts))
    ensures r.NoPartToMerge? <==> parts == []
    ensures r.Closed? ==> closeAt.Some?
    ensures r.Merged? ==> IndexedPart(r.part) && RowsOf(Flat(r.part.primaries)) == PartsRows(parts)
    ensures r.Merged? ==> r.part.meta.totalCount == TotalCount(parts)
    ensures r.Merged? ==> MergeSchemas.MixedFrom(Flat(r.part.primaries), PartsBlocks(parts))
    ensures r.Merged? ==> Packed(Flat(r.part.primaries), PartsBlocks(parts), sizeOf, None)
  {
    hide *;
    if |parts| == 0 {
      return NoPartToMerge;
    }
    StreamFacts(parts);
    PartsRowsIn(parts);
    var br := new Reader(parts);
    var w := new Writer(sizeOf, metaLen);
    r := MergeBlocks(w, br, closeAt);
    if r.Merged? {
      PartsRowsCount(parts);
      CountOf(r.part);
    }
  }

  lemma {:induction false} StreamFacts(parts: seq<Part>)
    requires AllStreamParts(parts)
    ensures AllIndexed(parts) && forall b :: b in PartsBlocks(parts) ==> ExactBlock(b) && 0 < b.bm.sid
  {
  }

  lemma CountOf(part: Part)
    requires IndexedPart(part)
    ensures part.meta.totalCount == |RowsOf(Flat(part.primaries))|
  {
    hide Flat, RowsOf, WFIndex, Ordered, ExactBlock, ExactRange;
    RowsOfCount(Flat(part.primaries));
  }
}
