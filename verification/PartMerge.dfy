/**
  Merging parts: the streaming loop over the block reader, with its pending block, the write of a
  full or finished pending block, the spill of an oversized merge result and the split of an
  overlong one.
 */
module PartMerge {
  import opened Points
  import opened Schemas
  import opened Joins
  import opened FamilyOrder
  import opened Parts
  import opened BlockMerge
  import opened BlockWriter
  import opened BlockReader
  import MergeSchemas
  import opened MergePacking

  datatype Outcome = Merged(part: Part) | Closed | NoPartToMerge

  ghost function TodoPoints(todo: multiset<Block>): set<Point> {
    set b, p | b in todo && p in b.rows :: p
  }

  /** The points of some parts together. */
  ghost function PartsPoints(parts: seq<Part>): set<Point> {
    if parts == [] then {} else PartPoints(parts[0]) + PartsPoints(parts[1..])
  }

  // ---------- the loop invariant, on values ----------

  /** Nothing lost, nothing invented: written, pending and unread rows stand for the input. */
  ghost predicate Sound(written: seq<Block>, pend: seq<Point>, todo: multiset<Block>, input: set<Point>) {
    Refines(BlockPoints(written) + Elems(pend) + TodoPoints(todo), input)
  }

  /** Whatever is written next, its series and least timestamp come after the last written block. */
  ghost predicate InSequence(written: seq<Block>, pend: seq<Point>, todo: multiset<Block>, last: BlockMeta) {
    && AllWF(written)
    && TodoAfter(todo, last)
    && StrictTs(pend) && OfSeries(last.sid, pend)
    && (written != [] ==> BlockLe(written[|written| - 1].bm, last))
    && (written != [] && pend != [] && written[|written| - 1].bm.sid == last.sid ==>
          written[|written| - 1].bm.min <= pend[0].ts)
  }

  ghost predicate AllWF(bs: seq<Block>) {
    forall b :: b in bs ==> WFBlock(b)
  }

  ghost predicate TodoAfter(todo: multiset<Block>, last: BlockMeta) {
    forall b :: b in todo ==> WFBlock(b) && BlockLe(last, b.bm)
  }

  /** No block longer than `bound`. */
  ghost predicate Short(bs: seq<Block>, bound: int) {
    forall b :: b in bs ==> |b.rows| <= bound
  }

  ghost predicate TodoShort(todo: multiset<Block>, bound: int) {
    forall b :: b in todo ==> |b.rows| <= bound
  }

  // ---------- what each branch does to it ----------

  lemma TodoPointsTake(todo: multiset<Block>, b: Block)
    requires b in todo
    ensures TodoPoints(todo) == Elems(b.rows) + TodoPoints(todo - multiset{b})
  {
    var rest := todo - multiset{b};
    forall p | p in TodoPoints(todo) ensures p in Elems(b.rows) + TodoPoints(rest) {
      var x :| x in todo && p in x.rows;
      assert x == b || x in rest;
    }
    forall p | p in Elems(b.rows) + TodoPoints(rest) ensures p in TodoPoints(todo) {
      if p in Elems(b.rows) {
        assert b in todo && p in b.rows;
      } else {
        var x :| x in rest && p in x.rows;
        assert x in todo;
      }
    }
  }

  /** Reading `b`: the block leaves `todo`, everything left comes after it. */
  lemma ReadBlock(written: seq<Block>, pend: seq<Point>, todo: multiset<Block>, last: BlockMeta, b: Block)
    requires InSequence(written, pend, todo, last) && b in todo
    requires forall x :: x in todo ==> BlockLe(b.bm, x.bm)
    ensures WFBlock(b) && BlockLe(last, b.bm)
    ensures TodoAfter(todo - multiset{b}, b.bm)
    ensures written != [] ==> BlockLe(written[|written| - 1].bm, b.bm)
  {
    hide WFBlock;
    assert forall x :: x in todo - multiset{b} ==> x in todo;
  }

  /** The points still represented when `kept` and `out` replace the pending rows and `b`. */
  lemma SoundStep(written: seq<Block>, pend: seq<Point>, todo: multiset<Block>, input: set<Point>, b: Block,
                  out: seq<Block>, kept: seq<Point>)
    requires Sound(written, pend, todo, input) && b in todo
    requires Refines(BlockPoints(out) + Elems(kept), Elems(pend) + Elems(b.rows))
    ensures Sound(written + out, kept, todo - multiset{b}, input)
  {
    hide *;
    var rest := TodoPoints(todo - multiset{b});
    var w := BlockPoints(written);
    TodoPointsTake(todo, b);
    BlockPointsConcat(written, out);
    RefinesReflexive(w + rest);
    RefinesUnion(BlockPoints(out) + Elems(kept), Elems(pend) + Elems(b.rows), w + rest, w + rest);
    assert (BlockPoints(out) + Elems(kept)) + (w + rest) == BlockPoints(written + out) + Elems(kept) + rest;
    assert (Elems(pend) + Elems(b.rows)) + (w + rest) == w + Elems(pend) + TodoPoints(todo);
    SoundDef(written, pend, todo, input);
    SoundDef(written + out, kept, todo - multiset{b}, input);
    RefinesTransitive(BlockPoints(written + out) + Elems(kept) + rest, w + Elems(pend) + TodoPoints(todo), input);
  }

  lemma SoundDef(written: seq<Block>, pend: seq<Point>, todo: multiset<Block>, input: set<Point>)
    ensures Sound(written, pend, todo, input) ==
            Refines(BlockPoints(written) + Elems(pend) + TodoPoints(todo), input)
  {
  }

  lemma SequenceKeep(written: seq<Block>, pend: seq<Point>, todo: multiset<Block>, last: BlockMeta, b: Block, kept: seq<Point>)
    requires InSequence(written, pend, todo, last) && b in todo
    requires forall x :: x in todo ==> BlockLe(b.bm, x.bm)
    requires StrictTs(kept) && OfSeries(b.bm.sid, kept)
    requires written != [] && kept != [] && written[|written| - 1].bm.sid == b.bm.sid ==>
               written[|written| - 1].bm.min <= kept[0].ts
    ensures InSequence(written, kept, todo - multiset{b}, b.bm)
  {
    hide WFBlock, StrictTs, OfSeries, AllWF, TodoAfter;
    ReadBlock(written, pend, todo, last, b);
  }

  lemma SequenceWrite(written: seq<Block>, pend: seq<Point>, todo: multiset<Block>, last: BlockMeta, b: Block,
                      out: Block, kept: seq<Point>)
    requires InSequence(written, pend, todo, last) && b in todo
    requires forall x :: x in todo ==> BlockLe(b.bm, x.bm)
    requires WFBlock(out) && BlockLe(out.bm, b.bm)
    requires StrictTs(kept) && OfSeries(b.bm.sid, kept)
    requires kept != [] && out.bm.sid == b.bm.sid ==> out.bm.min <= kept[0].ts
    ensures InSequence(written + [out], kept, todo - multiset{b}, b.bm)
  {
    hide WFBlock, StrictTs, OfSeries, TodoAfter;
    ReadBlock(written, pend, todo, last, b);
  }

  /** The merged rows start where the earlier of the two inputs starts. */
  lemma MergedHead(tmp: seq<Point>, pend: seq<Point>, rows: seq<Point>)
    requires StrictTs(tmp) && StrictTs(pend) && StrictTs(rows) && pend != [] && rows != []
    requires Refines(Elems(tmp), Elems(pend) + Elems(rows))
    ensures tmp != []
    ensures tmp[0].ts <= rows[0].ts
    ensures pend[0].ts <= tmp[0].ts || rows[0].ts <= tmp[0].ts
  {
    assert CoveredBy(rows[0], Elems(tmp)) by { assert rows[0] in Elems(rows); }
    var t :| t in Elems(tmp) && Covers(t, rows[0]);
    var k :| 0 <= k < |tmp| && tmp[k] == t;
    assert tmp[0] in Elems(tmp);
    if tmp[0] in Elems(pend) {
      var i :| 0 <= i < |pend| && pend[i] == tmp[0];
    } else {
      var i :| 0 <= i < |rows| && rows[i] == tmp[0];
    }
  }

  /** The whole invariant; `bound` limits block lengths and grows with every block longer than the maximum. */
  ghost predicate LoopInv(written: seq<Block>, pend: seq<Point>, todo: multiset<Block>, last: BlockMeta,
                          input: set<Point>, bound: int, d: nat) {
    && Sound(written, pend, todo, input)
    && InSequence(written, pend, todo, last)
    && Short(written, bound) && |pend| <= bound && MAX_BLOCK_LENGTH <= bound
    && TodoShort(todo, MAX_BLOCK_LENGTH + d)
  }

  /** `b` is the block just read: outstanding and least. */
  ghost predicate Next(todo: multiset<Block>, b: Block) {
    b in todo && forall x :: x in todo ==> BlockLe(b.bm, x.bm)
  }

  lemma BoundsStep(written: seq<Block>, todo: multiset<Block>, b: Block, bound: int, d: nat, out: seq<Block>)
    requires Short(written, bound) && TodoShort(todo, MAX_BLOCK_LENGTH + d) && b in todo
    requires Short(out, bound + d)
    ensures Short(written + out, bound + d)
    ensures TodoShort(todo - multiset{b}, MAX_BLOCK_LENGTH + d)
    ensures |b.rows| <= MAX_BLOCK_LENGTH + d
  {
    assert forall x :: x in todo - multiset{b} ==> x in todo;
  }

  /** First block, or the block after a spill. */
  lemma Start(written: seq<Block>, todo: multiset<Block>, last: BlockMeta, input: set<Point>, bound: int, d: nat, b: Block)
    requires LoopInv(written, [], todo, last, input, bound, d) && Next(todo, b)
    ensures LoopInv(written, b.rows, todo - multiset{b}, b.bm, input, bound + d, d)
  {
    hide Sound, InSequence, Short, TodoShort, StrictTs, OfSeries, Refines, BlockPoints, SortedTs;
    ReadBlock(written, [], todo, last, b);
    assert written + [] == written;
    BlockPointsNil();
    RefinesEqual(BlockPoints([]) + Elems(b.rows), Elems([]) + Elems(b.rows));
    SoundStep(written, [], todo, input, b, [], b.rows);
    SequenceHead(written, [], todo, last, b);
    SequenceKeep(written, [], todo, last, b, b.rows);
    ShortNil(bound + d);
    BoundsStep(written, todo, b, bound, d, []);
  }

  lemma BlockPointsNil()
    ensures BlockPoints([]) == {}
  {
  }

  lemma ShortNil(bound: int)
    ensures Short([], bound)
  {
  }

  /** The rows of the block just read may follow what has been written. */
  lemma SequenceHead(written: seq<Block>, pend: seq<Point>, todo: multiset<Block>, last: BlockMeta, b: Block)
    requires InSequence(written, pend, todo, last) && b in todo
    ensures StrictTs(b.rows) && OfSeries(b.bm.sid, b.rows) && b.rows != [] && b.rows[0].ts == b.bm.min && 0 < b.bm.sid
    ensures written != [] && written[|written| - 1].bm.sid == b.bm.sid ==>
              written[|written| - 1].bm.min <= b.rows[0].ts
  {
    assert WFBlock(b) && BlockLe(last, b.bm);
  }

  lemma RefinesEqual(q: set<Point>, p: set<Point>)
    requires q == p
    ensures Refines(q, p)
  {
    RefinesReflexive(p);
  }

  /** The pending block is written, the block just read becomes pending. */
  lemma Replace(written: seq<Block>, pend: seq<Point>, todo: multiset<Block>, last: BlockMeta, input: set<Point>,
                bound: int, d: nat, b: Block, out: Block)
    requires LoopInv(written, pend, todo, last, input, bound, d) && Next(todo, b)
    requires WFBlock(out) && out.rows == pend && BlockLe(out.bm, b.bm)
    ensures LoopInv(written + [out], b.rows, todo - multiset{b}, b.bm, input, bound + d, d)
  {
    hide Sound, InSequence, Short, TodoShort, StrictTs, OfSeries, Refines, BlockPoints, WFBlock;
    BlockPointsOne(out);
    RefinesEqual(BlockPoints([out]) + Elems(b.rows), Elems(pend) + Elems(b.rows));
    SoundStep(written, pend, todo, input, b, [out], b.rows);
    SequenceHead(written, pend, todo, last, b);
    SequenceWrite(written, pend, todo, last, b, out, b.rows);
    ShortOne(out, bound + d);
    BoundsStep(written, todo, b, bound, d, [out]);
  }

  lemma ShortOne(b: Block, bound: int)
    requires |b.rows| <= bound
    ensures Short([b], bound)
  {
  }

  /** What the two-block merge delivers. */
  ghost predicate MergedRows(tmp: seq<Point>, pend: seq<Point>, b: Block) {
    && StrictTs(tmp) && OfSeries(b.bm.sid, tmp) && |tmp| <= |pend| + |b.rows|
    && Refines(Elems(tmp), Elems(pend) + Elems(b.rows))
  }

  /** The merged rows follow what has been written and start no later than the block just read. */
  lemma MergedFollows(written: seq<Block>, pend: seq<Point>, todo: multiset<Block>, last: BlockMeta, b: Block, tmp: seq<Point>)
    requires InSequence(written, pend, todo, last) && b in todo && pend != [] && b.bm.sid == last.sid
    requires MergedRows(tmp, pend, b)
    ensures tmp != [] && tmp[0].ts <= b.bm.min && 0 < b.bm.sid
    ensures written != [] && written[|written| - 1].bm.sid == b.bm.sid ==> written[|written| - 1].bm.min <= tmp[0].ts
  {
    hide Refines, AllWF, TodoAfter, OfSeries;
    SequenceHead(written, pend, todo, last, b);
    MergedHead(tmp, pend, b.rows);
  }

  /** The merged block becomes pending. */
  lemma Keep(written: seq<Block>, pend: seq<Point>, todo: multiset<Block>, last: BlockMeta, input: set<Point>,
             bound: int, d: nat, b: Block, tmp: seq<Point>)
    requires LoopInv(written, pend, todo, last, input, bound, d) && Next(todo, b) && pend != [] && b.bm.sid == last.sid
    requires MergedRows(tmp, pend, b) && |tmp| <= MAX_BLOCK_LENGTH
    ensures LoopInv(written, tmp, todo - multiset{b}, b.bm, input, bound + d, d)
  {
    hide Sound, InSequence, Short, TodoShort, StrictTs, OfSeries, Refines, BlockPoints, WFBlock;
    BlockPointsNil();
    assert written + [] == written && BlockPoints([]) + Elems(tmp) == Elems(tmp);
    SoundStep(written, pend, todo, input, b, [], tmp);
    MergedFollows(written, pend, todo, last, b, tmp);
    SequenceKeep(written, pend, todo, last, b, tmp);
    ShortNil(bound + d);
    BoundsStep(written, todo, b, bound, d, []);
  }

  /** The merged block is written at once; nothing stays pending. */
  lemma Spill(written: seq<Block>, pend: seq<Point>, todo: multiset<Block>, last: BlockMeta, input: set<Point>,
              bound: int, d: nat, b: Block, out: Block)
    requires LoopInv(written, pend, todo, last, input, bound, d) && Next(todo, b) && pend != [] && b.bm.sid == last.sid
    requires MergedRows(out.rows, pend, b) && |out.rows| <= MAX_BLOCK_LENGTH
    requires WFBlock(out) && out.bm.sid == b.bm.sid && out.bm.min == out.rows[0].ts
    ensures LoopInv(written + [out], [], todo - multiset{b}, b.bm, input, bound + d, d)
  {
    hide Sound, InSequence, Short, TodoShort, Refines, BlockPoints, WFBlock;
    BlockPointsOne(out);
    assert BlockPoints([out]) + Elems([]) == Elems(out.rows);
    SoundStep(written, pend, todo, input, b, [out], []);
    MergedFollows(written, pend, todo, last, b, out.rows);
    SequenceWrite(written, pend, todo, last, b, out, []);
    ShortOne(out, bound + d);
    BoundsStep(written, todo, b, bound, d, [out]);
  }

  /** The first MAX_BLOCK_LENGTH merged rows are written, the rest stays pending. */
  lemma Split(written: seq<Block>, pend: seq<Point>, todo: multiset<Block>, last: BlockMeta, input: set<Point>,
              bound: int, d: nat, b: Block, tmp: seq<Point>, out: Block)
    requires LoopInv(written, pend, todo, last, input, bound, d) && Next(todo, b) && pend != [] && b.bm.sid == last.sid
    requires MergedRows(tmp, pend, b) && MAX_BLOCK_LENGTH < |tmp|
    requires WFBlock(out) && out.rows == tmp[..MAX_BLOCK_LENGTH] && out.bm.sid == b.bm.sid && out.bm.min == tmp[0].ts
    ensures LoopInv(written + [out], tmp[MAX_BLOCK_LENGTH..], todo - multiset{b}, b.bm, input, bound + d, d)
  {
    hide Sound, InSequence, Short, TodoShort, Refines, BlockPoints, WFBlock;
    var kept := tmp[MAX_BLOCK_LENGTH..];
    BlockPointsOne(out);
    ElemsConcat(out.rows, kept);
    assert tmp == out.rows + kept;
    SoundStep(written, pend, todo, input, b, [out], kept);
    MergedFollows(written, pend, todo, last, b, tmp);
    assert tmp[0].ts < kept[0].ts;
    SequenceWrite(written, pend, todo, last, b, out, kept);
    ShortOne(out, bound + d);
    BoundsStep(written, todo, b, bound, d, [out]);
  }

  // ---------- how long blocks get ----------

  lemma {:induction false} StrictCount(s: seq<Point>)
    requires StrictTs(s)
    ensures |Elems(s)| == |s|
  {
    if s != [] {
      var init, x := s[..|s| - 1], s[|s| - 1];
      StrictCount(init);
      assert s == init + [x];
      ElemsConcat(init, [x]);
      assert Elems([x]) == {x} && x !in Elems(init);
    }
  }

  /** Rows without a shared timestamp are all kept. */
  lemma NothingDropped(tmp: seq<Point>, pend: seq<Point>, b: Block)
    requires MergedRows(tmp, pend, b) && StrictTs(pend) && StrictTs(b.rows)
    requires forall i, j :: 0 <= i < |pend| && 0 <= j < |b.rows| ==> pend[i].ts != b.rows[j].ts
    ensures Elems(tmp) == Elems(pend) + Elems(b.rows) && Elems(pend) !! Elems(b.rows)
  {
    var all := Elems(pend) + Elems(b.rows);
    forall p | p in all ensures p in Elems(tmp) {
      assert CoveredBy(p, Elems(tmp));
      var q :| q in Elems(tmp) && Covers(q, p);
      assert q in all;
      if q in Elems(pend) { OneRow(pend, p, q); } else { OneRow(b.rows, p, q); }
    }
  }

  lemma OneRow(s: seq<Point>, p: Point, q: Point)
    requires StrictTs(s) && q in Elems(s) && p.ts == q.ts
    ensures p in Elems(s) ==> p == q
  {
  }

  /** A split leaves pending what both blocks have beyond the maximum length of one. */
  lemma SplitRemainder(tmp: seq<Point>, pend: seq<Point>, b: Block)
    requires MergedRows(tmp, pend, b) && StrictTs(pend) && StrictTs(b.rows) && MAX_BLOCK_LENGTH < |tmp|
    requires forall i, j :: 0 <= i < |pend| && 0 <= j < |b.rows| ==> pend[i].ts != b.rows[j].ts
    ensures |tmp[MAX_BLOCK_LENGTH..]| == |pend| + |b.rows| - MAX_BLOCK_LENGTH
  {
    hide MergedRows, Elems;
    NothingDropped(tmp, pend, b);
    MergedStrict(tmp, pend, b);
    StrictCount(tmp);
    StrictCount(pend);
    StrictCount(b.rows);
  }

  lemma MergedStrict(tmp: seq<Point>, pend: seq<Point>, b: Block)
    requires MergedRows(tmp, pend, b)
    ensures StrictTs(tmp)
  {
  }

  function Every(n: nat, step: nat, from: nat): seq<Point> {
    seq(n, i requires 0 <= i < n => Point(1, from + step * i, 0, map[]))
  }

  /** Two blocks of one row over the maximum: two rows over it stay pending. */
  lemma LongerRemainder(size: nat) returns (tmp: seq<Point>, pend: seq<Point>, b: Block)
    ensures WFBlock(b) && |b.rows| == |pend| == MAX_BLOCK_LENGTH + 1 && StrictTs(pend) && OfSeries(b.bm.sid, pend)
    ensures MergedRows(tmp, pend, b) && MAX_BLOCK_LENGTH < |tmp| && |tmp[MAX_BLOCK_LENGTH..]| == MAX_BLOCK_LENGTH + 2
  {
    var n := MAX_BLOCK_LENGTH + 1;
    pend := Every(n, 2, 0);
    b := Block(BlockMeta(1, 1, 2 * n - 1, n, size), Every(n, 2, 1), NO_COLUMNS);
    tmp := Every(2 * n, 1, 0);
    Interleaved(n);
    RefinesEqual(Elems(tmp), Elems(pend) + Elems(b.rows));
  }

  lemma Interleaved(n: nat)
    ensures Elems(Every(2 * n, 1, 0)) == Elems(Every(n, 2, 0)) + Elems(Every(n, 2, 1))
  {
    var all, even, odd := Every(2 * n, 1, 0), Every(n, 2, 0), Every(n, 2, 1);
    forall p | p in Elems(all) ensures p in Elems(even) + Elems(odd) {
      var i :| 0 <= i < 2 * n && all[i] == p;
      assert if i % 2 == 0 then even[i / 2] == p else odd[i / 2] == p;
    }
    forall p | p in Elems(even) + Elems(odd) ensures p in Elems(all) {
      if p in Elems(even) {
        var i :| 0 <= i < n && even[i] == p;
        assert all[2 * i] == p;
      } else {
        var i :| 0 <= i < n && odd[i] == p;
        assert all[2 * i + 1] == p;
      }
    }
  }

  // ---------- the loop ----------

  /** `pending` holds the rows `pend` of series `sid`, with a range that may start too early. */
  ghost predicate Holds(pending: BlockPointer, pend: seq<Point>, sid: nat)
    reads pending
  {
    pending.rows == pend && pend != [] && pending.idx == 0 && pending.bm.sid == sid && pending.Bounded() && pending.Columned()
  }

  lemma CanWrite(w: Writer, pend: seq<Point>, todo: multiset<Block>, last: BlockMeta, rows: seq<Point>, sid: nat)
    requires w.Valid() && InSequence(w.written, pend, todo, last)
    requires rows != [] && StrictTs(rows) && OfSeries(sid, rows) && last.sid <= sid && 0 < sid
    requires w.written != [] && w.written[|w.written| - 1].bm.sid == sid ==>
               w.written[|w.written| - 1].bm.min <= rows[0].ts
    ensures w.InOrder(sid, rows) && SortedTs(rows)
    ensures forall s :: Named(rows, s) ==> WFBlock(Block(w.MetaOf(sid, rows), rows, s))
  {
    hide AllWF, TodoAfter, Ordered, AllExact, Flat, WFIndex, ExactRange, RowCount;
  }

  /** Loads the block just read; its metadata range is exact. */
  method Load(br: Reader)
    requires br.AtBlock() && WFBlock(br.cur) && br.block.bm == br.cur.bm && br.block.idx == 0
    modifies br.block`rows, br.block`schema
    ensures br.block.rows == br.cur.rows && Holds(br.block, br.cur.rows, br.cur.bm.sid)
    ensures br.block.schema == AsRead(br.cur.schema)
  {
    hide AsRead, HasColumn;
    br.LoadBlockData();
    BoundedByEnds(br.cur);
    NamedAsRead(br.cur.rows, br.cur.schema);
  }

  lemma BoundedByEnds(b: Block)
    requires WFBlock(b)
    ensures forall i :: 0 <= i < |b.rows| ==> b.bm.min <= b.rows[i].ts <= b.bm.max
  {
  }

  /** The block just read becomes pending. */
  method TakeAsPending(br: Reader, pending: BlockPointer)
    requires pending != br.block
    requires br.AtBlock() && WFBlock(br.cur) && br.block.bm == br.cur.bm && br.block.idx == 0
    requires WFSchema(AsRead(br.cur.schema))
    modifies br.block`rows, br.block`schema, pending
    ensures Holds(pending, br.cur.rows, br.cur.bm.sid) && pending.schema == AsRead(br.cur.schema)
    ensures pending.bm == br.cur.bm
  {
    hide Named, AsRead, WFSchema;
    Load(br);
    pending.CopyFrom(br.block);
  }

  /** Merges the pending block and the block just read into `tmp`. */
  method MergeIntoTmp(br: Reader, pending: BlockPointer, tmp: BlockPointer, ghost pend: seq<Point>)
    requires pending != br.block && tmp != br.block && tmp != pending
    requires br.AtBlock() && WFBlock(br.cur) && br.block.bm == br.cur.bm && br.block.idx == 0
    requires Holds(pending, pend, br.cur.bm.sid) && StrictTs(pend) && OfSeries(br.cur.bm.sid, pend)
    requires Mergeable(pending.schema, AsRead(br.cur.schema))
    modifies br.block, pending`idx, tmp
    ensures Sides(tmp.schema, pending.schema, AsRead(br.cur.schema)) && Named(tmp.rows, tmp.schema)
    ensures tmp.bm.count == 0 && tmp.bm.size == 0
    ensures MergedRows(tmp.rows, pend, br.cur)
    ensures tmp.rows != [] && tmp.idx == 0 && tmp.bm.sid == br.cur.bm.sid
    ensures tmp.bm.min == tmp.rows[0].ts && tmp.bm.max == tmp.rows[|tmp.rows| - 1].ts
  {
    hide Refines, SortedTs, Mergeable, Sides, AsRead, Named, WFSchema;
    tmp.Reset();
    tmp.bm := tmp.bm.(sid := br.block.bm.sid);
    Load(br);
    assert pending.Rest() == pend && br.block.Rest() == br.cur.rows;
    MergeTwoBlocks(tmp, pending, br.block, br.cur.bm.sid);
    MergedHead(tmp.rows, pend, br.cur.rows);
  }

  /** Moves the rows of `tmp` from MAX_BLOCK_LENGTH on to `pending` and those before to `tmp2`. */
  method SplitTmp(pending: BlockPointer, tmp: BlockPointer, tmp2: BlockPointer)
    requires pending != tmp && tmp2 != tmp && tmp2 != pending
    requires tmp.idx == 0 && MAX_BLOCK_LENGTH < |tmp.rows| && StrictTs(tmp.rows)
    requires tmp.bm.min == tmp.rows[0].ts && tmp.bm.max == tmp.rows[|tmp.rows| - 1].ts
    requires WFSchema(tmp.schema) && Named(tmp.rows, tmp.schema)
    modifies pending, tmp`idx, tmp2
    ensures tmp2.rows == tmp.rows[..MAX_BLOCK_LENGTH] && tmp2.schema == tmp.schema && pending.schema == tmp.schema
    ensures Holds(pending, tmp.rows[MAX_BLOCK_LENGTH..], tmp.bm.sid)
    ensures tmp.idx == 0 && Named(tmp2.rows, tmp2.schema) && pending.bm == tmp.bm
  {
    hide Mergeable, WFSchema, Join, HasColumn;
    tmp.idx := MAX_BLOCK_LENGTH;
    pending.CopyFrom(tmp);
    var l := tmp.idx;
    tmp.idx := 0;
    tmp2.Reset();
    MergesWithItself(tmp.schema);
    NothingFilled(tmp.schema, tmp.schema);
    JoinNothing(tmp.schema);
    tmp2.AppendAny(tmp, l, tmp.schema);
  }

  /** The block just read has the pending series and is not after a full pending block. */
  method MergeBranch(w: Writer, br: Reader, pending: BlockPointer, tmp: BlockPointer, tmp2: BlockPointer,
                     ghost pend: seq<Point>, ghost todo: multiset<Block>, ghost last: BlockMeta, ghost input: set<Point>,
                     ghost bound: int, ghost d: nat, ghost all: multiset<Block>)
    returns (swap: bool, empty: bool, ghost kept: seq<Point>)
    requires br.block != pending && br.block != tmp && br.block != tmp2 && pending != tmp && tmp2 != tmp && tmp2 != pending
    requires w.Valid()
    requires br.AtBlock() && br.block.bm == br.cur.bm && br.block.idx == 0
    requires LoopInv(w.written, pend, todo, last, input, bound, d) && Next(todo, br.cur)
    requires Holds(pending, pend, last.sid) && br.cur.bm.sid == last.sid
    requires MergeSchemas.Columned(w.written, Some(pending.schema), todo, last.sid, all)
    requires PackedBefore(w.written, last.sid, all, w.sizeOf, Some(8192))
    modifies w, br.block, pending, tmp, tmp2
    ensures empty ==> MergeSchemas.Columned(w.written, None, todo - multiset{br.cur}, br.cur.bm.sid, all)
    ensures !empty ==>
              var now := if swap then tmp else pending;
              && MergeSchemas.Columned(w.written, Some(now.schema), todo - multiset{br.cur}, br.cur.bm.sid, all)
              && Sized(now, all)
    ensures PackedBefore(w.written, br.cur.bm.sid, all, w.sizeOf, Some(8192))
    ensures w.Valid()
    ensures LoopInv(w.written, kept, todo - multiset{br.cur}, br.cur.bm, input, bound + d, d)
    ensures swap ==> empty == (kept == [])
    ensures empty ==> kept == []
    ensures !empty ==> Holds(if swap then tmp else pending, kept, br.cur.bm.sid)
  {
    hide *;
    var b := br.block;
    BranchFacts(w.written, pend, todo, last, input, bound, d, br.cur);
    HoldsRows(pending, pend, last.sid);
    MergeSchemas.Merge(w.written, pending.schema, todo, last.sid, all, br.cur);
    MergeIntoTmp(br, pending, tmp, pend);
    kept := tmp.rows;
    MergedWrite(w, pend, todo, last, input, bound, d, br.cur, tmp.rows);
    if |tmp.rows| <= MAX_BLOCK_LENGTH && w.sizeOf(tmp.rows) <= MAX_UNCOMPRESSED_BLOCK_SIZE {
      Keep(w.written, pend, todo, last, input, bound, d, br.cur, tmp.rows);
      MergedHolds(tmp, pend, br.cur);
      SizedByMerge(tmp, all);
      swap, empty := true, |tmp.rows| == 0;
    } else if |tmp.rows| <= MAX_BLOCK_LENGTH {
      ghost var out := Block(w.MetaOf(tmp.bm.sid, tmp.rows), tmp.rows, tmp.schema);
      Spill(w.written, pend, todo, last, input, bound, d, br.cur, out);
      MergeSchemas.WriteLast(w.written, tmp.schema, todo - multiset{br.cur}, last.sid, all, out);
      FullWrite(w.written, last.sid, out, all, w.sizeOf);
      w.MustWriteBlock(tmp.bm.sid, tmp.rows, tmp.schema);
      pending.Reset();
      swap, empty, kept := false, true, [];
    } else {
      ghost var out := Block(w.MetaOf(tmp.bm.sid, tmp.rows[..MAX_BLOCK_LENGTH]), tmp.rows[..MAX_BLOCK_LENGTH], tmp.schema);
      Split(w.written, pend, todo, last, input, bound, d, br.cur, tmp.rows, out);
      MergeSchemas.Write(w.written, tmp.schema, todo - multiset{br.cur}, last.sid, all, out);
      FullWrite(w.written, last.sid, out, all, w.sizeOf);
      SplitTmp(pending, tmp, tmp2);
      SizedByMerge(pending, all);
      w.MustWriteBlock(tmp.bm.sid, tmp2.rows, tmp2.schema);
      swap, empty, kept := false, false, tmp.rows[MAX_BLOCK_LENGTH..];
    }
  }

  /** There is no pending block; the block just read becomes it. */
  method StartPending(w: Writer, br: Reader, pending: BlockPointer, ghost todo: multiset<Block>, ghost last: BlockMeta,
                      ghost input: set<Point>, ghost bound: int, ghost d: nat, ghost all: multiset<Block>)
    requires pending != br.block && w.Valid() && last.sid <= br.cur.bm.sid
    requires w.written != [] ==> w.written[|w.written| - 1].bm.sid <= last.sid
    requires br.AtBlock() && WFBlock(br.cur) && br.block.bm == br.cur.bm && br.block.idx == 0 && br.cur in todo
    requires LoopInv(w.written, [], todo, last, input, bound, d) && Next(todo, br.cur)
    requires MergeSchemas.Columned(w.written, None, todo, last.sid, all)
    requires PackedBefore(w.written, last.sid, all, w.sizeOf, Some(8192))
    modifies br.block`rows, br.block`schema, pending
    ensures LoopInv(w.written, br.cur.rows, todo - multiset{br.cur}, br.cur.bm, input, bound + d, d)
    ensures Holds(pending, br.cur.rows, br.cur.bm.sid)
    ensures MergeSchemas.Columned(w.written, Some(pending.schema), todo - multiset{br.cur}, br.cur.bm.sid, all)
    ensures PackedBefore(w.written, br.cur.bm.sid, all, w.sizeOf, Some(8192)) && Sized(pending, all)
  {
    hide *;
    Start(w.written, todo, last, input, bound, d, br.cur);
    MergeSchemas.Fetch(w.written, None, todo, last.sid, all, br.cur);
    NextSeries(w.written, last.sid, br.cur.bm.sid, all, w.sizeOf, Some(8192));
    TakeAsPending(br, pending);
    SizedByInput(pending, br.cur, all);
  }

  /** The pending block is written and the block just read takes its place. */
  method ReplacePending(w: Writer, br: Reader, pending: BlockPointer, ghost pend: seq<Point>, ghost todo: multiset<Block>,
                        ghost last: BlockMeta, ghost input: set<Point>, ghost bound: int, ghost d: nat, ghost all: multiset<Block>)
    requires pending != br.block && w.Valid() && 0 < last.sid
    requires br.AtBlock() && WFBlock(br.cur) && br.block.bm == br.cur.bm && br.block.idx == 0 && br.cur in todo
    requires LoopInv(w.written, pend, todo, last, input, bound, d) && Next(todo, br.cur)
    requires Holds(pending, pend, last.sid) && MustReplace(pending, br.cur.bm)
    requires MergeSchemas.Columned(w.written, Some(pending.schema), todo, last.sid, all)
    requires PackedBefore(w.written, last.sid, all, w.sizeOf, Some(8192)) && Sized(pending, all)
    modifies w, br.block`rows, br.block`schema, pending
    ensures w.Valid() && LoopInv(w.written, br.cur.rows, todo - multiset{br.cur}, br.cur.bm, input, bound + d, d)
    ensures Holds(pending, br.cur.rows, br.cur.bm.sid)
    ensures MergeSchemas.Columned(w.written, Some(pending.schema), todo - multiset{br.cur}, br.cur.bm.sid, all)
    ensures PackedBefore(w.written, br.cur.bm.sid, all, w.sizeOf, Some(8192)) && Sized(pending, all)
  {
    hide *;
    PendingWrite(w, pending, pend, todo, last, input, bound, d, br.cur);
    ghost var out := Block(w.MetaOf(last.sid, pend), pend, pending.schema);
    Replace(w.written, pend, todo, last, input, bound, d, br.cur, out);
    MergeSchemas.Write(w.written, pending.schema, todo, last.sid, all, out);
    MergeSchemas.Fetch(w.written + [out], Some(pending.schema), todo, last.sid, all, br.cur);
    ReplaceFull(pending, br.cur.bm, w.written, out, all, w.sizeOf);
    w.MustWriteBlock(pending.bm.sid, pending.rows, pending.schema);
    TakeAsPending(br, pending);
    SizedByInput(pending, br.cur, all);
  }

  lemma BranchFacts(written: seq<Block>, pend: seq<Point>, todo: multiset<Block>, last: BlockMeta, input: set<Point>,
                    bound: int, d: nat, b: Block)
    requires LoopInv(written, pend, todo, last, input, bound, d) && Next(todo, b)
    ensures WFBlock(b) && b in todo && StrictTs(pend) && OfSeries(last.sid, pend)
  {
    hide Sound, Short, TodoShort, WFBlock, StrictTs, OfSeries;
    ReadBlock(written, pend, todo, last, b);
  }

  lemma HoldsRows(pending: BlockPointer, pend: seq<Point>, sid: nat)
    requires Holds(pending, pend, sid)
    ensures pend != [] && pending.rows == pend && pending.bm.sid == sid && pend[0].ts <= pending.bm.max
    ensures Named(pend, pending.schema)
  {
    assert pending.Rest()[0] == pend[0];
  }

  lemma MergedHolds(tmp: BlockPointer, pend: seq<Point>, b: Block)
    requires MergedRows(tmp.rows, pend, b) && Named(tmp.rows, tmp.schema)
    requires tmp.rows != [] && tmp.idx == 0 && tmp.bm.sid == b.bm.sid
    requires tmp.bm.min == tmp.rows[0].ts && tmp.bm.max == tmp.rows[|tmp.rows| - 1].ts
    ensures Holds(tmp, tmp.rows, b.bm.sid)
  {
    hide Refines, Named;
  }

  /** Merged rows, whole or cut, may be written next. */
  lemma MergedWrite(w: Writer, pend: seq<Point>, todo: multiset<Block>, last: BlockMeta, input: set<Point>,
                    bound: int, d: nat, b: Block, tmp: seq<Point>)
    requires w.Valid() && LoopInv(w.written, pend, todo, last, input, bound, d) && Next(todo, b)
    requires pend != [] && b.bm.sid == last.sid && MergedRows(tmp, pend, b)
    ensures tmp != [] && w.InOrder(b.bm.sid, tmp) && SortedTs(tmp) && OfSeries(b.bm.sid, tmp)
    ensures forall s :: Named(tmp, s) ==> WFBlock(Block(w.MetaOf(b.bm.sid, tmp), tmp, s))
    ensures w.MetaOf(b.bm.sid, tmp).sid == b.bm.sid
    ensures w.MetaOf(b.bm.sid, tmp).min == tmp[0].ts
    ensures MAX_BLOCK_LENGTH < |tmp| ==>
              var cut := tmp[..MAX_BLOCK_LENGTH];
              && cut != [] && w.InOrder(b.bm.sid, cut) && SortedTs(cut) && OfSeries(b.bm.sid, cut) && StrictTs(tmp)
              && (forall s :: Named(tmp, s) ==> Named(cut, s) && WFBlock(Block(w.MetaOf(b.bm.sid, cut), cut, s)))
              && w.MetaOf(b.bm.sid, cut).sid == b.bm.sid && |cut| == 8192
              && w.MetaOf(b.bm.sid, cut).min == tmp[0].ts
  {
    hide Sound, InSequence, Short, TodoShort, Refines, WFBlock, SortedTs, HasColumn;
    MergedFollows(w.written, pend, todo, last, b, tmp);
    CanWrite(w, pend, todo, last, tmp, b.bm.sid);
    if MAX_BLOCK_LENGTH < |tmp| {
      var cut := tmp[..MAX_BLOCK_LENGTH];
      CanWrite(w, pend, todo, last, cut, b.bm.sid);
      forall s | Named(tmp, s) ensures Named(cut, s) {
        NamedPart(tmp, MAX_BLOCK_LENGTH, s);
      }
    }
  }

  lemma NamedPart(rows: seq<Point>, n: nat, s: Schema)
    requires Named(rows, s) && n <= |rows|
    ensures Named(rows[..n], s)
  {
    hide HasColumn;
    assert forall i :: 0 <= i < n ==> rows[..n][i] == rows[i];
  }

  /** A pending block of another series, or a full one that ends no later than the next block starts. */
  predicate MustReplace(pending: BlockPointer, bm: BlockMeta)
    reads pending
  {
    pending.bm.sid != bm.sid || (pending.IsFull() && pending.bm.max <= bm.min)
  }

  /** What the metadata says of the pending block holds for its rows, or a merge has reset it. */
  ghost predicate Sized(pending: BlockPointer, all: multiset<Block>)
    reads pending
  {
    Origin(pending.rows, pending.bm.size, all) && (pending.bm.count == 0 || pending.bm.count == |pending.rows|)
  }

  lemma SizedByMerge(pending: BlockPointer, all: multiset<Block>)
    requires pending.bm.count == 0 && pending.bm.size == 0
    ensures Sized(pending, all)
  {
    FromMerge(pending.rows, all);
  }

  lemma SizedByInput(pending: BlockPointer, b: Block, all: multiset<Block>)
    requires WFBlock(b) && b in all && Holds(pending, b.rows, b.bm.sid) && pending.bm == b.bm
    ensures Sized(pending, all)
  {
    hide Named, Origin;
    FromInput(b, all);
  }

  /** A full pending block is full for good, once its metadata is read from a block or reset by a merge. */
  lemma ReplaceFull(pending: BlockPointer, bm: BlockMeta, written: seq<Block>, out: Block, all: multiset<Block>,
                    sizeOf: seq<Point> -> nat)
    requires MustReplace(pending, bm) && Sized(pending, all)
    requires out.rows == pending.rows && out.bm.sid == pending.bm.sid
    requires PackedBefore(written, pending.bm.sid, all, sizeOf, Some(8192))
    ensures PackedBefore(written + [out], bm.sid, all, sizeOf, Some(8192))
  {
    hide PackedBefore;
    WriteOut(written, pending.bm.sid, bm.sid, out, all, sizeOf, Some(8192));
  }

  /** A full block is written while its series goes on. */
  lemma FullWrite(written: seq<Block>, sid: nat, out: Block, all: multiset<Block>, sizeOf: seq<Point> -> nat)
    requires PackedBefore(written, sid, all, sizeOf, Some(8192)) && out.bm.sid == sid
    requires 8192 <= |out.rows| || MAX_UNCOMPRESSED_BLOCK_SIZE < sizeOf(out.rows)
    ensures PackedBefore(written + [out], sid, all, sizeOf, Some(8192))
  {
    hide PackedBefore;
    WriteOut(written, sid, sid, out, all, sizeOf, Some(8192));
  }

  /** The pending block may be written, and comes before the block just read. */
  lemma PendingWrite(w: Writer, pending: BlockPointer, pend: seq<Point>, todo: multiset<Block>, last: BlockMeta,
                     input: set<Point>, bound: int, d: nat, b: Block)
    requires w.Valid() && LoopInv(w.written, pend, todo, last, input, bound, d) && 0 < last.sid
    requires Holds(pending, pend, last.sid)
    ensures pend != [] && pending.rows == pend && pending.bm.sid == last.sid
    ensures w.InOrder(last.sid, pend) && SortedTs(pend) && OfSeries(last.sid, pend)
    ensures w.MetaOf(last.sid, pend).sid == last.sid
    ensures Named(pend, pending.schema)
    ensures forall s :: Named(pend, s) ==> WFBlock(Block(w.MetaOf(last.sid, pend), pend, s))
    ensures Next(todo, b) && MustReplace(pending, b.bm) ==> BlockLe(w.MetaOf(last.sid, pend), b.bm)
  {
    hide Sound, Short, TodoShort, AllWF, StrictTs, SortedTs, OfSeries, WFBlock, Refines, Named;
    HoldsRows(pending, pend, last.sid);
    CanWrite(w, pend, todo, last, pend, last.sid);
    if Next(todo, b) && MustReplace(pending, b.bm) {
      ReadBlock(w.written, pend, todo, last, b);
    }
  }

  lemma EmptyInv(todo: multiset<Block>, d: nat)
    requires forall b :: b in todo ==> WFBlock(b)
    requires TodoShort(todo, MAX_BLOCK_LENGTH + d)
    ensures LoopInv([], [], todo, BlockMeta(0, 0, 0, 0, 0), TodoPoints(todo), MAX_BLOCK_LENGTH, d)
  {
    hide TodoPoints, Refines, TodoShort;
    BlockPointsNil();
    RefinesEqual(BlockPoints([]) + Elems([]) + TodoPoints(todo), TodoPoints(todo));
    assert TodoAfter(todo, BlockMeta(0, 0, 0, 0, 0)) by {
      hide ExactBlock, StrictTs;
    }
  }

  /** At the end: what was written, plus the last pending block, stands for the whole input. */
  lemma Finish(written: seq<Block>, pend: seq<Point>, last: BlockMeta, input: set<Point>, bound: int, d: nat, out: seq<Block>)
    requires LoopInv(written, pend, multiset{}, last, input, bound, d)
    requires out == [] ==> pend == []
    requires out != [] ==> |out| == 1 && out[0].rows == pend && WFBlock(out[0])
    ensures AllWF(written + out) && Short(written + out, bound)
    ensures Refines(BlockPoints(written + out), input)
  {
    hide Refines, WFBlock, BlockPoints, StrictTs, OfSeries, TodoAfter, TodoShort;
    BlockPointsConcat(written, out);
    BlockPointsNil();
    if out != [] {
      BlockPointsOne(out[0]);
      assert out == [out[0]];
    }
    assert BlockPoints(written + out) == BlockPoints(written) + Elems(pend) + TodoPoints(multiset{});
  }

  lemma NextFacts(written: seq<Block>, pend: seq<Point>, todo: multiset<Block>, last: BlockMeta, input: set<Point>,
                  bound: int, d: nat, b: Block)
    requires LoopInv(written, pend, todo, last, input, bound, d) && b in todo
    requires forall x :: x in todo ==> BlockLe(b.bm, x.bm)
    ensures Next(todo, b) && WFBlock(b) && 0 < b.bm.sid && last.sid <= b.bm.sid
    ensures written != [] ==> written[|written| - 1].bm.sid <= last.sid
  {
    hide Sound, Short, TodoShort, StrictTs, OfSeries, ExactBlock;
    ReadBlock(written, pend, todo, last, b);
  }

  lemma SameSeries(pending: BlockPointer, pend: seq<Point>, sid: nat, bm: BlockMeta)
    requires Holds(pending, pend, sid) && !MustReplace(pending, bm)
    ensures bm.sid == sid
  {
  }

  lemma PartDone(part: Part, bs: seq<Block>)
    requires IndexedPart(part) && Flat(part.primaries) == bs && AllWF(bs)
    ensures WFPart(part) && PartPoints(part) == BlockPoints(bs)
  {
    hide IndexedPart, WFBlock;
  }

  lemma Countdown(d: nat, t: nat, bound: int, total: int)
    requires bound + d * (t + 1) == total
    ensures (bound + d) + d * t == total
  {
  }

  /**
    Merges everything the reader delivers.  The output part is well-formed (its blocks are in the
    order the writer demands, under an exact index) and stands for the input points.  With input
    blocks of at most MAX_BLOCK_LENGTH + d rows, no written block is longer than
    MAX_BLOCK_LENGTH + d * n, n the number of input blocks: for d == 0, never over the maximum.
   */
  method MergeBlocks(w: Writer, br: Reader, closeAt: Option<nat>, ghost d: nat) returns (r: Outcome)
    requires w.Valid() && w.written == [] && br.Valid()
    requires forall b :: b in br.todo ==> WFBlock(b)
    requires TodoShort(br.todo, MAX_BLOCK_LENGTH + d)
    requires MergeSchemas.SchemasAgree(br.todo)
    modifies w, br, br.block
    ensures r.Merged? || (r.Closed? && closeAt.Some?)
    ensures r.Merged? ==> WFPart(r.part)
    ensures r.Merged? ==> Refines(PartPoints(r.part), old(TodoPoints(br.todo)))
    ensures r.Merged? ==> Short(Flat(r.part.primaries), MAX_BLOCK_LENGTH + d * old(|br.todo|))
    ensures r.Merged? ==> MergeSchemas.MixedFrom(Flat(r.part.primaries), old(br.todo))
    ensures r.Merged? ==> Packed(Flat(r.part.primaries), old(br.todo), w.sizeOf, Some(8192))
  {
    hide *;
    ghost var all, input, total := br.todo, TodoPoints(br.todo), MAX_BLOCK_LENGTH + d * |br.todo|;
    EmptyInv(br.todo, d);
    MergeSchemas.Begin(all);
    NothingPacked(all, w.sizeOf);
    var pendingEmpty := true;
    var pending := new BlockPointer();
    var tmp := new BlockPointer();
    var tmp2 := new BlockPointer();
    ghost var pend: seq<Point>, last, bound := [], BlockMeta(0, 0, 0, 0, 0), MAX_BLOCK_LENGTH;
    var round := 0;
    while true
      invariant w.Valid() && br.Valid()
      invariant fresh(pending) && fresh(tmp) && fresh(tmp2)
      invariant pending != tmp && tmp2 != tmp && tmp2 != pending
      invariant pending != br.block && tmp != br.block && tmp2 != br.block
      invariant LoopInv(w.written, pend, br.todo, last, input, bound, d)
      invariant pendingEmpty ==> pend == []
      invariant !pendingEmpty ==> Holds(pending, pend, last.sid) && 0 < last.sid
      invariant bound + d * |br.todo| == total
      invariant MergeSchemas.Columned(w.written, if pendingEmpty then None else Some(pending.schema), br.todo, last.sid, all)
      invariant PackedBefore(w.written, last.sid, all, w.sizeOf, Some(8192))
      invariant !pendingEmpty ==> Sized(pending, all)
      decreases |br.todo|
    {
      ghost var todo := br.todo;
      var more := br.NextBlockMetadata();
      if !more {
        break;
      }
      if closeAt == Some(round) {
        return Closed;
      }
      round := round + 1;
      Countdown(d, |br.todo|, bound, total);
      NextFacts(w.written, pend, todo, last, input, bound, d, br.cur);
      if pendingEmpty {
        StartPending(w, br, pending, todo, last, input, bound, d, all);
        pendingEmpty, pend := false, br.cur.rows;
      } else if MustReplace(pending, br.block.bm) {
        ReplacePending(w, br, pending, pend, todo, last, input, bound, d, all);
        pend := br.cur.rows;
      } else {
        SameSeries(pending, pend, last.sid, br.cur.bm);
        var swap, empty;
        swap, empty, pend := MergeBranch(w, br, pending, tmp, tmp2, pend, todo, last, input, bound, d, all);
        if swap {
          pending, tmp := tmp, pending;
        }
        pendingEmpty := empty;
      }
      last, bound := br.cur.bm, bound + d;
    }
    var part := WriteRest(w, pending, pendingEmpty, pend, br.todo, last, input, bound, d, all);
    r := Merged(part);
  }

  lemma NothingPacked(all: multiset<Block>, sizeOf: seq<Point> -> nat)
    ensures PackedBefore([], 0, all, sizeOf, Some(8192))
  {
  }

  /** Writes the last pending block and ends the part. */
  method WriteRest(w: Writer, pending: BlockPointer, pendingEmpty: bool, ghost pend: seq<Point>, ghost todo: multiset<Block>,
                   ghost last: BlockMeta, ghost input: set<Point>, ghost bound: int, ghost d: nat, ghost all: multiset<Block>)
    returns (part: Part)
    requires w.Valid() && todo == multiset{} && LoopInv(w.written, pend, todo, last, input, bound, d)
    requires pendingEmpty ==> pend == []
    requires !pendingEmpty ==> Holds(pending, pend, last.sid) && 0 < last.sid
    requires MergeSchemas.Columned(w.written, if pendingEmpty then None else Some(pending.schema), todo, last.sid, all)
    requires PackedBefore(w.written, last.sid, all, w.sizeOf, Some(8192))
    modifies w
    ensures WFPart(part) && Refines(PartPoints(part), input) && Short(Flat(part.primaries), bound)
    ensures MergeSchemas.MixedFrom(Flat(part.primaries), all)
    ensures Packed(Flat(part.primaries), all, w.sizeOf, Some(8192))
  {
    hide *;
    ghost var out: seq<Block> := [];
    ghost var before := w.written;
    if !pendingEmpty {
      PendingWrite(w, pending, pend, todo, last, input, bound, d, Block(last, pend, pending.schema));
      out := [Block(w.MetaOf(last.sid, pend), pend, pending.schema)];
      MergeSchemas.Write(w.written, pending.schema, todo, last.sid, all, out[0]);
      w.MustWriteBlock(pending.bm.sid, pending.rows, pending.schema);
    }
    MergeSchemas.Written(w.written, if pendingEmpty then None else Some(pending.schema), todo, last.sid, all);
    AllPacked(before, last.sid, out, all, w.sizeOf, Some(8192));
    Finish(before, pend, last, input, bound, d, out);
    part := w.Flush();
    PartDone(part, before + out);
  }

  ghost predicate AllWFParts(parts: seq<Part>) {
    forall i :: 0 <= i < |parts| ==> WFPart(parts[i])
  }

  lemma TodoPointsSum(a: multiset<Block>, b: multiset<Block>)
    ensures TodoPoints(a + b) == TodoPoints(a) + TodoPoints(b)
  {
    forall p | p in TodoPoints(a + b) ensures p in TodoPoints(a) + TodoPoints(b) {
      var x :| x in a + b && p in x.rows;
      assert x in a || x in b;
    }
    forall p | p in TodoPoints(a) + TodoPoints(b) ensures p in TodoPoints(a + b) {
      if p in TodoPoints(a) {
        var x :| x in a && p in x.rows;
        assert x in a + b;
      } else {
        var x :| x in b && p in x.rows;
        assert x in a + b;
      }
    }
  }

  lemma TodoPointsSeq(bs: seq<Block>)
    ensures TodoPoints(multiset(bs)) == BlockPoints(bs)
  {
    forall p | p in TodoPoints(multiset(bs)) ensures p in BlockPoints(bs) {
      var x :| x in multiset(bs) && p in x.rows;
      assert x in bs;
    }
    forall p | p in BlockPoints(bs) ensures p in TodoPoints(multiset(bs)) {
      var x :| x in bs && p in x.rows;
      assert x in multiset(bs);
    }
  }

  lemma {:induction false} PartsBlocksPoints(parts: seq<Part>)
    ensures TodoPoints(PartsBlocks(parts)) == PartsPoints(parts)
  {
    hide TodoPoints, BlockPoints, Flat;
    if parts == [] {
      TodoPointsSeq([]);
      BlockPointsNil();
      assert multiset([]) == PartsBlocks(parts);
    } else {
      TodoPointsSum(multiset(Flat(parts[0].primaries)), PartsBlocks(parts[1..]));
      TodoPointsSeq(Flat(parts[0].primaries));
      PartsBlocksPoints(parts[1..]);
    }
  }

  lemma {:induction false} PartsBlocksWF(parts: seq<Part>)
    requires AllWFParts(parts)
    ensures forall b :: b in PartsBlocks(parts) ==> WFBlock(b)
    ensures AllIndexed(parts)
  {
    hide IndexedPart, WFBlock, Flat;
    if parts != [] {
      PartsBlocksWF(parts[1..]);
      assert WFPart(parts[0]);
      assert forall b :: b in multiset(Flat(parts[0].primaries)) ==> b in Flat(parts[0].primaries);
    }
  }

  /**
    Merges parts into one.  The result stands for the union of the inputs: for every series and
    timestamp it holds a row of the greatest version that any input holds.
   */
  method MergeParts(parts: seq<Part>, sizeOf: seq<Point> -> nat, metaLen: BlockMeta -> nat, closeAt: Option<nat>, ghost d: nat)
    returns (r: Outcome)
    requires AllWFParts(parts)
    requires TodoShort(PartsBlocks(parts), MAX_BLOCK_LENGTH + d)
    requires MergeSchemas.SchemasAgree(PartsBlocks(parts))
    ensures r.NoPartToMerge? <==> parts == []
    ensures r.Closed? ==> closeAt.Some?
    ensures r.Merged? ==> WFPart(r.part)
    ensures r.Merged? ==> Refines(PartPoints(r.part), PartsPoints(parts))
    ensures r.Merged? ==> Short(Flat(r.part.primaries), MAX_BLOCK_LENGTH + d * |PartsBlocks(parts)|)
    ensures r.Merged? ==> MergeSchemas.MixedFrom(Flat(r.part.primaries), PartsBlocks(parts))
    ensures r.Merged? ==> Packed(Flat(r.part.primaries), PartsBlocks(parts), sizeOf, Some(8192))
  {
    hide *;
    if |parts| == 0 {
      return NoPartToMerge;
    }
    PartsBlocksWF(parts);
    PartsBlocksPoints(parts);
    var br := new Reader(parts);
    var w := new Writer(sizeOf, metaLen);
    r := MergeBlocks(w, br, closeAt, d);
  }
}
