/**
  The k-way block reader of the merger: a heap of part iterators ordered by series and least
  timestamp.  container/heap is represented by its contract: after Init, Fix or Pop some
  iterator whose block is least is at the front, and which one is left open.
 */
module BlockReader {
  import Collections
  import opened Points
  import opened Schemas
  import opened Parts
  import opened FamilyOrder
  import opened BlockMerge

  /** A part iterator standing on block `cur`; `buf` is the unread rest of the loaded primary block. */
  datatype MergeIter = MergeIter(primaries: seq<Primary>, primaryIdx: nat, buf: seq<Block>, cur: Block)

  /** The blocks after the current one. */
  ghost function Rest(it: MergeIter): seq<Block> {
    it.buf + if it.primaryIdx <= |it.primaries| then Flat(it.primaries[it.primaryIdx..]) else []
  }

  /** The current block and those after it. */
  ghost function From(it: MergeIter): seq<Block> {
    [it.cur] + Rest(it)
  }

  ghost predicate ValidIter(it: MergeIter) {
    it.primaryIdx <= |it.primaries| && WFIndex(it.primaries) && Ordered(From(it))
  }

  /** Opens the next primary block when the buffer is used up, then reads one block entry. */
  function Advance(primaries: seq<Primary>, primaryIdx: nat, buf: seq<Block>): (r: Option<MergeIter>)
    requires primaryIdx <= |primaries| && WFIndex(primaries)
    ensures r.None? <==> buf + Flat(primaries[primaryIdx..]) == []
    ensures r.Some? ==> r.value.primaries == primaries && r.value.primaryIdx <= |primaries|
    ensures r.Some? ==> From(r.value) == buf + Flat(primaries[primaryIdx..])
  {
    if buf != [] then
      assert buf == [buf[0]] + buf[1..];
      Some(MergeIter(primaries, primaryIdx, buf[1..], buf[0]))
    else if primaryIdx >= |primaries| then
      None
    else
      var bs := primaries[primaryIdx].blocks;
      assert primaries[primaryIdx..][0] == primaries[primaryIdx];
      assert primaries[primaryIdx..][1..] == primaries[primaryIdx + 1..];
      assert bs == [bs[0]] + bs[1..];
      Some(MergeIter(primaries, primaryIdx + 1, bs[1..], bs[0]))
  }

  /** The blocks of all iterators, current ones included. */
  ghost function Outstanding(its: seq<MergeIter>): multiset<Block> {
    if its == [] then multiset{} else multiset(From(its[0])) + Outstanding(its[1..])
  }

  ghost predicate AllValid(its: seq<MergeIter>) {
    forall i :: 0 <= i < |its| ==> ValidIter(its[i])
  }

  lemma {:induction false} OutstandingHead(a: seq<MergeIter>)
    requires a != []
    ensures Outstanding(a) == multiset(From(a[0])) + Outstanding(a[1..])
  {
  }

  lemma {:induction false} OutstandingConcat(a: seq<MergeIter>, b: seq<MergeIter>)
    ensures Outstanding(a + b) == Outstanding(a) + Outstanding(b)
  {
    hide From, Outstanding;
    if a == [] {
      assert a + b == b;
      OutstandingNil();
    } else {
      OutstandingHead(a);
      OutstandingHead(a + b);
      OutstandingConcat(a[1..], b);
      assert (a + b)[1..] == a[1..] + b;
      Collections.Associative(multiset(From(a[0])), Outstanding(a[1..]), Outstanding(b));
    }
  }

  lemma {:induction false} OutstandingCons(it: MergeIter, b: seq<MergeIter>)
    ensures Outstanding([it] + b) == multiset(From(it)) + Outstanding(b)
  {
    hide From;
    assert ([it] + b)[1..] == b;
  }

  /** The heap property at the root. */
  ghost predicate FrontLeast(its: seq<MergeIter>) {
    forall i :: 0 <= i < |its| ==> BlockLe(its[0].cur.bm, its[i].cur.bm)
  }

  /** heap.Init, heap.Fix and heap.Pop leave a least iterator at the front. */
  method Restore(its: seq<MergeIter>) returns (r: seq<MergeIter>)
    requires its != [] && AllValid(its)
    ensures r != [] && AllValid(r) && FrontLeast(r)
    ensures Outstanding(r) == Outstanding(its)
  {
    hide ValidIter, Outstanding;
    BlocksOrdered();
    var keys := seq(|its|, i requires 0 <= i < |its| => its[i].cur.bm);
    var k := Collections.Least(keys, BlockLt);
    forall i | 0 <= i < |its| ensures BlockLe(its[k].cur.bm, its[i].cur.bm) {
      assert !BlockLt(keys[i], keys[k]);
    }
    MoveToFront(its, k);
    r := Collections.ToFront(its, k);
  }

  lemma {:induction false} MoveToFront(its: seq<MergeIter>, k: nat)
    requires k < |its|
    ensures Outstanding(Collections.ToFront(its, k)) == Outstanding(its)
  {
    hide Outstanding, Collections.ToFront;
    Collections.ToFrontIs(its, k);
    var a, b := its[..k], its[k + 1..];
    OutstandingConcat(a, b);
    OutstandingCons(its[k], a + b);
    OutstandingCons(its[k], b);
    OutstandingConcat(a, [its[k]] + b);
    assert its == a + ([its[k]] + b);
  }

  /** A least front block precedes every outstanding block. */
  lemma {:induction false} LeastOfOutstanding(its: seq<MergeIter>, bm: BlockMeta, b: Block)
    requires AllValid(its) && b in Outstanding(its)
    requires forall i :: 0 <= i < |its| ==> BlockLe(bm, its[i].cur.bm)
    ensures BlockLe(bm, b.bm)
  {
    var s := From(its[0]);
    if b in multiset(s) {
      assert b in s;
      var j :| 0 <= j < |s| && s[j] == b;
      if j > 0 {
        assert BlockLe(s[0].bm, s[j].bm);
      }
      assert BlockLe(bm, its[0].cur.bm);
    } else {
      LeastOfOutstanding(its[1..], bm, b);
    }
  }

  lemma AdvanceValid(it: MergeIter, next: MergeIter)
    requires ValidIter(it) && next.primaries == it.primaries && next.primaryIdx <= |next.primaries|
    requires From(next) == Rest(it)
    ensures ValidIter(next)
  {
    assert forall i :: 0 <= i < |Rest(it)| ==> Rest(it)[i] == From(it)[i + 1];
  }

  /** The blocks of some parts, with repetitions. */
  ghost function PartsBlocks(parts: seq<Part>): multiset<Block> {
    if parts == [] then multiset{} else multiset(Flat(parts[0].primaries)) + PartsBlocks(parts[1..])
  }

  /** Opens one iterator per part; parts without blocks drop out. */
  method OpenIters(parts: seq<Part>) returns (its: seq<MergeIter>)
    requires AllIndexed(parts)
    ensures AllValid(its) && Outstanding(its) == PartsBlocks(parts)
    ensures its != [] ==> FrontLeast(its)
  {
    hide *;
    its := [];
    var i := 0;
    assert parts[0..] == parts;
    OutstandingNil();
    while i < |parts|
      invariant 0 <= i <= |parts|
      invariant AllValid(its)
      invariant Outstanding(its) + PartsBlocks(parts[i..]) == PartsBlocks(parts)
    {
      PartsBlocksFrom(parts, i);
      var it := OpenIter(parts[i]);
      if it.Some? {
        OutstandingConcat(its, [it.value]);
        OutstandingCons(it.value, []);
        assert [it.value] + [] == [it.value];
        AllValidSnoc(its, it.value);
        its := its + [it.value];
      }
      i := i + 1;
    }
    assert parts[i..] == [];
    PartsBlocksNil();
    if its != [] {
      its := Restore(its);
    }
  }

  lemma PartsBlocksNil()
    ensures PartsBlocks([]) == multiset{}
  {
  }

  lemma AllValidSnoc(a: seq<MergeIter>, it: MergeIter)
    requires AllValid(a) && ValidIter(it)
    ensures AllValid(a + [it])
  {
    hide ValidIter;
  }

  lemma PartsBlocksFrom(parts: seq<Part>, i: nat)
    requires AllIndexed(parts) && i < |parts|
    ensures IndexedPart(parts[i])
    ensures PartsBlocks(parts[i..]) == multiset(Flat(parts[i].primaries)) + PartsBlocks(parts[i + 1..])
  {
    assert parts[i..][1..] == parts[i + 1..];
  }

  function OpenIter(part: Part): (r: Option<MergeIter>)
    requires IndexedPart(part)
    ensures r.None? ==> Flat(part.primaries) == []
    ensures r.Some? ==> ValidIter(r.value) && From(r.value) == Flat(part.primaries)
  {
    assert [] + Flat(part.primaries[0..]) == Flat(part.primaries) by { assert part.primaries[0..] == part.primaries; }
    Advance(part.primaries, 0, [])
  }

  /** Advances the front iterator, removing it when it is used up. */
  method NextFront(its: seq<MergeIter>) returns (r: seq<MergeIter>)
    requires its != [] && AllValid(its)
    ensures Outstanding(its) == multiset{its[0].cur} + Outstanding(r)
    ensures r != [] ==> AllValid(r) && FrontLeast(r)
  {
    hide *;
    var head, tail := its[0], its[1..];
    FrontTaken(its);
    var next := Advance(head.primaries, head.primaryIdx, head.buf);
    if next.Some? {
      AdvanceValid(head, next.value);
      AllValidCons(next.value, tail);
      OutstandingCons(next.value, tail);
      r := Restore([next.value] + tail);
    } else if |its| == 1 {
      OutstandingNil();
      r := [];
    } else {
      r := Restore(tail);
    }
  }

  lemma OutstandingNil()
    ensures Outstanding([]) == multiset{} && AllValid([])
  {
  }

  lemma AllValidCons(it: MergeIter, b: seq<MergeIter>)
    requires AllValid(b) && ValidIter(it)
    ensures AllValid([it] + b)
  {
    hide ValidIter;
  }

  lemma {:induction false} FrontTaken(its: seq<MergeIter>)
    requires its != [] && AllValid(its)
    ensures ValidIter(its[0]) && AllValid(its[1..])
    ensures its[0].primaryIdx <= |its[0].primaries| && WFIndex(its[0].primaries)
    ensures Rest(its[0]) == its[0].buf + Flat(its[0].primaries[its[0].primaryIdx..])
    ensures Outstanding(its) == multiset{its[0].cur} + multiset(Rest(its[0])) + Outstanding(its[1..])
  {
    hide Flat, WFIndex, Ordered;
    assert ValidIter(its[0]);
    assert From(its[0]) == [its[0].cur] + Rest(its[0]);
  }

  lemma {:induction false} FrontDelivered(its: seq<MergeIter>)
    requires its != [] && AllValid(its) && FrontLeast(its)
    ensures its[0].cur in Outstanding(its)
    ensures forall b :: b in Outstanding(its) ==> BlockLe(its[0].cur.bm, b.bm)
  {
    hide ValidIter, Rest;
    assert its[0].cur == From(its[0])[0];
    assert its[0].cur in multiset(From(its[0]));
    forall b | b in Outstanding(its) ensures BlockLe(its[0].cur.bm, b.bm) {
      LeastOfOutstanding(its, its[0].cur.bm, b);
    }
  }

  /** A block read back has a column for every cell, as it was written. */
  lemma NamedAsRead(rows: seq<Point>, s: Schema)
    requires Named(rows, s)
    ensures Named(rows, AsRead(s))
  {
    hide AsReadTags, ColumnNamesOf;
    forall i, k | 0 <= i < |rows| && k in rows[i].data ensures HasColumn(AsRead(s), k) {
      assert HasColumn(s, k);
      if k.0.Some? { ReadColumns(s, k.0.value); }
    }
  }

  class Reader {
    var pih: seq<MergeIter>
    var nextBlockNoop: bool
    var eof: bool
    const block: BlockPointer
    ghost var cur: Block
    ghost var todo: multiset<Block>

    ghost predicate Valid()
      reads this
    {
      && (eof ==> todo == multiset{})
      && (!eof ==>
            && pih != [] && AllValid(pih) && FrontLeast(pih)
            && Outstanding(pih) == todo + if nextBlockNoop then multiset{} else multiset{pih[0].cur})
    }

    /** The block last handed out is the front iterator's. */
    ghost predicate AtBlock()
      reads this
    {
      pih != [] && cur == pih[0].cur
    }

    constructor (parts: seq<Part>)
      requires AllIndexed(parts)
      ensures Valid() && todo == PartsBlocks(parts)
      ensures fresh(block)
    {
      var its := OpenIters(parts);
      eof := its == [];
      pih := its;
      nextBlockNoop := true;
      todo := Outstanding(its);
      block := new BlockPointer();
    }

    /** Hands out a least outstanding block, or reports the end. */
    method NextBlockMetadata() returns (ok: bool)
      requires Valid()
      modifies this, block
      ensures Valid()
      ensures !ok ==> old(todo) == multiset{} && todo == multiset{}
      ensures ok ==> cur in old(todo) && todo == old(todo) - multiset{cur}
      ensures ok ==> forall b :: b in old(todo) ==> BlockLe(cur.bm, b.bm)
      ensures ok ==> AtBlock() && block.bm == cur.bm && block.rows == [] && block.idx == 0
    {
      if eof {
        return false;
      }
      if nextBlockNoop {
        nextBlockNoop := false;
      } else {
        NextMetadata();
        if eof {
          return false;
        }
      }
      ok := true;
      Deliver();
    }

    method NextMetadata()
      requires Valid() && !eof && !nextBlockNoop
      modifies this
      ensures !nextBlockNoop && todo == old(todo)
      ensures eof ==> Valid() && todo == multiset{}
      ensures !eof ==> pih != [] && AllValid(pih) && FrontLeast(pih) && Outstanding(pih) == todo
    {
      hide AllValid, FrontLeast, Outstanding;
      ghost var c := pih[0].cur;
      pih := NextFront(pih);
      assert Outstanding(pih) == (multiset{c} + Outstanding(pih)) - multiset{c};
      assert todo == (todo + multiset{c}) - multiset{c};
      OutstandingNil();
      eof := |pih| == 0;
    }

    method Deliver()
      requires !eof && !nextBlockNoop
      requires pih != [] && AllValid(pih) && FrontLeast(pih)
      requires todo == Outstanding(pih)
      modifies this, block
      ensures Valid()
      ensures !eof && cur in old(todo) && todo == old(todo) - multiset{cur}
      ensures forall b :: b in old(todo) ==> BlockLe(cur.bm, b.bm)
      ensures AtBlock() && block.bm == cur.bm && block.rows == [] && block.idx == 0
    {
      hide AllValid, FrontLeast, Outstanding;
      FrontDelivered(pih);
      cur := pih[0].cur;
      todo := todo - multiset{cur};
      block.Reset();
      block.bm := pih[0].cur.bm;
    }

    /** Reads the rows of the block last handed out, with its columns' names; families come in the order of their names. */
    method LoadBlockData()
      requires AtBlock()
      modifies block`rows, block`schema
      ensures block.rows == cur.rows && block.schema == AsRead(cur.schema)
    {
      block.rows, block.schema := pih[0].cur.rows, AsRead(pih[0].cur.schema);
    }
  }
}
