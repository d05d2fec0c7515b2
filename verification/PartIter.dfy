/**
  The index-guided iterator over one part.  It steps through requested series and primary blocks
  with binary searches and time pruning, and yields exactly the blocks a linear scan would.
 */
module PartIter {
  import opened Points
  import opened Schemas
  import opened Parts

  /** The block can hold rows of the query. */
  predicate Wanted(b: Block, sids: seq<nat>, lo: int, hi: int) {
    b.bm.sid in sids && lo <= b.bm.max && b.bm.min <= hi
  }

  /** The linear scan: the wanted blocks, in file order. */
  ghost function Scan(bs: seq<Block>, sids: seq<nat>, lo: int, hi: int): seq<Block> {
    if bs == [] then []
    else (if Wanted(bs[0], sids, lo, hi) then [bs[0]] else []) + Scan(bs[1..], sids, lo, hi)
  }

  predicate Ascending(sids: seq<nat>) {
    forall i, j :: 0 <= i < j < |sids| ==> sids[i] <= sids[j]
  }

  lemma {:induction false} ScanDrop(bs: seq<Block>, n: nat, sids: seq<nat>, lo: int, hi: int)
    requires n <= |bs| && forall i :: 0 <= i < n ==> !Wanted(bs[i], sids, lo, hi)
    ensures Scan(bs, sids, lo, hi) == Scan(bs[n..], sids, lo, hi)
  {
    hide Wanted;
    if n == 0 {
      assert bs[0..] == bs;
    } else {
      assert !Wanted(bs[0], sids, lo, hi);
      ScanDrop(bs[1..], n - 1, sids, lo, hi);
      assert bs[1..][n - 1..] == bs[n..];
    }
  }

  lemma {:induction false} ScanNone(bs: seq<Block>, sids: seq<nat>, lo: int, hi: int)
    requires forall i :: 0 <= i < |bs| ==> !Wanted(bs[i], sids, lo, hi)
    ensures Scan(bs, sids, lo, hi) == []
  {
    ScanDrop(bs, |bs|, sids, lo, hi);
  }

  /** sort.Search: the least index in [0, n) at which the monotone `f` holds, or n. */
  method Search(n: nat, f: nat -> bool) returns (i: nat)
    requires forall a, b :: 0 <= a < b < n && f(a) ==> f(b)
    ensures i <= n
    ensures forall a :: 0 <= a < i ==> !f(a)
    ensures forall a :: i <= a < n ==> f(a)
  {
    i := 0;
    var j := n;
    while i < j
      invariant 0 <= i <= j <= n
      invariant forall a :: 0 <= a < i ==> !f(a)
      invariant forall a :: j <= a < n ==> f(a)
    {
      var h := (i + j) / 2;
      if !f(h) {
        i := h + 1;
      } else {
        j := h;
      }
    }
  }

  /** Everything still wanted in `bs` belongs to series `sid` or a later one. */
  ghost predicate NoneBelow(bs: seq<Block>, sids: seq<nat>, lo: int, hi: int, sid: nat) {
    forall i :: 0 <= i < |bs| && Wanted(bs[i], sids, lo, hi) ==> sid <= bs[i].bm.sid
  }

  /** The cursor over the requested series stands on `sid`. */
  predicate OnSeries(sids: seq<nat>, sidIdx: nat, sid: nat) {
    0 < sidIdx <= |sids| && sids[sidIdx - 1] == sid
  }

  /** Moving on from a series that `bs` no longer needs. */
  lemma SeriesStep(bs: seq<Block>, sids: seq<nat>, lo: int, hi: int, sidIdx: nat, sid: nat)
    requires Ascending(sids) && OnSeries(sids, sidIdx, sid)
    requires NoneBelow(bs, sids, lo, hi, sid)
    requires forall i :: 0 <= i < |bs| && Wanted(bs[i], sids, lo, hi) ==> bs[i].bm.sid != sid
    ensures sidIdx == |sids| ==> forall i :: 0 <= i < |bs| ==> !Wanted(bs[i], sids, lo, hi)
    ensures sidIdx < |sids| ==> NoneBelow(bs, sids, lo, hi, sids[sidIdx])
  {
    forall i | 0 <= i < |bs| && Wanted(bs[i], sids, lo, hi)
      ensures sidIdx < |sids| && sids[sidIdx] <= bs[i].bm.sid
    {
      forall n | 0 <= n < sidIdx ensures sids[n] <= sids[sidIdx - 1] { }
      var k :| 0 <= k < |sids| && sids[k] == bs[i].bm.sid;
      assert sids[sidIdx - 1] < sids[k];
      assert sidIdx <= k;
    }
  }

  /** Skipping requested series below `sid` when `bs` starts at `sid`. */
  lemma SeekStep(bs: seq<Block>, sids: seq<nat>, lo: int, hi: int, from: nat, to: nat, sid: nat)
    requires Ascending(sids) && from <= to <= |sids|
    requires forall i :: 0 <= i < |bs| ==> sid <= bs[i].bm.sid
    requires forall k :: 0 <= k < to ==> sids[k] < sid
    ensures to == |sids| ==> forall i :: 0 <= i < |bs| ==> !Wanted(bs[i], sids, lo, hi)
    ensures to < |sids| ==> NoneBelow(bs, sids, lo, hi, sids[to])
  {
    forall i | 0 <= i < |bs| && Wanted(bs[i], sids, lo, hi)
      ensures to < |sids| && sids[to] <= bs[i].bm.sid
    {
      var k :| 0 <= k < |sids| && sids[k] == bs[i].bm.sid;
      assert to <= k;
    }
  }

  // ---------- primary blocks ----------

  lemma {:induction false} InFlat(ps: seq<Primary>, a: nat, b: Block)
    requires a < |ps| && b in ps[a].blocks
    ensures b in Flat(ps)
  {
    if a > 0 {
      InFlat(ps[1..], a - 1, b);
    }
  }

  lemma {:induction false} FlatSplit(ps: seq<Primary>, k: nat)
    requires k <= |ps|
    ensures Flat(ps) == Flat(ps[..k]) + Flat(ps[k..])
  {
    FlatConcat(ps[..k], ps[k..]);
    assert ps == ps[..k] + ps[k..];
  }

  /** Every block before the k-th primary block has a series no greater than that primary block's. */
  lemma {:induction false} BeforePrimary(ps: seq<Primary>, k: nat, b: Block)
    requires WFIndex(ps) && Ordered(Flat(ps)) && k < |ps| && b in Flat(ps[..k])
    ensures b.bm.sid <= ps[k].sid
  {
    hide WFPrimary, Flat;
    FlatSplit(ps, k);
    var l, r := Flat(ps[..k]), Flat(ps[k..]);
    var i :| 0 <= i < |l| && l[i] == b;
    PrimaryHead(ps[k..]);
    assert ps[k..][0] == ps[k];
    assert BlockLe(Flat(ps)[i].bm, Flat(ps)[|l|].bm);
  }

  lemma {:induction false} PrimaryHead(ps: seq<Primary>)
    requires ps != [] && WFIndex(ps)
    ensures Flat(ps) != [] && Flat(ps)[0].bm.sid == ps[0].sid
  {
    assert WFPrimary(ps[0]);
  }

  lemma {:induction false} PrimariesSorted(ps: seq<Primary>, a: nat, b: nat)
    requires WFIndex(ps) && Ordered(Flat(ps)) && a < b < |ps|
    ensures ps[a].sid <= ps[b].sid
  {
    assert WFPrimary(ps[a]);
    assert ps[..b][a] == ps[a];
    InFlat(ps[..b], a, ps[a].blocks[0]);
    BeforePrimary(ps, b, ps[a].blocks[0]);
  }

  /** Well-formed primary blocks whose blocks are in order. */
  ghost predicate IndexInOrder(ps: seq<Primary>) {
    WFIndex(ps) && Ordered(Flat(ps))
  }

  /** The primary blocks that may hold `sid` or a later series: start at the last one whose series is below `sid`. */
  method SearchPBM(ps: seq<Primary>, sid: nat) returns (k: nat)
    requires ps != [] && ps[0].sid <= sid && IndexInOrder(ps)
    ensures k < |ps| && ps[k].sid <= sid
    ensures 0 < k ==> ps[k].sid < sid
    ensures forall i :: k < i < |ps| ==> sid <= ps[i].sid
  {
    forall a, b | 0 <= a < b < |ps| ensures ps[a].sid <= ps[b].sid {
      PrimariesSorted(ps, a, b);
    }
    if sid == ps[0].sid {
      return 0;
    }
    var f := (i: nat) => i < |ps| && sid <= ps[i].sid;
    var n := Search(|ps|, f);
    assert !f(0);
    assert n != 0 && !f(n - 1) && (n < |ps| ==> f(n));
    return n - 1;
  }

  lemma {:induction false} DropPrimaries(ps: seq<Primary>, k: nat, sids: seq<nat>, lo: int, hi: int, sid: nat)
    requires WFIndex(ps) && Ordered(Flat(ps)) && k < |ps|
    requires NoneBelow(Flat(ps), sids, lo, hi, sid)
    requires 0 < k ==> ps[k].sid < sid
    ensures Scan(Flat(ps), sids, lo, hi) == Scan(Flat(ps[k..]), sids, lo, hi)
    ensures NoneBelow(Flat(ps[k..]), sids, lo, hi, sid) && Ordered(Flat(ps[k..])) && WFIndex(ps[k..])
  {
    hide WFPrimary, Wanted, Flat, Scan;
    FlatSplit(ps, k);
    var l, bs := Flat(ps[..k]), Flat(ps);
    if k > 0 {
      forall i | 0 <= i < |l| ensures !Wanted(bs[i], sids, lo, hi) {
        assert l[i] == bs[i];
        BeforePrimary(ps, k, l[i]);
      }
    } else {
      FlatNil();
      assert ps[..k] == [];
    }
    ScanDrop(bs, |l|, sids, lo, hi);
    assert bs[|l|..] == Flat(ps[k..]);
    SuffixFacts(bs, |l|, sids, lo, hi, sid);
  }

  lemma FlatNil()
    ensures Flat([]) == []
  {
  }

  lemma SuffixFacts(bs: seq<Block>, n: nat, sids: seq<nat>, lo: int, hi: int, sid: nat)
    requires n <= |bs| && Ordered(bs) && NoneBelow(bs, sids, lo, hi, sid)
    ensures Ordered(bs[n..]) && NoneBelow(bs[n..], sids, lo, hi, sid)
  {
    hide Wanted;
  }

  /** A primary block outside the time range holds nothing wanted. */
  lemma {:induction false} PrunePrimary(p: Primary, ps: seq<Primary>, sids: seq<nat>, lo: int, hi: int)
    requires WFPrimary(p) && (p.max < lo || hi < p.min)
    ensures Scan(p.blocks + Flat(ps), sids, lo, hi) == Scan(Flat(ps), sids, lo, hi)
  {
    var bs := p.blocks + Flat(ps);
    forall i | 0 <= i < |p.blocks| ensures !Wanted(bs[i], sids, lo, hi) {
      assert p.blocks[i] in p.blocks;
    }
    ScanDrop(bs, |p.blocks|, sids, lo, hi);
    assert bs[|p.blocks|..] == Flat(ps);
  }

  // ---------- the iterator ----------

  /** The binary search over the requested series from `from` on. */
  method SeekSeries(sids: seq<nat>, from: nat, sid: nat) returns (n: nat)
    requires Ascending(sids) && 0 < from <= |sids| && sids[from - 1] < sid
    ensures n <= |sids| - from
    ensures forall k :: 0 <= k < from + n ==> sids[k] < sid
    ensures from + n < |sids| ==> sid <= sids[from + n]
  {
    var f := (i: nat) => from + i < |sids| && sid <= sids[from + i];
    n := Search(|sids| - from, f);
    forall k | 0 <= k < from + n ensures sids[k] < sid {
      if k < from {
        assert k < from - 1 ==> sids[k] <= sids[from - 1];
      } else {
        assert !f(k - from);
      }
    }
    assert from + n < |sids| ==> f(n);
  }

  class Iter {
    const sids: seq<nat>
    const lo: int
    const hi: int
    var eof: bool
    var cur: Block
    var sidIdx: nat
    var primaries: seq<Primary>
    var bms: seq<Block>

    /** The blocks not yet passed. */
    ghost function Left(): seq<Block>
      reads this
    {
      bms + Flat(primaries)
    }

    /** The blocks still to be yielded. */
    ghost function Todo(): seq<Block>
      reads this
    {
      Scan(Left(), sids, lo, hi)
    }

    /** The series cursor has not passed anything `bs` still needs. */
    ghost predicate Aligned(bs: seq<Block>)
      reads this
    {
      && Ascending(sids)
      && OnSeries(sids, sidIdx, cur.bm.sid)
      && NoneBelow(bs, sids, lo, hi, cur.bm.sid)
    }

    /** Nothing in `bs` is wanted any more. */
    ghost predicate Exhausted(bs: seq<Block>)
      reads this
    {
      eof && forall i :: 0 <= i < |bs| ==> !Wanted(bs[i], sids, lo, hi)
    }

    ghost predicate Valid()
      reads this
    {
      && Ascending(sids)
      && Ordered(Left()) && WFIndex(primaries)
      && (eof ==> Exhausted(Left()))
      && (!eof ==> Aligned(Left()))
    }

    constructor (part: Part, sids: seq<nat>, lo: int, hi: int)
      requires IndexedPart(part) && Ascending(sids)
      ensures Valid() && this.sids == sids && this.lo == lo && this.hi == hi
      ensures Todo() == Scan(Flat(part.primaries), sids, lo, hi)
    {
      this.sids, this.lo, this.hi := sids, lo, hi;
      primaries, bms := part.primaries, [];
      var none := BlockMeta(0, 0, 0, 0, 0);
      if |sids| == 0 {
        eof, sidIdx, cur := true, 0, Block(none, [], NO_COLUMNS);
      } else {
        eof, sidIdx, cur := false, 1, Block(none.(sid := sids[0]), [], NO_COLUMNS);
      }
      new;
      FirstSeries(Left(), sids, lo, hi);
      assert Left() == Flat(part.primaries);
    }

    /** Steps to the next requested series; the caller is done with the present one. */
    method NextSeriesID(ghost bs: seq<Block>) returns (ok: bool)
      requires !eof && Aligned(bs)
      requires forall i :: 0 <= i < |bs| && Wanted(bs[i], sids, lo, hi) ==> bs[i].bm.sid != cur.bm.sid
      modifies this`eof, this`cur, this`sidIdx
      ensures ok ==> !eof && Aligned(bs) && sidIdx == old(sidIdx) + 1
      ensures !ok ==> Exhausted(bs) && sidIdx == |sids|
    {
      SeriesStep(bs, sids, lo, hi, sidIdx, cur.bm.sid);
      if sidIdx >= |sids| {
        eof := true;
        return false;
      }
      cur := cur.(bm := cur.bm.(sid := sids[sidIdx]));
      sidIdx := sidIdx + 1;
      return true;
    }

    /** Steps to the first requested series at or after `sid`, the least series of `bs`. */
    method SearchTargetSeriesID(sid: nat, ghost bs: seq<Block>) returns (ok: bool)
      requires !eof && Aligned(bs)
      requires forall i :: 0 <= i < |bs| ==> sid <= bs[i].bm.sid
      modifies this`eof, this`cur, this`sidIdx
      ensures ok ==> !eof && Aligned(bs) && sid <= cur.bm.sid
      ensures ok ==> old(sidIdx) <= sidIdx && (old(cur.bm.sid) < sid ==> old(sidIdx) < sidIdx)
      ensures !ok ==> Exhausted(bs)
    {
      if cur.bm.sid >= sid {
        return true;
      }
      ok := NextSeriesID(bs);
      if !ok {
        return false;
      }
      if cur.bm.sid >= sid {
        return true;
      }
      var n := SeekSeries(sids, sidIdx, sid);
      SeekStep(bs, sids, lo, hi, sidIdx, sidIdx + n, sid);
      sidIdx := sidIdx + n;
      if sidIdx >= |sids| {
        eof := true;
        return false;
      }
      cur := cur.(bm := cur.bm.(sid := sids[sidIdx]));
      sidIdx := sidIdx + 1;
      return true;
    }

    /** Opens the next primary block that may hold something wanted. */
    method LoadNextBlockMetadata() returns (ok: bool)
      requires Valid() && !eof && bms == []
      modifies this
      ensures Valid() && Todo() == old(Todo())
      ensures ok ==> !eof && bms != [] && |primaries| < old(|primaries|)
      ensures !ok ==> eof
    {
      hide Scan, Flat, Wanted, NoneBelow, Ordered, WFIndex, WFPrimary, Ascending, OnSeries;
      ghost var todo := Todo();
      while |primaries| > 0
        invariant Valid() && !eof && bms == [] && Todo() == todo
        invariant |primaries| <= old(|primaries|)
        decreases |primaries|
      {
        assert Left() == Flat(primaries);
        HeadLeast(primaries);
        var found := SearchTargetSeriesID(primaries[0].sid, Flat(primaries));
        if !found {
          return false;
        }
        var k := SearchPBM(primaries, cur.bm.sid);
        DropPrimaries(primaries, k, sids, lo, hi, cur.bm.sid);
        OpenPrimary(primaries[k..], sids, lo, hi, cur.bm.sid);
        var pbm := primaries[k];
        assert pbm == primaries[k..][0] && primaries[k..][1..] == primaries[k + 1..];
        primaries := primaries[k + 1..];
        assert pbm.sid <= cur.bm.sid;
        assert [] + Flat(primaries) == Flat(primaries);
        if pbm.max < lo || pbm.min > hi {
          PrunePrimary(pbm, primaries, sids, lo, hi);
          continue;
        }
        bms := pbm.blocks;
        return true;
      }
      eof := true;
      FlatNil();
      assert primaries == [] && Left() == [];
      return false;
    }

    /** Finds the next wanted block of the open primary block. */
    method FindBlock() returns (ok: bool)
      requires Valid() && !eof
      modifies this`eof, this`cur, this`sidIdx, this`bms
      ensures Valid()
      ensures ok ==> !eof && old(Todo()) != [] && cur == old(Todo())[0] && Todo() == old(Todo())[1..]
      ensures !ok ==> Todo() == old(Todo()) && (eof || bms == [])
    {
      hide Scan, Flat, Wanted, NoneBelow, Ordered, WFIndex, WFPrimary, Ascending;
      var bhs := bms;
      ghost var rest, todo := Flat(primaries), Todo();
      while |bhs| > 0
        invariant !eof && Aligned(bhs + rest) && Ordered(bhs + rest)
        invariant Scan(bhs + rest, sids, lo, hi) == todo
        invariant bms == old(bms)
        decreases |bhs|, |sids| - sidIdx
      {
        var sid := cur.bm.sid;
        if bhs[0].bm.sid < sid {
          var n := SeekBlock(bhs, rest, sid);
          DropBelow(bhs, rest, n, sids, lo, hi, sid);
          bhs := bhs[n..];
          if |bhs| == 0 {
            break;
          }
        }
        var b := bhs[0];
        HeadBlock(bhs, rest, sids, lo, hi, sid, sidIdx);
        if b.bm.sid != sid {
          ok := SearchTargetSeriesID(b.bm.sid, bhs + rest);
          if !ok {
            ScanNone(bhs + rest, sids, lo, hi);
            ScanEmpty(bms + rest, sids, lo, hi);
            return false;
          }
        } else if b.bm.max < lo {
          bhs := bhs[1..];
        } else if b.bm.min > hi {
          ok := NextSeriesID(bhs + rest);
          if !ok {
            ScanNone(bhs + rest, sids, lo, hi);
            ScanEmpty(bms + rest, sids, lo, hi);
            return false;
          }
        } else {
          cur := b;
          bms := bhs[1..];
          return true;
        }
      }
      bms := [];
      assert bhs == [];
      return false;
    }

    /** Yields the next wanted block, in file order, or reports the end. */
    method NextBlock() returns (ok: bool)
      requires Valid()
      modifies this
      ensures Valid()
      ensures ok ==> old(Todo()) != [] && cur == old(Todo())[0] && Todo() == old(Todo())[1..]
      ensures !ok ==> old(Todo()) == [] && Todo() == []
    {
      ghost var todo := Todo();
      while true
        invariant Valid() && Todo() == todo
        decreases !eof, 2 * |primaries| + if bms == [] then 0 else 1
      {
        if eof {
          ScanNone(Left(), sids, lo, hi);
          return false;
        }
        if |bms| == 0 {
          ok := LoadNextBlockMetadata();
          if !ok {
            ScanNone(Left(), sids, lo, hi);
            return false;
          }
        }
        ok := FindBlock();
        if ok {
          return true;
        }
      }
    }
  }

  lemma FirstSeries(bs: seq<Block>, sids: seq<nat>, lo: int, hi: int)
    requires Ascending(sids)
    ensures sids == [] ==> forall i :: 0 <= i < |bs| ==> !Wanted(bs[i], sids, lo, hi)
    ensures sids != [] ==> NoneBelow(bs, sids, lo, hi, sids[0])
  {
  }

  lemma {:induction false} HeadLeast(ps: seq<Primary>)
    requires ps != [] && WFIndex(ps) && Ordered(Flat(ps))
    ensures forall i :: 0 <= i < |Flat(ps)| ==> ps[0].sid <= Flat(ps)[i].bm.sid
  {
    PrimaryHead(ps);
    forall i | 0 <= i < |Flat(ps)| ensures ps[0].sid <= Flat(ps)[i].bm.sid {
      assert i > 0 ==> BlockLe(Flat(ps)[0].bm, Flat(ps)[i].bm);
    }
  }

  lemma {:induction false} OpenPrimary(ps: seq<Primary>, sids: seq<nat>, lo: int, hi: int, sid: nat)
    requires ps != [] && WFIndex(ps) && Ordered(Flat(ps)) && NoneBelow(Flat(ps), sids, lo, hi, sid)
    ensures Flat(ps) == ps[0].blocks + Flat(ps[1..]) && WFPrimary(ps[0]) && ps[0].blocks != []
    ensures WFIndex(ps[1..]) && Ordered(Flat(ps[1..])) && NoneBelow(Flat(ps[1..]), sids, lo, hi, sid)
  {
    hide NoneBelow, Ordered;
    assert WFPrimary(ps[0]);
    SuffixFacts(Flat(ps), |ps[0].blocks|, sids, lo, hi, sid);
    assert Flat(ps)[|ps[0].blocks|..] == Flat(ps[1..]);
  }

  lemma {:induction false} ScanEmpty(bs: seq<Block>, sids: seq<nat>, lo: int, hi: int)
    requires Scan(bs, sids, lo, hi) == []
    ensures forall i :: 0 <= i < |bs| ==> !Wanted(bs[i], sids, lo, hi)
  {
    hide Wanted;
    if bs != [] {
      ScanEmpty(bs[1..], sids, lo, hi);
      forall i | 0 <= i < |bs| ensures !Wanted(bs[i], sids, lo, hi) {
        if i > 0 {
          assert bs[i] == bs[1..][i - 1];
        }
      }
    }
  }

  /** The binary search inside the open primary block. */
  method SeekBlock(bhs: seq<Block>, ghost rest: seq<Block>, sid: nat) returns (n: nat)
    requires Ordered(bhs + rest)
    ensures n <= |bhs|
    ensures forall i :: 0 <= i < n ==> bhs[i].bm.sid < sid
    ensures n < |bhs| ==> sid <= bhs[n].bm.sid
  {
    var f := (i: nat) => i < |bhs| && sid <= bhs[i].bm.sid;
    forall a, b | 0 <= a < b < |bhs| ensures bhs[a].bm.sid <= bhs[b].bm.sid {
      assert BlockLe((bhs + rest)[a].bm, (bhs + rest)[b].bm);
    }
    n := Search(|bhs|, f);
    forall i | 0 <= i < n ensures bhs[i].bm.sid < sid {
      assert !f(i);
    }
    assert n < |bhs| ==> f(n);
  }

  lemma {:induction false} DropBelow(bhs: seq<Block>, rest: seq<Block>, n: nat, sids: seq<nat>, lo: int, hi: int, sid: nat)
    requires n <= |bhs| && (forall i :: 0 <= i < n ==> bhs[i].bm.sid < sid)
    requires Ordered(bhs + rest) && NoneBelow(bhs + rest, sids, lo, hi, sid)
    ensures Scan(bhs[n..] + rest, sids, lo, hi) == Scan(bhs + rest, sids, lo, hi)
    ensures Ordered(bhs[n..] + rest) && NoneBelow(bhs[n..] + rest, sids, lo, hi, sid)
  {
    hide Wanted, Scan, Ordered;
    var bs := bhs + rest;
    forall i | 0 <= i < n ensures !Wanted(bs[i], sids, lo, hi) {
      assert bs[i] == bhs[i];
    }
    ScanDrop(bs, n, sids, lo, hi);
    assert bs[n..] == bhs[n..] + rest;
    SuffixFacts(bs, n, sids, lo, hi, sid);
  }

  /** What the tests on the first block of the open primary block tell about all blocks left. */
  lemma {:induction false} HeadBlock(bhs: seq<Block>, rest: seq<Block>, sids: seq<nat>, lo: int, hi: int, sid: nat, sidIdx: nat)
    requires bhs != [] && Ordered(bhs + rest) && NoneBelow(bhs + rest, sids, lo, hi, sid) && OnSeries(sids, sidIdx, sid)
    ensures forall i :: 0 <= i < |bhs + rest| ==> bhs[0].bm.sid <= (bhs + rest)[i].bm.sid
    ensures Ordered(bhs[1..] + rest) && NoneBelow(bhs[1..] + rest, sids, lo, hi, sid)
    ensures bhs[0].bm.max < lo ==> Scan(bhs[1..] + rest, sids, lo, hi) == Scan(bhs + rest, sids, lo, hi)
    ensures bhs[0].bm.sid == sid && hi < bhs[0].bm.min ==>
              forall i :: 0 <= i < |bhs + rest| && Wanted((bhs + rest)[i], sids, lo, hi) ==> (bhs + rest)[i].bm.sid != sid
    ensures bhs[0].bm.sid == sid && lo <= bhs[0].bm.max && bhs[0].bm.min <= hi ==>
              Scan(bhs + rest, sids, lo, hi) == [bhs[0]] + Scan(bhs[1..] + rest, sids, lo, hi)
  {
    var bs := bhs + rest;
    assert bs[1..] == bhs[1..] + rest && bs[0] == bhs[0];
    SuffixFacts(bs, 1, sids, lo, hi, sid);
    forall i | 0 <= i < |bs| ensures i == 0 || BlockLe(bs[0].bm, bs[i].bm) {
    }
  }
}
