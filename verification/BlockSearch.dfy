/**
  Finding the blocks of a query: part pruning by time, then a k-way walk over the part iterators.
 */
module BlockSearch {
  import Collections
  import opened Points
  import opened Parts
  import opened PartIter

  /** The wanted blocks of some parts, by linear scan. */
  ghost function ScanParts(parts: seq<Part>, sids: seq<nat>, lo: int, hi: int): multiset<Block> {
    if parts == [] then multiset{}
    else multiset(Scan(Flat(parts[0].primaries), sids, lo, hi)) + ScanParts(parts[1..], sids, lo, hi)
  }

  // ---------- part pruning ----------

  predicate Overlaps(p: Part, lo: int, hi: int) {
    !(hi < p.meta.minTs || lo > p.meta.maxTs)
  }

  /** A part whose time range misses the query holds nothing wanted. */
  lemma {:induction false} PrunePart(p: Part, sids: seq<nat>, lo: int, hi: int)
    requires IndexedPart(p) && !Overlaps(p, lo, hi)
    ensures Scan(Flat(p.primaries), sids, lo, hi) == []
  {
    hide Flat, Scan, Ordered, WFIndex, ExactBlock, RowCount;
    var bs := Flat(p.primaries);
    forall i | 0 <= i < |bs| ensures !Wanted(bs[i], sids, lo, hi) {
      assert bs[i] in bs;
    }
    ScanNone(bs, sids, lo, hi);
  }

  /** The parts whose time range meets the query; dropping the others loses no wanted block. */
  method GetParts(parts: seq<Part>, lo: int, hi: int) returns (dst: seq<Part>)
    requires AllIndexed(parts)
    ensures AllIndexed(dst) && forall p :: p in dst <==> p in parts && Overlaps(p, lo, hi)
    ensures forall sids :: ScanParts(dst, sids, lo, hi) == ScanParts(parts, sids, lo, hi)
  {
    hide IndexedPart, ScanParts, Overlaps;
    dst := [];
    var i := 0;
    ScanPartsNil(lo, hi);
    while i < |parts|
      invariant 0 <= i <= |parts| && AllIndexed(dst)
      invariant forall p :: p in dst <==> p in parts[..i] && Overlaps(p, lo, hi)
      invariant forall sids :: ScanParts(dst, sids, lo, hi) == ScanParts(parts[..i], sids, lo, hi)
    {
      assert parts[..i + 1] == parts[..i] + [parts[i]];
      ScanPartsSnoc(parts[..i], parts[i], lo, hi);
      if Overlaps(parts[i], lo, hi) {
        ScanPartsSnoc(dst, parts[i], lo, hi);
        dst := dst + [parts[i]];
      } else {
        PruneAny(parts[i], lo, hi);
      }
      i := i + 1;
    }
    assert parts[..i] == parts;
  }

  lemma {:induction false} PruneAny(p: Part, lo: int, hi: int)
    requires IndexedPart(p) && !Overlaps(p, lo, hi)
    ensures forall sids :: Scan(Flat(p.primaries), sids, lo, hi) == []
  {
    forall sids ensures Scan(Flat(p.primaries), sids, lo, hi) == [] {
      PrunePart(p, sids, lo, hi);
    }
  }

  lemma ScanPartsNil(lo: int, hi: int)
    ensures forall sids :: ScanParts([], sids, lo, hi) == multiset{}
  {
  }

  lemma {:induction false} ScanPartsHead(a: seq<Part>, sids: seq<nat>, lo: int, hi: int)
    requires a != []
    ensures ScanParts(a, sids, lo, hi) == multiset(Scan(Flat(a[0].primaries), sids, lo, hi)) + ScanParts(a[1..], sids, lo, hi)
  {
  }

  lemma {:induction false} ScanPartsConcat(a: seq<Part>, b: seq<Part>, sids: seq<nat>, lo: int, hi: int)
    ensures ScanParts(a + b, sids, lo, hi) == ScanParts(a, sids, lo, hi) + ScanParts(b, sids, lo, hi)
  {
    hide *;
    if a == [] {
      assert a + b == b;
      ScanPartsNil(lo, hi);
    } else {
      ScanPartsConcat(a[1..], b, sids, lo, hi);
      assert (a + b)[1..] == a[1..] + b;
      ScanPartsHead(a, sids, lo, hi);
      ScanPartsHead(a + b, sids, lo, hi);
      Collections.Associative(multiset(Scan(Flat(a[0].primaries), sids, lo, hi)), ScanParts(a[1..], sids, lo, hi),
                  ScanParts(b, sids, lo, hi));
    }
  }

  lemma ScanPartsSnoc(a: seq<Part>, p: Part, lo: int, hi: int)
    ensures forall sids :: ScanParts(a + [p], sids, lo, hi) ==
                           ScanParts(a, sids, lo, hi) + multiset(Scan(Flat(p.primaries), sids, lo, hi))
  {
    hide Scan, Flat;
    forall sids ensures ScanParts(a + [p], sids, lo, hi) ==
                        ScanParts(a, sids, lo, hi) + multiset(Scan(Flat(p.primaries), sids, lo, hi)) {
      ScanPartsConcat(a, [p], sids, lo, hi);
      assert ScanParts([p][1..], sids, lo, hi) == multiset{};
    }
  }

  lemma {:induction false} ScanOrdered(bs: seq<Block>, sids: seq<nat>, lo: int, hi: int)
    requires Ordered(bs)
    ensures Ordered(Scan(bs, sids, lo, hi))
    ensures forall b :: b in Scan(bs, sids, lo, hi) <==> b in bs && Wanted(b, sids, lo, hi)
  {
    hide Wanted;
    if bs != [] {
      assert Ordered(bs[1..]);
      ScanOrdered(bs[1..], sids, lo, hi);
      var t := Scan(bs[1..], sids, lo, hi);
      forall j | 0 <= j < |t| ensures BlockLe(bs[0].bm, t[j].bm) {
        assert t[j] in bs[1..];
        var k :| 0 <= k < |bs[1..]| && bs[1..][k] == t[j];
        assert BlockLe(bs[0].bm, bs[k + 1].bm);
      }
    }
  }

  // ---------- the streams of the heap ----------

  ghost function Sum(ss: seq<seq<Block>>): multiset<Block> {
    if ss == [] then multiset{} else multiset(ss[0]) + Sum(ss[1..])
  }

  lemma {:induction false} SumHead(a: seq<seq<Block>>)
    ensures Sum(a) == if a == [] then multiset{} else multiset(a[0]) + Sum(a[1..])
  {
  }

  lemma {:induction false} SumConcat(a: seq<seq<Block>>, b: seq<seq<Block>>)
    ensures Sum(a + b) == Sum(a) + Sum(b)
  {
    hide *;
    if a == [] {
      assert a + b == b;
      SumHead(a);
    } else {
      SumConcat(a[1..], b);
      assert (a + b)[1..] == a[1..] + b;
      SumHead(a);
      SumHead(a + b);
      Collections.Associative(multiset(a[0]), Sum(a[1..]), Sum(b));
    }
  }

  lemma SumOne(s: seq<Block>)
    ensures Sum([s]) == multiset(s)
  {
    assert Sum([s][1..]) == multiset{};
  }

  lemma {:induction false} SumFront(ss: seq<seq<Block>>, k: nat)
    requires k < |ss|
    ensures Sum(Collections.ToFront(ss, k)) == Sum(ss)
  {
    hide *;
    Collections.ToFrontIs(ss, k);
    var a, c, b := ss[..k], [ss[k]], ss[k + 1..];
    assert ss == a + (c + b);
    SumConcat(a, b);
    SumConcat(c, a + b);
    SumConcat(c, b);
    SumConcat(a, c + b);
  }

  /** `s` is what the iterator still has, its current block first. */
  ghost predicate Standing(it: Iter, s: seq<Block>)
    reads it
  {
    it.Valid() && s == [it.cur] + it.Todo() && Ordered(s)
  }

  ghost predicate AllStanding(its: seq<Iter>, ss: seq<seq<Block>>)
    reads its
  {
    && |its| == |ss|
    && (forall i, j :: 0 <= i < j < |its| ==> its[i] != its[j])
    && (forall i :: 0 <= i < |its| ==> Standing(its[i], ss[i]))
  }

  /** The heap property at the root. */
  ghost predicate FrontLeast(ss: seq<seq<Block>>) {
    (forall i :: 0 <= i < |ss| ==> ss[i] != []) &&
    (forall i :: 0 <= i < |ss| ==> BlockLe(ss[0][0].bm, ss[i][0].bm))
  }

  /** heap.Init, heap.Fix and heap.Pop leave a least iterator at the front. */
  method Restore(its: seq<Iter>, ghost ss: seq<seq<Block>>) returns (r: seq<Iter>, ghost rs: seq<seq<Block>>)
    requires its != [] && AllStanding(its, ss)
    ensures r != [] && AllStanding(r, rs) && FrontLeast(rs) && Sum(rs) == Sum(ss)
    ensures forall it :: it in r ==> it in its
  {
    hide Standing, Sum;
    BlocksOrdered();
    var keys := seq(|its|, i requires 0 <= i < |its| reads its => its[i].cur.bm);
    var k := Collections.Least(keys, BlockLt);
    forall i | 0 <= i < |its| ensures BlockLe(its[k].cur.bm, its[i].cur.bm) {
      assert !BlockLt(keys[i], keys[k]);
    }
    r := Collections.ToFront(its, k);
    rs := Collections.ToFront(ss, k);
    SumFront(ss, k);
    Heads(r, rs);
  }

  lemma Heads(its: seq<Iter>, ss: seq<seq<Block>>)
    requires AllStanding(its, ss)
    ensures forall i :: 0 <= i < |ss| ==> ss[i] != [] && ss[i][0] == its[i].cur
  {
    forall i | 0 <= i < |ss| ensures ss[i] != [] && ss[i][0] == its[i].cur {
      assert Standing(its[i], ss[i]);
    }
  }

  /** Opens an iterator on a part and moves it to its first wanted block. */
  method OpenIter(part: Part, sids: seq<nat>, lo: int, hi: int) returns (it: Iter, ok: bool, ghost s: seq<Block>)
    requires IndexedPart(part) && Ascending(sids)
    ensures fresh(it)
    ensures s == Scan(Flat(part.primaries), sids, lo, hi)
    ensures ok ==> Standing(it, s)
    ensures !ok ==> s == []
  {
    hide Scan, Flat, WFIndex, ExactBlock, ExactRange, RowCount, Wanted, Ordered, NoneBelow, Ascending;
    it := new Iter(part, sids, lo, hi);
    s := it.Todo();
    ScanOrdered(Flat(part.primaries), sids, lo, hi);
    ok := it.NextBlock();
  }

  /** Opens all parts; parts without wanted blocks drop out. */
  method OpenAll(parts: seq<Part>, sids: seq<nat>, lo: int, hi: int) returns (heap: seq<Iter>, ghost ss: seq<seq<Block>>)
    requires AllIndexed(parts) && Ascending(sids)
    ensures AllStanding(heap, ss) && Sum(ss) == ScanParts(parts, sids, lo, hi)
    ensures heap != [] ==> FrontLeast(ss)
    ensures fresh(set it | it in heap)
  {
    hide IndexedPart, Ascending, Standing, Sum, ScanParts, FrontLeast, Scan, Flat;
    heap, ss := [], [];
    var i := 0;
    ScanPartsNil(lo, hi);
    SumNil();
    while i < |parts|
      invariant 0 <= i <= |parts|
      invariant AllStanding(heap, ss) && fresh(set it | it in heap)
      invariant Sum(ss) == ScanParts(parts[..i], sids, lo, hi)
    {
      assert parts[..i + 1] == parts[..i] + [parts[i]];
      ScanPartsSnoc(parts[..i], parts[i], lo, hi);
      var it, ok;
      ghost var s;
      it, ok, s := OpenIter(parts[i], sids, lo, hi);
      if ok {
        SumConcat(ss, [s]);
        SumOne(s);
        heap, ss := heap + [it], ss + [s];
      }
      i := i + 1;
    }
    assert parts[..i] == parts;
    if |heap| > 0 {
      heap, ss := Restore(heap, ss);
    }
  }

  lemma SumNil()
    ensures Sum([]) == multiset{}
  {
  }

  /** Moves the front iterator on; one that is used up leaves the heap. */
  method Next(heap: seq<Iter>, ghost ss: seq<seq<Block>>) returns (r: seq<Iter>, ghost rs: seq<seq<Block>>)
    requires heap != [] && AllStanding(heap, ss)
    modifies heap[0]
    ensures AllStanding(r, rs) && (r != [] ==> FrontLeast(rs))
    ensures ss[0] != [] && Sum(ss) == multiset{ss[0][0]} + Sum(rs)
    ensures forall it :: it in r ==> it in heap
  {
    hide *;
    SplitFront(heap, ss);
    ghost var s, tail := ss[0], ss[1..];
    SumConcat([s], tail);
    SumOne(s);
    HeadTail(s);
    var ok := heap[0].NextBlock();
    if ok {
      SumConcat([s[1..]], tail);
      SumOne(s[1..]);
      JoinFront(heap, s[1..], tail);
      r, rs := Restore(heap, [s[1..]] + tail);
    } else if |heap| == 1 {
      SumNil();
      r, rs := [], [];
      StandingNil();
    } else {
      r, rs := Restore(heap[1..], tail);
    }
  }

  lemma StandingNil()
    ensures AllStanding([], [])
  {
  }

  lemma SplitFront(heap: seq<Iter>, ss: seq<seq<Block>>)
    requires heap != [] && AllStanding(heap, ss)
    ensures |heap| == |ss| && ss == [ss[0]] + ss[1..]
    ensures heap[0].Valid() && ss[0] == [heap[0].cur] + heap[0].Todo() && Ordered(ss[0])
    ensures heap[0] !in heap[1..] && AllStanding(heap[1..], ss[1..])
  {
    hide Scan;
    assert Standing(heap[0], ss[0]);
  }

  lemma JoinFront(heap: seq<Iter>, s: seq<Block>, tail: seq<seq<Block>>)
    requires heap != [] && heap[0] !in heap[1..] && AllStanding(heap[1..], tail)
    requires heap[0].Valid() && s == [heap[0].cur] + heap[0].Todo() && Ordered(s)
    ensures AllStanding(heap, [s] + tail)
  {
    hide Standing, Ordered;
    StandingIs(heap[0], s);
    assert forall i :: 1 <= i < |heap| ==> heap[i] == heap[1..][i - 1];
  }

  lemma StandingIs(it: Iter, s: seq<Block>)
    requires it.Valid() && s == [it.cur] + it.Todo() && Ordered(s)
    ensures Standing(it, s)
  {
  }

  lemma HeadTail(s: seq<Block>)
    requires s != [] && Ordered(s)
    ensures multiset(s) == multiset{s[0]} + multiset(s[1..]) && Ordered(s[1..])
  {
    assert s == [s[0]] + s[1..];
  }

  /**
    All wanted blocks of all parts, ordered by series and least timestamp.  The index-guided walk
    agrees with the linear scan.
   */
  method SearchBlocks(parts: seq<Part>, sids: seq<nat>, lo: int, hi: int) returns (found: seq<Block>)
    requires AllIndexed(parts) && Ascending(sids)
    ensures multiset(found) == ScanParts(parts, sids, lo, hi)
    ensures Ordered(found)
  {
    hide *;
    found := [];
    var heap;
    ghost var ss;
    heap, ss := OpenAll(parts, sids, lo, hi);
    FoundNil(ss);
    NoneLeft(heap, ss);
    while |heap| > 0
      invariant AllStanding(heap, ss) && fresh(set it | it in heap)
      invariant heap != [] ==> FrontLeast(ss)
      invariant heap == [] ==> Sum(ss) == multiset{}
      invariant multiset(found) + Sum(ss) == ScanParts(parts, sids, lo, hi)
      invariant FoundBefore(found, Sum(ss))
      decreases |Sum(ss)|
    {
      Delivers(heap, ss);
      assert heap[0] in heap;
      var b := heap[0].cur;
      ghost var before := Sum(ss);
      heap, ss := Next(heap, ss);
      FoundSnoc(found, before, b, Sum(ss));
      found := found + [b];
      NoneLeft(heap, ss);
    }
    FoundOrdered(found, Sum(ss));
  }

  /** `found` is ordered and comes before everything in `left`. */
  ghost predicate FoundBefore(found: seq<Block>, left: multiset<Block>) {
    Ordered(found) && (found != [] ==> forall b :: b in left ==> BlockLe(found[|found| - 1].bm, b.bm))
  }

  lemma {:induction false} FoundNil(ss: seq<seq<Block>>)
    ensures FoundBefore([], Sum(ss)) && (ss == [] ==> Sum(ss) == multiset{}) && multiset([]) + Sum(ss) == Sum(ss)
  {
  }

  lemma FoundOrdered(found: seq<Block>, left: multiset<Block>)
    requires FoundBefore(found, left)
    ensures Ordered(found)
  {
  }

  lemma {:induction false} NoneLeft(its: seq<Iter>, ss: seq<seq<Block>>)
    requires AllStanding(its, ss)
    ensures its == [] ==> Sum(ss) == multiset{}
  {
  }

  lemma FoundSnoc(found: seq<Block>, before: multiset<Block>, b: Block, left: multiset<Block>)
    requires FoundBefore(found, before) && before == multiset{b} + left
    requires forall x :: x in before ==> BlockLe(b.bm, x.bm)
    ensures FoundBefore(found + [b], left)
    ensures multiset(found + [b]) + left == multiset(found) + before && |left| < |before|
  {
    assert b in before;
    OrderedSnoc(found, b);
    assert forall x :: x in left ==> x in before;
  }

  /** The front block is least among all outstanding ones. */
  lemma {:induction false} Delivers(its: seq<Iter>, ss: seq<seq<Block>>)
    requires its != [] && AllStanding(its, ss) && FrontLeast(ss)
    ensures ss[0] != [] && ss[0][0] == its[0].cur
    ensures forall x :: x in Sum(ss) ==> BlockLe(its[0].cur.bm, x.bm)
  {
    hide Sum, Standing;
    Heads(its, ss);
    forall x | x in Sum(ss) ensures BlockLe(its[0].cur.bm, x.bm) {
      StreamsOrdered(its, ss);
      LeastOfSum(ss, its[0].cur.bm, x);
    }
  }

  lemma StreamsOrdered(its: seq<Iter>, ss: seq<seq<Block>>)
    requires AllStanding(its, ss)
    ensures forall i :: 0 <= i < |ss| ==> Ordered(ss[i])
  {
    forall i | 0 <= i < |ss| ensures Ordered(ss[i]) {
      assert Standing(its[i], ss[i]);
    }
  }

  lemma {:induction false} LeastOfSum(ss: seq<seq<Block>>, bm: BlockMeta, x: Block)
    requires x in Sum(ss)
    requires forall i :: 0 <= i < |ss| ==> ss[i] != [] && Ordered(ss[i]) && BlockLe(bm, ss[i][0].bm)
    ensures BlockLe(bm, x.bm)
  {
    if x in multiset(ss[0]) {
      assert x in ss[0];
      var j :| 0 <= j < |ss[0]| && ss[0][j] == x;
      assert j > 0 ==> BlockLe(ss[0][0].bm, ss[0][j].bm);
    } else {
      LeastOfSum(ss[1..], bm, x);
    }
  }
}
