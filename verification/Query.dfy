/**
  A whole query over the parts of a snapshot: prune, search, load, pull.  The answer is the one a
  scan of all points would give.
 */
module Query {
  import opened Points
  import opened Parts
  import opened PartMerge
  import opened PartIter
  import opened QueryOrder
  import BlockSearch
  import QueryResult
  import Collections

  /** The requested order: by time, or by the position of the series in the request. */
  datatype Requested = Time(asc: bool) | Index

  ghost function SetOf(sids: seq<nat>): set<nat> {
    set s | s in sids
  }

  predicate Distinct(sids: seq<nat>) {
    forall i, j :: 0 <= i < j < |sids| ==> sids[i] != sids[j]
  }

  /** The wanted blocks of a part hold every row of the part that the query selects. */
  lemma {:induction false} ScanHolds(bs: seq<Block>, sids: seq<nat>, lo: int, hi: int, p: Point)
    requires Ordered(bs) && forall b :: b in bs ==> WFBlock(b)
    ensures p in QueryResult.Trimmed(Scan(bs, sids, lo, hi), lo, hi) <==> p in Select(BlockPoints(bs), SetOf(sids), lo, hi)
  {
    hide Scan, Ordered;
    BlockSearch.ScanOrdered(bs, sids, lo, hi);
    if p in QueryResult.Trimmed(Scan(bs, sids, lo, hi), lo, hi) {
      var b :| b in Scan(bs, sids, lo, hi) && p in b.rows && lo <= p.ts <= hi;
      RowFacts(b, p);
    }
    if p in Select(BlockPoints(bs), SetOf(sids), lo, hi) {
      var b :| b in bs && p in b.rows;
      RowFacts(b, p);
      assert Wanted(b, sids, lo, hi);
    }
  }

  lemma RowFacts(b: Block, p: Point)
    requires WFBlock(b) && p in b.rows
    ensures p.sid == b.bm.sid && b.bm.min <= p.ts <= b.bm.max
  {
    var i :| 0 <= i < |b.rows| && b.rows[i] == p;
  }

  /** The rows of the blocks in a multiset inside the range. */
  ghost function TrimmedBag(bag: multiset<Block>, lo: int, hi: int): set<Point> {
    set b, p | b in bag && p in b.rows && lo <= p.ts <= hi :: p
  }

  lemma TrimmedSeq(bs: seq<Block>, lo: int, hi: int)
    ensures TrimmedBag(multiset(bs), lo, hi) == QueryResult.Trimmed(bs, lo, hi)
  {
    forall p ensures p in TrimmedBag(multiset(bs), lo, hi) <==> p in QueryResult.Trimmed(bs, lo, hi) {
      if p in TrimmedBag(multiset(bs), lo, hi) {
        var b :| b in multiset(bs) && p in b.rows && lo <= p.ts <= hi;
        assert b in bs;
      }
      if p in QueryResult.Trimmed(bs, lo, hi) {
        var b :| b in bs && p in b.rows && lo <= p.ts <= hi;
        assert b in multiset(bs);
      }
    }
  }

  lemma TrimmedSum(a: multiset<Block>, b: multiset<Block>, lo: int, hi: int)
    ensures TrimmedBag(a + b, lo, hi) == TrimmedBag(a, lo, hi) + TrimmedBag(b, lo, hi)
  {
    forall p ensures p in TrimmedBag(a + b, lo, hi) <==> p in TrimmedBag(a, lo, hi) + TrimmedBag(b, lo, hi) {
      if p in TrimmedBag(a + b, lo, hi) {
        var x :| x in a + b && p in x.rows && lo <= p.ts <= hi;
        assert x in a || x in b;
      }
      if p in TrimmedBag(a, lo, hi) {
        var x :| x in a && p in x.rows && lo <= p.ts <= hi;
        assert x in a + b;
      }
      if p in TrimmedBag(b, lo, hi) {
        var x :| x in b && p in x.rows && lo <= p.ts <= hi;
        assert x in a + b;
      }
    }
  }

  /** Pruning at part, primary and block level together loses no point of the query. */
  lemma {:induction false} NothingPruned(parts: seq<Part>, sids: seq<nat>, lo: int, hi: int)
    requires AllWFParts(parts)
    ensures TrimmedBag(BlockSearch.ScanParts(parts, sids, lo, hi), lo, hi) == Select(PartsPoints(parts), SetOf(sids), lo, hi)
    ensures forall b :: b in BlockSearch.ScanParts(parts, sids, lo, hi) ==> WFBlock(b) && b.bm.sid in SetOf(sids)
    ensures AllIndexed(parts)
  {
    hide TrimmedBag, Scan, IndexedPart, WFBlock, BlockPoints, Flat;
    if parts == [] {
      TrimmedSeq([], lo, hi);
      assert multiset([]) == BlockSearch.ScanParts(parts, sids, lo, hi);
    } else {
      assert WFPart(parts[0]);
      var bs := Flat(parts[0].primaries);
      NothingPruned(parts[1..], sids, lo, hi);
      TrimmedSum(multiset(Scan(bs, sids, lo, hi)), BlockSearch.ScanParts(parts[1..], sids, lo, hi), lo, hi);
      TrimmedSeq(Scan(bs, sids, lo, hi), lo, hi);
      OnePart(parts[0], sids, lo, hi);
      assert Select(PartsPoints(parts), SetOf(sids), lo, hi) ==
             Select(BlockPoints(bs), SetOf(sids), lo, hi) + Select(PartsPoints(parts[1..]), SetOf(sids), lo, hi);
      forall b | b in BlockSearch.ScanParts(parts, sids, lo, hi) ensures WFBlock(b) && b.bm.sid in SetOf(sids) {
        assert b in multiset(Scan(bs, sids, lo, hi)) || b in BlockSearch.ScanParts(parts[1..], sids, lo, hi);
        assert b in multiset(Scan(bs, sids, lo, hi)) ==> b in Scan(bs, sids, lo, hi);
      }
    }
  }

  lemma {:induction false} OnePart(p: Part, sids: seq<nat>, lo: int, hi: int)
    requires WFPart(p)
    ensures QueryResult.Trimmed(Scan(Flat(p.primaries), sids, lo, hi), lo, hi) == Select(BlockPoints(Flat(p.primaries)), SetOf(sids), lo, hi)
    ensures forall b :: b in Scan(Flat(p.primaries), sids, lo, hi) ==> WFBlock(b) && b.bm.sid in SetOf(sids)
  {
    hide Scan, Flat, WFBlock, Ordered, ExactRange, WFIndex, RowCount, ExactBlock;
    var bs := Flat(p.primaries);
    BlockSearch.ScanOrdered(bs, sids, lo, hi);
    forall x ensures x in QueryResult.Trimmed(Scan(bs, sids, lo, hi), lo, hi) <==> x in Select(BlockPoints(bs), SetOf(sids), lo, hi) {
      ScanHolds(bs, sids, lo, hi, x);
    }
  }

  lemma AscendingExists(s: seq<nat>) returns (r: seq<nat>)
    ensures multiset(r) == multiset(s) && Ascending(r)
  {
    var less := (a: nat, b: nat) => a < b;
    r := Collections.SortExists(s, less);
    assert forall i, j :: 0 <= i < j < |r| ==> !less(r[j], r[i]);
  }

  /** The position of every series in the request. */
  method Positions(sids: seq<nat>) returns (index: map<nat, nat>)
    requires Distinct(sids)
    ensures forall i :: 0 <= i < |sids| ==> sids[i] in index && index[sids[i]] == i
  {
    index := map[];
    var i := 0;
    while i < |sids|
      invariant 0 <= i <= |sids|
      invariant forall k :: 0 <= k < i ==> sids[k] in index && index[sids[k]] == k
    {
      index := index[sids[i] := i];
      i := i + 1;
    }
  }

  function OrderOf(req: Requested, index: map<nat, nat>): Order {
    match req
    case Time(asc) => ByTime(asc)
    case Index => BySeries(index)
  }

  lemma PositionsSeparate(sids: seq<nat>, index: map<nat, nat>, req: Requested)
    requires forall i :: 0 <= i < |sids| ==> sids[i] in index && index[sids[i]] == i
    ensures Separates(OrderOf(req, index), SetOf(sids))
  {
  }

  lemma SameSeries(a: seq<nat>, b: seq<nat>)
    requires multiset(a) == multiset(b)
    ensures SetOf(a) == SetOf(b)
  {
    Collections.Permuted(a, b);
  }

  /**
    The answer to a request, in its own terms: only selected points; for every selected point a row of its
    series and timestamp that is as new; one row for each of these; and the rows in the requested order.
   */
  ghost predicate Answers(rows: seq<Point>, ps: set<Point>, sids: seq<nat>, lo: int, hi: int, req: Requested) {
    && (forall p :: p in rows ==> p in ps && p.sid in sids && lo <= p.ts <= hi)
    && (forall p :: p in ps && p.sid in sids && lo <= p.ts <= hi ==>
          exists q :: q in rows && q.sid == p.sid && q.ts == p.ts && p.version <= q.version)
    && (forall i, j :: 0 <= i < j < |rows| ==> InOrder(rows[i], rows[j], sids, req))
  }

  /** By time, and by series at one time; or by the place of the series in the request, and by time within one. */
  ghost predicate InOrder(p: Point, q: Point, sids: seq<nat>, req: Requested) {
    match req
    case Time(true) => p.ts < q.ts || (p.ts == q.ts && p.sid < q.sid)
    case Time(false) => p.ts > q.ts || (p.ts == q.ts && p.sid < q.sid)
    case Index => exists i, j :: 0 <= i <= j < |sids| && sids[i] == p.sid && sids[j] == q.sid && (i < j || p.ts < q.ts)
  }

  /** An answer in the order made for a request answers the request. */
  lemma AnswerMeans(rows: seq<Point>, ps: set<Point>, sids: seq<nat>, lo: int, hi: int, req: Requested, ord: Order)
    requires IsAnswer(rows, ps, SetOf(sids), lo, hi, ord)
    requires req.Time? ==> ord == ByTime(req.asc)
    requires req.Index? ==> ord.BySeries? && forall i :: 0 <= i < |sids| ==> sids[i] in ord.index && ord.index[sids[i]] == i
    ensures Answers(rows, ps, sids, lo, hi, req)
  {
    forall p | p in rows ensures p in ps && p.sid in sids && lo <= p.ts <= hi {
      assert p in Elems(rows);
    }
    forall p | p in ps && p.sid in sids && lo <= p.ts <= hi
      ensures exists q :: q in rows && q.sid == p.sid && q.ts == p.ts && p.version <= q.version
    {
      assert CoveredBy(p, Elems(rows));
    }
    forall i, j | 0 <= i < j < |rows| ensures InOrder(rows[i], rows[j], sids, req) {
      assert rows[i] in Elems(rows) && rows[j] in Elems(rows);
      assert Before(ord, rows[i], rows[j]);
      OrderMeans(rows[i], rows[j], sids, req, ord);
    }
  }

  lemma OrderMeans(p: Point, q: Point, sids: seq<nat>, req: Requested, ord: Order)
    requires Before(ord, p, q) && p.sid in sids && q.sid in sids
    requires req.Time? ==> ord == ByTime(req.asc)
    requires req.Index? ==> ord.BySeries? && forall i :: 0 <= i < |sids| ==> sids[i] in ord.index && ord.index[sids[i]] == i
    ensures InOrder(p, q, sids, req)
  {
    if req.Index? {
      var i :| 0 <= i < |sids| && sids[i] == p.sid;
      var j :| 0 <= j < |sids| && sids[j] == q.sid;
      assert Position(ord.index, p.sid) == i && Position(ord.index, q.sid) == j;
    }
  }

  /**
    Answers a query over the parts of a snapshot.  `rows` is the concatenation of all pulled
    results; it is the sorted resolved view of the selected points.
   */
  method Run(parts: seq<Part>, sids: seq<nat>, lo: int, hi: int, req: Requested)
    returns (rows: seq<Point>, ord: Order)
    requires AllWFParts(parts) && Distinct(sids)
    ensures req.Time? ==> ord == ByTime(req.asc)
    ensures req.Index? ==> ord.BySeries? && forall i :: 0 <= i < |sids| ==> sids[i] in ord.index && ord.index[sids[i]] == i
    ensures IsAnswer(rows, PartsPoints(parts), SetOf(sids), lo, hi, ord)
    ensures Answers(rows, PartsPoints(parts), sids, lo, hi, req)
  {
    hide AllWFParts, Ascending, PartsPoints, SetOf, Distinct, Select, TrimmedBag, Refines, StrictlySorted, Separates, Answers;
    var index := Positions(sids);
    PositionsSeparate(sids, index, req);
    ord := OrderOf(req, index);
    NothingPruned(parts, sids, lo, hi);
    var chosen := BlockSearch.GetParts(parts, lo, hi);
    ghost var w := AscendingExists(sids);
    var sorted: seq<nat> :| multiset(sorted) == multiset(sids) && Ascending(sorted);
    SameSeries(sorted, sids);
    NothingPruned(parts, sorted, lo, hi);
    var found := BlockSearch.SearchBlocks(chosen, sorted, lo, hi);
    TrimmedSeq(found, lo, hi);
    FoundGood(found, BlockSearch.ScanParts(parts, sorted, lo, hi), SetOf(sids));
    var results;
    results, rows := QueryResult.PullAll(found, lo, hi, ord, SetOf(sids));
    AnswerMeans(rows, PartsPoints(parts), sids, lo, hi, req, ord);
  }

  lemma FoundGood(found: seq<Block>, bag: multiset<Block>, sids: set<nat>)
    requires multiset(found) == bag
    requires forall b :: b in bag ==> WFBlock(b) && b.bm.sid in sids
    ensures QueryResult.AllOf(found, sids)
  {
    hide WFBlock;
    forall b | b in found ensures WFBlock(b) && b.bm.sid in sids {
      assert b in multiset(found);
    }
  }
}
