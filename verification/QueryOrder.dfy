/**
  What a query answers: the selected points, one row of greatest version per series and
  timestamp, in the requested order.
 */
module QueryOrder {
  import opened Points

  /** By timestamp (ascending or descending), or by the position of the series in the request. */
  datatype Order = ByTime(asc: bool) | BySeries(index: map<nat, nat>)

  /** The source's map lookup: an absent series has position 0. */
  function Position(index: map<nat, nat>, sid: nat): nat {
    if sid in index then index[sid] else 0
  }

  /** Strictly earlier in the answer; versions play no part. */
  predicate Before(ord: Order, p: Point, q: Point) {
    match ord
    case ByTime(asc) => if p.ts == q.ts then p.sid < q.sid else asc == (p.ts < q.ts)
    case BySeries(index) =>
      if Position(index, p.sid) == Position(index, q.sid) then p.ts < q.ts
      else Position(index, p.sid) < Position(index, q.sid)
  }

  /** The heap order: as `Before`, and newer versions first among rows of one key. */
  predicate Less(ord: Order, p: Point, q: Point) {
    match ord
    case ByTime(asc) =>
      if p.ts == q.ts then
        if p.sid == q.sid then p.version > q.version else p.sid < q.sid
      else asc == (p.ts < q.ts)
    case BySeries(index) =>
      if Position(index, p.sid) == Position(index, q.sid) then
        if p.ts == q.ts then p.version > q.version else p.ts < q.ts
      else Position(index, p.sid) < Position(index, q.sid)
  }

  /** Distinct requested series have distinct positions. */
  ghost predicate Separates(ord: Order, sids: set<nat>) {
    ord.BySeries? ==> forall a, b :: a in sids && b in sids && Position(ord.index, a) == Position(ord.index, b) ==> a == b
  }

  ghost predicate StrictlySorted(ord: Order, s: seq<Point>) {
    forall i, j :: 0 <= i < j < |s| ==> Before(ord, s[i], s[j])
  }

  /** The points a query asks for. */
  ghost function Select(ps: set<Point>, sids: set<nat>, lo: int, hi: int): set<Point> {
    set p | p in ps && p.sid in sids && lo <= p.ts <= hi
  }

  /** `rows` answers the query over `ps`. */
  ghost predicate IsAnswer(rows: seq<Point>, ps: set<Point>, sids: set<nat>, lo: int, hi: int, ord: Order) {
    StrictlySorted(ord, rows) && Refines(Elems(rows), Select(ps, sids, lo, hi))
  }

  // ---------- the order ----------

  lemma BeforeTransitive(ord: Order, p: Point, q: Point, r: Point)
    requires Before(ord, p, q) && Before(ord, q, r)
    ensures Before(ord, p, r)
  {
  }

  lemma NotLessTransitive(ord: Order, p: Point, q: Point, r: Point)
    requires !Less(ord, q, p) && !Less(ord, r, q)
    ensures !Less(ord, r, p)
  {
  }

  /** A heap-least point is before every other one, or covers it. */
  lemma LeastMeans(ord: Order, p: Point, q: Point, sids: set<nat>)
    requires !Less(ord, q, p) && Separates(ord, sids) && p.sid in sids && q.sid in sids
    ensures Before(ord, p, q) || Covers(p, q)
  {
  }

  lemma BeforeMeans(ord: Order, p: Point, q: Point)
    requires Before(ord, p, q)
    ensures !SameKey(p, q) && !Less(ord, q, p)
  {
  }

  // ---------- answers ----------

  /** Selecting commutes with reduction. */
  lemma SelectRefines(qs: set<Point>, ps: set<Point>, sids: set<nat>, lo: int, hi: int)
    requires Refines(qs, ps)
    ensures Refines(Select(qs, sids, lo, hi), Select(ps, sids, lo, hi))
  {
    forall p | p in Select(ps, sids, lo, hi) ensures CoveredBy(p, Select(qs, sids, lo, hi)) {
      assert CoveredBy(p, qs);
      var q :| q in qs && Covers(q, p);
      assert q in Select(qs, sids, lo, hi);
    }
  }

  /** An answer over a reduction is an answer over the whole. */
  lemma AnswerTransfers(rows: seq<Point>, qs: set<Point>, ps: set<Point>, sids: set<nat>, lo: int, hi: int, ord: Order)
    requires IsAnswer(rows, qs, sids, lo, hi, ord) && Refines(qs, ps)
    ensures IsAnswer(rows, ps, sids, lo, hi, ord)
  {
    SelectRefines(qs, ps, sids, lo, hi);
    RefinesTransitive(Elems(rows), Select(qs, sids, lo, hi), Select(ps, sids, lo, hi));
  }

  lemma KeysDiffer(ord: Order, rows: seq<Point>)
    requires StrictlySorted(ord, rows)
    ensures forall i, j :: 0 <= i < j < |rows| ==> !SameKey(rows[i], rows[j])
  {
    forall i, j | 0 <= i < j < |rows| ensures !SameKey(rows[i], rows[j]) {
      BeforeMeans(ord, rows[i], rows[j]);
    }
  }

  /** Each answered row has the greatest version of its key, and every selected key is answered. */
  lemma AnswerMeaning(rows: seq<Point>, ps: set<Point>, sids: set<nat>, lo: int, hi: int, ord: Order, p: Point)
    requires IsAnswer(rows, ps, sids, lo, hi, ord)
    ensures p in rows ==> p in ps && p.sid in sids && lo <= p.ts <= hi && IsMaxVersion(ps, p.sid, p.ts, p.version)
    ensures p in ps && p.sid in sids && lo <= p.ts <= hi ==> exists i :: 0 <= i < |rows| && SameKey(rows[i], p)
  {
    var sel := Select(ps, sids, lo, hi);
    if p in rows {
      assert p in Elems(rows);
      forall q | q in ps && q.sid == p.sid && q.ts == p.ts ensures q.version <= p.version {
        assert CoveredBy(q, Elems(rows));
        var r :| r in Elems(rows) && Covers(r, q);
        KeysDiffer(ord, rows);
        var i :| 0 <= i < |rows| && rows[i] == p;
        var j :| 0 <= j < |rows| && rows[j] == r;
        assert i == j;
      }
    }
    if p in sel {
      assert CoveredBy(p, Elems(rows));
      var r :| r in Elems(rows) && Covers(r, p);
      var i :| 0 <= i < |rows| && rows[i] == r;
    }
  }

  /** The first row of an answer is no later than any row of another answer. */
  lemma FirstMatches(r1: seq<Point>, r2: seq<Point>, ps: set<Point>, sids: set<nat>, lo: int, hi: int, ord: Order, k: nat)
    requires IsAnswer(r1, ps, sids, lo, hi, ord) && IsAnswer(r2, ps, sids, lo, hi, ord)
    requires k < |r1|
    requires forall i :: 0 <= i < k ==> i < |r2| && SameKey(r1[i], r2[i])
    ensures exists j :: k <= j < |r2| && SameKey(r1[k], r2[j])
  {
    AnswerMeaning(r1, ps, sids, lo, hi, ord, r1[k]);
    AnswerMeaning(r2, ps, sids, lo, hi, ord, r1[k]);
    KeysDiffer(ord, r1);
    forall i | 0 <= i < k ensures !SameKey(r2[i], r1[k]) {
      assert SameKey(r1[i], r2[i]) && !SameKey(r1[i], r1[k]);
    }
    var j :| 0 <= j < |r2| && SameKey(r2[j], r1[k]);
  }

  /** The answer is determined: any two agree on length, keys and versions. */
  lemma {:induction false} AnswerUnique(r1: seq<Point>, r2: seq<Point>, ps: set<Point>, sids: set<nat>, lo: int, hi: int,
                                        ord: Order, k: nat)
    requires IsAnswer(r1, ps, sids, lo, hi, ord) && IsAnswer(r2, ps, sids, lo, hi, ord)
    requires k <= |r1|
    ensures k <= |r2| && forall i :: 0 <= i < k ==> SameKey(r1[i], r2[i]) && r1[i].version == r2[i].version
  {
    if k > 0 {
      AnswerUnique(r1, r2, ps, sids, lo, hi, ord, k - 1);
      var n := k - 1;
      FirstMatches(r1, r2, ps, sids, lo, hi, ord, n);
      var j :| n <= j < |r2| && SameKey(r1[n], r2[j]);
      FirstMatches(r2, r1, ps, sids, lo, hi, ord, n);
      var l :| n <= l < |r1| && SameKey(r2[n], r1[l]);
      SameRank(ord, r1, r2, n, j, l);
      AnswerMeaning(r1, ps, sids, lo, hi, ord, r1[n]);
      AnswerMeaning(r2, ps, sids, lo, hi, ord, r2[n]);
    }
  }

  lemma SameRank(ord: Order, r1: seq<Point>, r2: seq<Point>, n: nat, j: nat, l: nat)
    requires StrictlySorted(ord, r1) && StrictlySorted(ord, r2)
    requires n <= j < |r2| && n <= l < |r1| && SameKey(r1[n], r2[j]) && SameKey(r2[n], r1[l])
    ensures SameKey(r1[n], r2[n])
  {
    assert n < j ==> Before(ord, r2[n], r2[j]);
    assert n < l ==> Before(ord, r1[n], r1[l]);
  }
}
