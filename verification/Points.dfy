/**
  Data points, and what it means for one collection of points to stand for another.

  A measure keeps, for every series and timestamp, the row of the greatest version.  Parts,
  blocks and snapshots may hold several rows for one (series, timestamp), so two collections
  are compared through `Refines`: nothing is invented, and for every point there is a point of
  the same key whose version is at least as great.  Rows of equal version are interchangeable.
 */
module Points {

  newtype byte = x: int | 0 <= x < 256

  type Bytes = seq<byte>

  /** The cells of a row: (tag family, or none for a field, and column name) to value; nil cells are absent. */
  type Payload = map<(Option<string>, string), Bytes>

  /** One row, together with the series it belongs to. */
  datatype Point = Point(sid: nat, ts: int, version: int, data: Payload)

  datatype Option<+T> = None | Some(value: T)

  predicate SameKey(p: Point, q: Point) {
    p.sid == q.sid && p.ts == q.ts
  }

  /** `q` may stand for `p`: same series and timestamp, version at least as great. */
  predicate Covers(q: Point, p: Point) {
    SameKey(p, q) && p.version <= q.version
  }

  ghost predicate CoveredBy(p: Point, qs: set<Point>) {
    exists q :: q in qs && Covers(q, p)
  }

  ghost predicate Dominates(qs: set<Point>, ps: set<Point>) {
    forall p {:trigger CoveredBy(p, qs)} :: p in ps ==> CoveredBy(p, qs)
  }

  /** `qs` is a meaning-preserving reduction of `ps`. */
  ghost predicate Refines(qs: set<Point>, ps: set<Point>) {
    qs <= ps && Dominates(qs, ps)
  }

  /** `v` is the greatest version held for the key of `p`. */
  ghost predicate IsMaxVersion(ps: set<Point>, sid: nat, ts: int, v: int) {
    && (exists p :: p in ps && p.sid == sid && p.ts == ts && p.version == v)
    && (forall p :: p in ps && p.sid == sid && p.ts == ts ==> p.version <= v)
  }

  ghost function Elems(s: seq<Point>): set<Point> {
    set p | p in s
  }

  // ---------- algebra of Refines ----------

  lemma RefinesReflexive(ps: set<Point>)
    ensures Refines(ps, ps)
  {
    forall p | p in ps ensures CoveredBy(p, ps) {
      assert Covers(p, p);
    }
  }

  lemma DominatesTransitive(rs: set<Point>, qs: set<Point>, ps: set<Point>)
    requires Dominates(rs, qs) && Dominates(qs, ps)
    ensures Dominates(rs, ps)
  {
    forall p | p in ps ensures CoveredBy(p, rs) {
      assert CoveredBy(p, qs);
      var q :| q in qs && Covers(q, p);
      assert CoveredBy(q, rs);
      var r :| r in rs && Covers(r, q);
      assert Covers(r, p);
    }
  }

  lemma RefinesTransitive(rs: set<Point>, qs: set<Point>, ps: set<Point>)
    requires Refines(rs, qs) && Refines(qs, ps)
    ensures Refines(rs, ps)
  {
    DominatesTransitive(rs, qs, ps);
  }

  lemma DominatesGrows(qs: set<Point>, ps: set<Point>, qs': set<Point>, ps': set<Point>)
    requires Dominates(qs, ps) && qs <= qs' && ps' <= ps
    ensures Dominates(qs', ps')
  {
    forall p | p in ps' ensures CoveredBy(p, qs') {
      assert CoveredBy(p, qs);
    }
  }

  lemma DominatesUnion(q1: set<Point>, p1: set<Point>, q2: set<Point>, p2: set<Point>)
    requires Dominates(q1, p1) && Dominates(q2, p2)
    ensures Dominates(q1 + q2, p1 + p2)
  {
    DominatesGrows(q1, p1, q1 + q2, p1);
    DominatesGrows(q2, p2, q1 + q2, p2);
  }

  /** Reducing two collections separately reduces their union. */
  lemma RefinesUnion(q1: set<Point>, p1: set<Point>, q2: set<Point>, p2: set<Point>)
    requires Refines(q1, p1) && Refines(q2, p2)
    ensures Refines(q1 + q2, p1 + p2)
  {
    DominatesUnion(q1, p1, q2, p2);
  }

  /** Refinement preserves the greatest version of every key, in both directions. */
  lemma RefinesKeepsMaxVersion(qs: set<Point>, ps: set<Point>, sid: nat, ts: int, v: int)
    requires Refines(qs, ps)
    ensures IsMaxVersion(qs, sid, ts, v) <==> IsMaxVersion(ps, sid, ts, v)
  {
    if IsMaxVersion(qs, sid, ts, v) {
      forall p | p in ps && p.sid == sid && p.ts == ts ensures p.version <= v {
        assert CoveredBy(p, qs);
      }
    }
    if IsMaxVersion(ps, sid, ts, v) {
      var p :| p in ps && p.sid == sid && p.ts == ts && p.version == v;
      assert CoveredBy(p, qs);
      var q :| q in qs && Covers(q, p);
      assert q.version == v;
    }
  }

  // ---------- sequences ----------

  lemma ElemsConcat(s: seq<Point>, t: seq<Point>)
    ensures Elems(s + t) == Elems(s) + Elems(t)
  {
  }

  lemma ElemsSplit(s: seq<Point>, i: nat, j: nat)
    requires i <= j <= |s|
    ensures Elems(s[i..]) == Elems(s[i..j]) + Elems(s[j..])
  {
    assert s[i..] == s[i..j] + s[j..];
  }

  /** Timestamps strictly increase, so no two rows share one. */
  predicate StrictTs(s: seq<Point>) {
    forall i, j :: 0 <= i < j < |s| ==> s[i].ts < s[j].ts
  }

  lemma StrictTsConcat(s: seq<Point>, t: seq<Point>)
    requires StrictTs(s) && StrictTs(t)
    requires s != [] && t != [] ==> s[|s| - 1].ts < t[0].ts
    ensures StrictTs(s + t)
  {
    forall i, j | 0 <= i < j < |s + t| ensures (s + t)[i].ts < (s + t)[j].ts {
      if i < |s| <= j {
        assert s[i].ts <= s[|s| - 1].ts && t[0].ts <= t[j - |s|].ts;
      }
    }
  }

  predicate OfSeries(sid: nat, s: seq<Point>) {
    forall i :: 0 <= i < |s| ==> s[i].sid == sid
  }
}
