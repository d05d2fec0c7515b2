/**
  Building a memory part from written data points: sort, drop repeated (series, timestamp) pairs
  in place while stepping the index back, and cut the rest into blocks.
 */
module MemPart {
  import opened Points
  import opened Schemas
  import opened Parts
  import opened BlockWriter
  import opened PartMerge
  import Collections

  /** The sort order of data points: series, timestamp, then newest version first. */
  predicate Less(a: Point, b: Point) {
    if a.sid != b.sid then a.sid < b.sid
    else if a.ts != b.ts then a.ts < b.ts
    else a.version > b.version
  }

  predicate Sorted(s: seq<Point>) {
    forall i, j :: 0 <= i < j < |s| ==> !Less(s[j], s[i])
  }

  predicate KeyLt(a: Point, b: Point) {
    a.sid < b.sid || (a.sid == b.sid && a.ts < b.ts)
  }

  /** Strictly increasing by series and timestamp: one row per key. */
  predicate StrictKeys(s: seq<Point>) {
    forall i, j :: 0 <= i < j < |s| ==> KeyLt(s[i], s[j])
  }

  ghost function RowsOf(bs: seq<Block>): seq<Point> {
    if bs == [] then [] else bs[0].rows + RowsOf(bs[1..])
  }

  lemma {:induction false} RowsOfHead(a: seq<Block>)
    ensures RowsOf(a) == if a == [] then [] else a[0].rows + RowsOf(a[1..])
  {
  }

  lemma {:induction false} RowsOfConcat(a: seq<Block>, b: seq<Block>)
    ensures RowsOf(a + b) == RowsOf(a) + RowsOf(b)
  {
    hide RowsOf;
    RowsOfHead(a);
    RowsOfHead(a + b);
    if a == [] {
      assert a + b == b;
    } else {
      RowsOfConcat(a[1..], b);
      assert (a + b)[1..] == a[1..] + b;
    }
  }

  class DataPoints {
    var pts: seq<Point>

    /** sort.Sort: some sorted permutation; the order of equal elements is left open. */
    method Sort()
      modifies this
      ensures multiset(pts) == multiset(old(pts)) && Sorted(pts)
    {
      ghost var r := Collections.SortExists(pts, Less);
      assert Sorted(r);
      var s: seq<Point> :| multiset(s) == multiset(pts) && Sorted(s);
      pts := s;
    }

    /** Deletes the i-th data point. */
    method Skip(i: nat)
      modifies this
      ensures pts == if |old(pts)| <= i then old(pts) else old(pts)[..i] + old(pts)[i + 1..]
    {
      if |pts| <= i {
        return;
      }
      pts := pts[..i] + pts[i + 1..];
    }
  }

  /** The least series of `ps` has a least timestamp of zero, the value that marks "no timestamp yet". */
  ghost predicate StartsAtZero(ps: set<Point>) {
    exists p :: p in ps && p.ts == 0 && forall q :: q in ps ==> !KeyLt(q, p)
  }

  // ---------- the loop, on values ----------

  /** The points of `s` that the loop does not mistake for a repetition of timestamp zero. */
  ghost function Kept(s: seq<Point>): set<Point> {
    set p | p in s && !(s[0].ts == 0 && SameKey(s[0], p))
  }

  /** `done` holds exactly one greatest-version point for every key of the consumed prefix `used`. */
  ghost predicate Deduped(s: seq<Point>, used: seq<Point>, done: seq<Point>) {
    && StrictKeys(done)
    && Elems(done) <= Elems(used)
    && (forall p :: p in done ==> p in Kept(s))
    && (forall p {:trigger CoveredBy(p, Elems(done))} :: p in used && p in Kept(s) ==> CoveredBy(p, Elems(done)))
  }

  /** `sidPrev` and `tsPrev` name the last kept point, or the zero timestamp while nothing is kept. */
  ghost predicate Prev(s: seq<Point>, used: seq<Point>, done: seq<Point>, sidPrev: nat, tsPrev: int) {
    && (used == [] ==> sidPrev == 0 && tsPrev == 0 && done == [])
    && (used != [] ==> sidPrev == used[|used| - 1].sid)
    && (done != [] ==> sidPrev == done[|done| - 1].sid && tsPrev == done[|done| - 1].ts)
    && (done == [] && used != [] ==> tsPrev == 0 && s != [] && s[0].ts == 0 && forall i :: 0 <= i < |used| ==> SameKey(s[0], used[i]))
  }

  /** A point of the key just kept is older than the kept one. */
  lemma SkipStep(s: seq<Point>, used: seq<Point>, rest: seq<Point>, done: seq<Point>, sidPrev: nat, tsPrev: int)
    requires s == used + rest && rest != [] && Sorted(s)
    requires Deduped(s, used, done) && Prev(s, used, done, sidPrev, tsPrev)
    requires forall i :: 0 <= i < |s| ==> 0 < s[i].sid
    requires (sidPrev == 0 || sidPrev == rest[0].sid) && tsPrev == rest[0].ts
    ensures Deduped(s, used + [rest[0]], done)
    ensures Prev(s, used + [rest[0]], done, rest[0].sid, tsPrev)
  {
    var x := rest[0];
    if done == [] {
      assert SameKey(s[0], x) && s[0].ts == 0;
      assert x !in Kept(s);
    } else {
      var y := done[|done| - 1];
      assert y in Elems(done);
      assert y in used;
      var i :| 0 <= i < |used| && used[i] == y;
      assert s[i] == y && s[|used|] == x;
      assert y in Elems(done) && Covers(y, x);
      assert CoveredBy(x, Elems(done));
    }
    forall p | p in used + [x] && p in Kept(s) ensures CoveredBy(p, Elems(done)) {
      assert p in used || p == x;
    }
  }

  /** A point of a new key is kept. */
  lemma KeepStep(s: seq<Point>, used: seq<Point>, rest: seq<Point>, done: seq<Point>, sidPrev: nat, tsPrev: int)
    requires s == used + rest && rest != [] && Sorted(s)
    requires Deduped(s, used, done) && Prev(s, used, done, sidPrev, tsPrev)
    requires forall i :: 0 <= i < |s| ==> 0 < s[i].sid
    requires !((sidPrev == 0 || sidPrev == rest[0].sid) && tsPrev == rest[0].ts)
    ensures Deduped(s, used + [rest[0]], done + [rest[0]])
    ensures Prev(s, used + [rest[0]], done + [rest[0]], rest[0].sid, rest[0].ts)
  {
    var x := rest[0];
    var done' := done + [x];
    assert s[|used|] == x;
    assert x in Kept(s) by {
      if s[0].ts == 0 && SameKey(s[0], x) {
        ZeroKeyRun(s, used, done, x);
        assert false;
      }
    }
    if done != [] {
      var y := done[|done| - 1];
      assert y in Elems(done);
      var i :| 0 <= i < |used| && used[i] == y;
      assert s[i] == y && KeyLt(y, x);
    }
    KeysSnoc(done, x);
    ElemsConcat(done, [x]);
    ElemsConcat(used, [x]);
    forall p | p in used + [x] && p in Kept(s) ensures CoveredBy(p, Elems(done')) {
      if p == x {
        assert x in Elems(done') && Covers(x, x);
      } else {
        assert CoveredBy(p, Elems(done));
      }
    }
  }

  lemma KeysSnoc(done: seq<Point>, x: Point)
    requires StrictKeys(done) && (done != [] ==> KeyLt(done[|done| - 1], x))
    ensures StrictKeys(done + [x])
  {
    forall i | 0 <= i < |done| ensures KeyLt(done[i], x) {
      if i < |done| - 1 {
        assert KeyLt(done[i], done[|done| - 1]);
      }
    }
  }

  /** While the zero key lasts nothing is kept. */
  lemma ZeroKeyRun(s: seq<Point>, used: seq<Point>, done: seq<Point>, x: Point)
    requires Sorted(s) && used <= s && |used| < |s| && s[|used|] == x
    requires s[0].ts == 0 && SameKey(s[0], x)
    requires forall p :: p in done ==> p in Kept(s)
    requires Elems(done) <= Elems(used)
    ensures done == []
    ensures forall i :: 0 <= i < |used| ==> SameKey(s[0], used[i])
  {
    forall i | 0 <= i < |used| ensures SameKey(s[0], used[i]) {
      assert used[i] == s[i] && !Less(s[|used|], s[i]);
      assert i > 0 ==> !Less(s[i], s[0]);
    }
    assert forall p :: p in Elems(used) ==> p !in Kept(s);
    forall p | p in Elems(done) ensures p in Kept(s) { }
    assert Elems(done) <= Elems(used) * Kept(s) == {};
    HasElem(done);
  }

  lemma HasElem(s: seq<Point>)
    ensures s != [] ==> Elems(s) != {}
  {
    if s != [] {
      assert s[0] in Elems(s);
    }
  }

  // ---------- cutting into blocks ----------

  /** `written` holds `done` up to `from`; the rows from there on are one series and at most one over the maximum. */
  ghost predicate Segmented(written: seq<Block>, done: seq<Point>, from: nat, sid: nat) {
    && from <= |done| <= from + MAX_BLOCK_LENGTH + 1
    && RowsOf(written) == done[..from]
    && AllWF(written) && Short(written, MAX_BLOCK_LENGTH + 1)
    && (forall j :: from <= j < |done| ==> done[j].sid == sid)
    && (written != [] ==>
          0 < from && written[|written| - 1].bm.sid == done[from - 1].sid
          && written[|written| - 1].bm.min <= done[from - 1].ts)
  }

  /** The open segment may be written. */
  lemma SegmentWrite(w: Writer, done: seq<Point>, from: nat, sid: nat)
    requires w.Valid() && Segmented(w.written, done, from, sid) && StrictKeys(done)
    requires from < |done| ==> 0 < sid
    ensures w.InOrder(sid, done[from..]) && SortedTs(done[from..]) && OfSeries(sid, done[from..])
    ensures from < |done| ==> w.MetaOf(sid, done[from..]).sid == sid
    ensures from < |done| ==> forall s :: Named(done[from..], s) ==> WFBlock(Block(w.MetaOf(sid, done[from..]), done[from..], s))
  {
    hide Named, AllWF, Short, RowsOf, Ordered, AllExact, Flat, WFIndex, ExactRange, RowCount;
    var rows := done[from..];
    forall i, j | 0 <= i < j < |rows| ensures rows[i].ts < rows[j].ts {
      assert KeyLt(done[from + i], done[from + j]);
    }
    if rows != [] && w.written != [] {
      assert KeyLt(done[from - 1], done[from]);
    }
  }

  /** After writing the open segment, a new one starts with `x`. */
  lemma Cut(written: seq<Block>, done: seq<Point>, from: nat, sid: nat, x: Point, out: seq<Block>)
    requires Segmented(written, done, from, sid) && StrictKeys(done)
    requires from == |done| ==> out == []
    requires from < |done| ==> |out| == 1 && WFBlock(out[0]) && out[0].rows == done[from..] && out[0].bm.sid == sid
    ensures Segmented(written + out, done + [x], |done|, x.sid)
    ensures Segmented(written + out, done, |done|, x.sid)
  {
    hide RowsOf, WFBlock, StrictKeys;
    CutRows(written, done, from, out);
    if out != [] {
      SegmentMin(out[0]);
    }
    assert (done + [x])[..|done|] == done && done[..|done|] == done;
  }

  lemma {:induction false} CutRows(written: seq<Block>, done: seq<Point>, from: nat, out: seq<Block>)
    requires from <= |done| && RowsOf(written) == done[..from]
    requires if from == |done| then out == [] else |out| == 1 && out[0].rows == done[from..]
    ensures RowsOf(written + out) == done
  {
    hide RowsOf;
    RowsOfConcat(written, out);
    assert done[..from] + done[from..] == done;
    if out != [] {
      assert out == [out[0]];
      RowsOfOne(out[0]);
    } else {
      RowsOfNil();
    }
  }

  lemma RowsOfOne(b: Block)
    ensures RowsOf([b]) == b.rows
  {
    assert RowsOf([]) == [];
  }

  lemma RowsOfNil()
    ensures RowsOf([]) == []
  {
  }

  lemma SegmentMin(b: Block)
    requires WFBlock(b)
    ensures b.rows != [] && b.bm.min <= b.rows[|b.rows| - 1].ts
  {
  }

  /** The open segment grows by one row. */
  lemma Grow(written: seq<Block>, done: seq<Point>, from: nat, sid: nat, x: Point)
    requires Segmented(written, done, from, sid) && x.sid == sid && |done| - from <= MAX_BLOCK_LENGTH
    ensures Segmented(written, done + [x], from, sid)
  {
    hide AllWF, Short, RowsOf;
    assert (done + [x])[..from] == done[..from];
  }

  /** The last open segment has been written. */
  lemma {:induction false} Finished(written: seq<Block>, done: seq<Point>, from: nat, sid: nat, out: seq<Block>)
    requires Segmented(written, done, from, sid) && StrictKeys(done)
    requires from == |done| ==> out == []
    requires from < |done| ==> |out| == 1 && WFBlock(out[0]) && out[0].rows == done[from..] && out[0].bm.sid == sid
    ensures RowsOf(written + out) == done && AllWF(written + out) && Short(written + out, MAX_BLOCK_LENGTH + 1)
  {
    hide RowsOf, AllWF, Short, WFBlock;
    Cut(written, done, from, sid, Point(sid, 0, 0, map[]), out);
    assert done[..|done|] == done;
  }

  // ---------- where the cuts are ----------

  /** The cut blocks, the open one, and the size of its points so far. */
  datatype Cuts = Cuts(closed: seq<seq<Point>>, open: seq<Point>, size: nat)

  /** A new block starts once the open one is over the maximum length or at the maximum size, or for a new series. */
  function Cutting(done: seq<Point>, pointSize: Point -> nat): Cuts {
    if done == [] then Cuts([], [], 0)
    else
      var c, x := Cutting(done[..|done| - 1], pointSize), done[|done| - 1];
      if c.open != [] && (c.size >= MAX_UNCOMPRESSED_BLOCK_SIZE || |c.open| > MAX_BLOCK_LENGTH || x.sid != c.open[0].sid) then
        Cuts(c.closed + [c.open], [x], pointSize(x))
      else
        Cuts(c.closed, c.open + [x], c.size + pointSize(x))
  }

  function BlocksOf(done: seq<Point>, pointSize: Point -> nat): seq<seq<Point>> {
    var c := Cutting(done, pointSize);
    c.closed + if c.open == [] then [] else [c.open]
  }

  function RowLists(bs: seq<Block>): seq<seq<Point>> {
    seq(|bs|, i requires 0 <= i < |bs| => bs[i].rows)
  }

  /** Each block has the columns of its data points. */
  ghost predicate Labelled(bs: seq<Block>, schemaOf: seq<Point> -> Schema) {
    forall b :: b in bs ==> b.schema == schemaOf(b.rows)
  }

  /** Rows taken from these points have their cells in the columns they are given. */
  ghost predicate Labels(schemaOf: seq<Point> -> Schema, all: set<Point>) {
    forall rows :: Elems(rows) <= all ==> Named(rows, schemaOf(rows))
  }

  lemma SliceNamed(schemaOf: seq<Point> -> Schema, all: set<Point>, pts: seq<Point>, i: nat, j: nat)
    requires Labels(schemaOf, all) && Elems(pts) <= all && i <= j <= |pts|
    ensures Named(pts[i..j], schemaOf(pts[i..j]))
  {
    hide Named;
    assert Elems(pts[i..j]) <= Elems(pts);
  }

  lemma FewerElems(done: seq<Point>, rest: seq<Point>)
    requires rest != []
    ensures Elems(done + rest[1..]) <= Elems(done + rest)
  {
  }

  function TotalSize(rows: seq<Point>, pointSize: Point -> nat): nat {
    if rows == [] then 0 else TotalSize(rows[..|rows| - 1], pointSize) + pointSize(rows[|rows| - 1])
  }

  function Joined(bs: seq<seq<Point>>): seq<Point> {
    if bs == [] then [] else Joined(bs[..|bs| - 1]) + bs[|bs| - 1]
  }

  /** What may be one block: at most 8193 rows of one series, under two megabytes without the last. */
  predicate MayBeBlock(rows: seq<Point>, pointSize: Point -> nat) {
    && 0 < |rows| <= 8193 && OfSeries(rows[0].sid, rows)
    && TotalSize(rows[..|rows| - 1], pointSize) < 2097152
  }

  /** Rows of the same series after these make a new block only if there is no more room. */
  predicate MayFollow(rows: seq<Point>, next: seq<Point>, pointSize: Point -> nat) {
    rows != [] && next != [] && rows[0].sid == next[0].sid ==> |rows| == 8193 || 2097152 <= TotalSize(rows, pointSize)
  }

  /** The blocks are the rows in order, each is as long as it may be, and no longer. */
  ghost predicate CutWell(bs: seq<seq<Point>>, done: seq<Point>, pointSize: Point -> nat) {
    && Joined(bs) == done && (forall i :: 0 <= i < |bs| ==> MayBeBlock(bs[i], pointSize))
    && forall i :: 0 < i < |bs| ==> MayFollow(bs[i - 1], bs[i], pointSize)
  }

  /** `BlocksOf` cuts rows into blocks in this way. */
  lemma BlocksAreCutWell(done: seq<Point>, pointSize: Point -> nat)
    ensures CutWell(BlocksOf(done, pointSize), done, pointSize)
  {
    hide CutWell, StillOpen, Cutting;
    CutSoFar(done, pointSize);
    EndCut(Cutting(done, pointSize), done, pointSize);
  }

  lemma {:induction false} EndCut(c: Cuts, done: seq<Point>, pointSize: Point -> nat)
    requires StillOpen(c, done, pointSize)
    ensures CutWell(c.closed + if c.open == [] then [] else [c.open], done, pointSize)
  {
    if c.open == [] {
      assert c.closed + [] == [];
    } else {
      hide CutWell, MayBeBlock, MayFollow, TotalSize;
      CloseBlock(c.closed, Joined(c.closed), c.open, pointSize);
    }
  }

  lemma {:induction false} CloseBlock(bs: seq<seq<Point>>, done: seq<Point>, rows: seq<Point>, pointSize: Point -> nat)
    requires CutWell(bs, done, pointSize) && MayBeBlock(rows, pointSize)
    requires bs != [] ==> MayFollow(bs[|bs| - 1], rows, pointSize)
    ensures CutWell(bs + [rows], done + rows, pointSize) && Joined(bs + [rows]) == done + rows
  {
    hide MayBeBlock, MayFollow;
    assert (bs + [rows])[..|bs|] == bs;
  }

  /** The closed blocks are cut well, the open one may become a block, and its size is counted. */
  lemma {:induction false} CutSoFar(done: seq<Point>, pointSize: Point -> nat)
    ensures StillOpen(Cutting(done, pointSize), done, pointSize)
  {
    hide CutWell, MayBeBlock, MayFollow, Cutting, TotalSize;
    if done == [] {
      NothingCut(pointSize);
    } else {
      var init, x := done[..|done| - 1], done[|done| - 1];
      assert done == init + [x];
      CutSoFar(init, pointSize);
      CuttingSnoc(init, x, pointSize);
      var c := Cutting(init, pointSize);
      if c.open != [] && (c.size >= MAX_UNCOMPRESSED_BLOCK_SIZE || |c.open| > MAX_BLOCK_LENGTH || x.sid != c.open[0].sid) {
        StartBlock(c, init, x, pointSize);
      } else {
        GrowBlock(c, init, x, pointSize);
      }
    }
  }

  ghost predicate StillOpen(c: Cuts, done: seq<Point>, pointSize: Point -> nat) {
    && done == Joined(c.closed) + c.open && CutWell(c.closed, Joined(c.closed), pointSize)
    && c.size == TotalSize(c.open, pointSize) && (if c.open == [] then done == [] && c.closed == [] else MayBeBlock(c.open, pointSize))
    && (c.closed != [] ==> MayFollow(c.closed[|c.closed| - 1], c.open, pointSize))
  }

  lemma NothingCut(pointSize: Point -> nat)
    ensures StillOpen(Cutting([], pointSize), [], pointSize)
  {
  }

  lemma StartBlock(c: Cuts, done: seq<Point>, x: Point, pointSize: Point -> nat)
    requires StillOpen(c, done, pointSize) && c.open != []
    requires c.size >= 2097152 || |c.open| > 8192 || x.sid != c.open[0].sid
    ensures StillOpen(Cuts(c.closed + [c.open], [x], pointSize(x)), done + [x], pointSize)
  {
    hide CutWell, TotalSize, Joined;
    TotalSizeSnoc([], x, pointSize);
    CloseBlock(c.closed, Joined(c.closed), c.open, pointSize);
    assert [] + [x] == [x] && [x][..0] == [];
  }

  lemma {:induction false} MayGrow(open: seq<Point>, x: Point, pointSize: Point -> nat)
    requires open != [] ==> MayBeBlock(open, pointSize) && |open| <= 8192 && x.sid == open[0].sid
    requires open != [] ==> TotalSize(open, pointSize) < 2097152
    ensures MayBeBlock(open + [x], pointSize)
  {
    hide TotalSize;
    TotalSizeSnoc(open, x, pointSize);
    assert (open + [x])[..|open|] == open;
  }

  lemma MayStillFollow(rows: seq<Point>, open: seq<Point>, x: Point, pointSize: Point -> nat)
    requires open != [] && MayFollow(rows, open, pointSize)
    ensures MayFollow(rows, open + [x], pointSize)
  {
    hide TotalSize;
  }

  lemma GrowBlock(c: Cuts, done: seq<Point>, x: Point, pointSize: Point -> nat)
    requires StillOpen(c, done, pointSize)
    requires c.open != [] ==> c.size < 2097152 && |c.open| <= 8192 && x.sid == c.open[0].sid
    ensures StillOpen(Cuts(c.closed, c.open + [x], c.size + pointSize(x)), done + [x], pointSize)
  {
    hide CutWell, TotalSize, MayBeBlock, MayFollow, Joined;
    TotalSizeSnoc(c.open, x, pointSize);
    MayGrow(c.open, x, pointSize);
    if c.closed != [] {
      MayStillFollow(c.closed[|c.closed| - 1], c.open, x, pointSize);
    }
    assert Joined(c.closed) + c.open + [x] == Joined(c.closed) + (c.open + [x]);
  }

  lemma {:induction false} OneBlock(rows: seq<Point>, pointSize: Point -> nat, sid: nat)
    requires OfSeries(sid, rows) && |rows| <= MAX_BLOCK_LENGTH + 1
    requires rows != [] ==> TotalSize(rows[..|rows| - 1], pointSize) < MAX_UNCOMPRESSED_BLOCK_SIZE
    ensures Cutting(rows, pointSize) == Cuts([], rows, TotalSize(rows, pointSize))
  {
    if rows == [] {
    } else {
      hide Cutting;
      var init, x := rows[..|rows| - 1], rows[|rows| - 1];
      assert init != [] ==> init[..|init| - 1] == rows[..|init| - 1];
      TotalSizeGrows(init, pointSize);
      OneBlock(init, pointSize, sid);
      assert rows == init + [x];
      CuttingSnoc(init, x, pointSize);
    }
  }

  lemma {:induction false} TotalSizeSnoc(rows: seq<Point>, x: Point, pointSize: Point -> nat)
    ensures TotalSize(rows + [x], pointSize) == TotalSize(rows, pointSize) + pointSize(x) && TotalSize([], pointSize) == 0
  {
    assert (rows + [x])[..|rows|] == rows;
  }

  lemma {:induction false} TotalSizeGrows(rows: seq<Point>, pointSize: Point -> nat)
    ensures rows != [] ==> TotalSize(rows[..|rows| - 1], pointSize) <= TotalSize(rows, pointSize)
  {
  }

  /** One row more than the maximum still makes one block. */
  lemma OverlongBlock(rows: seq<Point>, pointSize: Point -> nat, sid: nat)
    requires OfSeries(sid, rows) && |rows| == 8193
    requires TotalSize(rows[..8192], pointSize) < 2097152
    ensures BlocksOf(rows, pointSize) == [rows]
  {
    OneBlock(rows, pointSize, sid);
  }

  /** `written` are the closed blocks, and the rows from `from` on the open one. */
  ghost predicate AtCut(written: seq<Block>, done: seq<Point>, from: nat, size: nat, pointSize: Point -> nat,
                        schemaOf: seq<Point> -> Schema)
  {
    from <= |done| && Cutting(done, pointSize) == Cuts(RowLists(written), done[from..], size) && Labelled(written, schemaOf)
  }

  lemma NoCut(pointSize: Point -> nat, schemaOf: seq<Point> -> Schema)
    ensures AtCut([], [], 0, 0, pointSize, schemaOf) && BlocksOf([], pointSize) == [] && RowLists([]) == []
    ensures Labelled([], schemaOf)
  {
  }

  lemma WithLast(written: seq<Block>, out: seq<Block>, rows: seq<Point>, schemaOf: seq<Point> -> Schema)
    requires Labelled(written, schemaOf)
    requires if rows == [] then out == [] else |out| == 1 && out[0].rows == rows && out[0].schema == schemaOf(rows)
    ensures Labelled(written + out, schemaOf)
    ensures RowLists(written + out) == RowLists(written) + if rows == [] then [] else [rows]
  {
  }

  /** The next row closes the open block. */
  lemma NextCut(written: seq<Block>, out: seq<Block>, done: seq<Point>, from: nat, sid: nat, size: nat, x: Point,
                pointSize: Point -> nat, schemaOf: seq<Point> -> Schema)
    requires AtCut(written, done, from, size, pointSize, schemaOf) && Segmented(written, done, from, sid)
    requires if from == |done| then out == []
             else |out| == 1 && out[0].rows == done[from..] && out[0].schema == schemaOf(done[from..])
    requires size >= MAX_UNCOMPRESSED_BLOCK_SIZE || |done| - from > MAX_BLOCK_LENGTH || x.sid != sid
    ensures AtCut(written + out, done + [x], |done|, pointSize(x), pointSize, schemaOf)
  {
    hide Cutting, Labelled, RowLists, AllWF, Short, RowsOf;
    WithLast(written, out, done[from..], schemaOf);
    CuttingSnoc(done, x, pointSize);
    assert (done + [x])[|done|..] == [x];
    if from == |done| {
      EmptyOpen(done, pointSize);
      assert written + out == written;
    }
  }

  /** The next row joins the open block. */
  lemma NextGrows(written: seq<Block>, done: seq<Point>, from: nat, sid: nat, size: nat, x: Point, pointSize: Point -> nat,
                  schemaOf: seq<Point> -> Schema)
    requires AtCut(written, done, from, size, pointSize, schemaOf) && Segmented(written, done, from, sid)
    requires size < MAX_UNCOMPRESSED_BLOCK_SIZE && |done| - from <= MAX_BLOCK_LENGTH && x.sid == sid
    ensures AtCut(written, done + [x], from, size + pointSize(x), pointSize, schemaOf)
  {
    hide Cutting, Labelled, RowLists, AllWF, Short, RowsOf;
    CuttingSnoc(done, x, pointSize);
    assert (done + [x])[from..] == done[from..] + [x];
  }

  lemma LastCut(written: seq<Block>, out: seq<Block>, done: seq<Point>, from: nat, size: nat, pointSize: Point -> nat,
                schemaOf: seq<Point> -> Schema)
    requires AtCut(written, done, from, size, pointSize, schemaOf)
    requires if from == |done| then out == []
             else |out| == 1 && out[0].rows == done[from..] && out[0].schema == schemaOf(done[from..])
    ensures RowLists(written + out) == BlocksOf(done, pointSize) && Labelled(written + out, schemaOf)
  {
    hide Cutting, Labelled, RowLists;
    WithLast(written, out, done[from..], schemaOf);
  }

  lemma {:induction false} CuttingSnoc(done: seq<Point>, x: Point, pointSize: Point -> nat)
    ensures var c := Cutting(done, pointSize);
      Cutting(done + [x], pointSize) ==
      if c.open != [] && (c.size >= MAX_UNCOMPRESSED_BLOCK_SIZE || |c.open| > MAX_BLOCK_LENGTH || x.sid != c.open[0].sid) then
        Cuts(c.closed + [c.open], [x], pointSize(x))
      else
        Cuts(c.closed, c.open + [x], c.size + pointSize(x))
  {
    assert (done + [x])[..|done|] == done;
  }

  /** Only nothing leaves no block open. */
  lemma {:induction false} EmptyOpen(done: seq<Point>, pointSize: Point -> nat)
    requires Cutting(done, pointSize).open == []
    ensures Cutting(done, pointSize) == Cuts([], [], 0)
  {
  }

  lemma SegmentedAny(written: seq<Block>, done: seq<Point>, from: nat, sid: nat, sid': nat)
    requires Segmented(written, done, from, sid) && from == |done|
    ensures Segmented(written, done, from, sid')
  {
    hide AllWF, Short, RowsOf;
  }

  lemma StartFacts(s: seq<Point>)
    ensures Deduped(s, [], []) && Prev(s, [], [], 0, 0) && Segmented([], [], 0, 0)
  {
    hide Kept;
  }

  /** Nothing has been consumed yet, or the previous series is known. */
  lemma PrevSeries(s: seq<Point>, used: seq<Point>, done: seq<Point>, sidPrev: nat, tsPrev: int)
    requires Deduped(s, used, done) && Prev(s, used, done, sidPrev, tsPrev) && used <= s
    requires forall i :: 0 <= i < |s| ==> 0 < s[i].sid
    ensures sidPrev == 0 ==> used == [] && done == []
    ensures StrictKeys(done)
  {
    if used != [] {
      assert used[|used| - 1] == s[|used| - 1];
    }
  }

  lemma SamePoints(input: seq<Point>, s: seq<Point>)
    requires multiset(input) == multiset(s)
    requires forall p :: p in input ==> 0 < p.sid
    ensures Elems(s) == Elems(input)
    ensures forall i :: 0 <= i < |s| ==> 0 < s[i].sid
    ensures |s| == |input|
  {
    Collections.Permuted(input, s);
    forall i | 0 <= i < |s| ensures 0 < s[i].sid {
      assert s[i] in s;
    }
  }

  /** What is kept stands for the input exactly when the zero timestamp does not come first. */
  lemma Result(s: seq<Point>, done: seq<Point>)
    requires s != [] && Sorted(s) && Deduped(s, s, done)
    ensures Elems(done) <= Elems(s)
    ensures Refines(Elems(done), Elems(s)) <==> !StartsAtZero(Elems(s))
  {
    assert s[0] in Elems(s);
    forall q | q in Elems(s) ensures !KeyLt(q, s[0]) {
      var i :| 0 <= i < |s| && s[i] == q;
      assert i > 0 ==> !Less(s[i], s[0]);
    }
    if s[0].ts == 0 {
      forall q | q in Elems(done) ensures !Covers(q, s[0]) {
        assert q in Kept(s);
      }
      assert !CoveredBy(s[0], Elems(done));
      assert StartsAtZero(Elems(s));
    } else {
      forall p | p in Elems(s) ensures CoveredBy(p, Elems(done)) {
        assert p in Kept(s);
      }
      assert forall p :: p in Elems(s) && p.ts == 0 ==> KeyLt(s[0], p);
    }
  }

  /** A single point at timestamp zero is such a start: it is dropped. */
  lemma ZeroTimestampIsDropped(p: Point, done: seq<Point>)
    requires p.ts == 0 && Deduped([p], [p], done)
    ensures StartsAtZero(Elems([p])) && p !in done
  {
    assert p in Elems([p]);
    assert p !in Kept([p]);
  }

  lemma NoPoints()
    ensures Elems([]) == {} && StrictKeys([]) && Short([], MAX_BLOCK_LENGTH + 1) && AllWF([]) && RowsOf([]) == []
    ensures Refines({}, {}) && !StartsAtZero({})
  {
  }

  /**
    Sorts and deduplicates `dps` in place and writes it as a part.  The part is well-formed, its
    rows in file order are the points left in `dps`, one per key, cut into blocks of at most
    MAX_BLOCK_LENGTH + 1 rows as `BlocksOf` says.  The points left stand for the points given if and only if the
    least series does not start at timestamp zero.
   */
  method MustInitFromDataPoints(dps: DataPoints, pointSize: Point -> nat, schemaOf: seq<Point> -> Schema,
                                sizeOf: seq<Point> -> nat, metaLen: BlockMeta -> nat)
    returns (part: Part)
    requires forall p :: p in dps.pts ==> 0 < p.sid
    requires Labels(schemaOf, Elems(dps.pts))
    modifies dps
    ensures WFPart(part)
    ensures RowsOf(Flat(part.primaries)) == dps.pts && StrictKeys(dps.pts)
    ensures RowLists(Flat(part.primaries)) == BlocksOf(dps.pts, pointSize) && Labelled(Flat(part.primaries), schemaOf)
    ensures CutWell(RowLists(Flat(part.primaries)), dps.pts, pointSize)
    ensures Short(Flat(part.primaries), MAX_BLOCK_LENGTH + 1)
    ensures Elems(dps.pts) <= Elems(old(dps.pts))
    ensures Refines(Elems(dps.pts), Elems(old(dps.pts))) <==> !StartsAtZero(Elems(old(dps.pts)))
  {
    hide *;
    var w := new Writer(sizeOf, metaLen);
    ghost var input := dps.pts;
    NoCut(pointSize, schemaOf);
    if |dps.pts| == 0 {
      NoPoints();
      BlocksAreCutWell([], pointSize);
      part := w.Flush();
      PartDone(part, []);
      return;
    }
    dps.Sort();
    ghost var s := dps.pts;
    SamePoints(input, s);
    Opening(s, pointSize, schemaOf);
    ghost var done := WriteSorted(w, dps, pointSize, schemaOf);
    Result(s, done);
    BlocksAreCutWell(done, pointSize);
    part := w.Flush();
    PartDone(part, Flat(part.primaries));
  }

  /** What is left to read of the sorted points, and what has been kept of those before. */
  ghost predicate Reading(s: seq<Point>, rest: seq<Point>, done: seq<Point>, sidPrev: nat, tsPrev: int) {
    && |rest| <= |s| && s[|s| - |rest|..] == rest && Sorted(s) && (forall i :: 0 <= i < |s| ==> 0 < s[i].sid)
    && Deduped(s, s[..|s| - |rest|], done) && Prev(s, s[..|s| - |rest|], done, sidPrev, tsPrev)
  }

  /** What has been written of the points kept, and what is still open. */
  ghost predicate Writing(written: seq<Block>, done: seq<Point>, from: nat, sid: nat, size: nat, pointSize: Point -> nat,
                          schemaOf: seq<Point> -> Schema)
  {
    Segmented(written, done, from, sid) && AtCut(written, done, from, size, pointSize, schemaOf)
  }

  lemma Opening(s: seq<Point>, pointSize: Point -> nat, schemaOf: seq<Point> -> Schema)
    requires Sorted(s) && forall i :: 0 <= i < |s| ==> 0 < s[i].sid
    ensures Reading(s, s, [], 0, 0) && Writing([], [], 0, 0, 0, pointSize, schemaOf)
  {
    hide Deduped, Prev, Segmented, AtCut, Sorted;
    StartFacts(s);
    NoCut(pointSize, schemaOf);
    assert s[..0] == [];
  }

  /** The series of the next point is the previous one's, or nothing has been read yet. */
  lemma NextSeries(s: seq<Point>, rest: seq<Point>, done: seq<Point>, sidPrev: nat, tsPrev: int, written: seq<Block>, from: nat,
                   size: nat, pointSize: Point -> nat, schemaOf: seq<Point> -> Schema)
    requires Reading(s, rest, done, sidPrev, tsPrev) && Writing(written, done, from, sidPrev, size, pointSize, schemaOf)
    ensures StrictKeys(done) && from <= |done|
    ensures sidPrev == 0 ==> forall sid :: Writing(written, done, from, sid, size, pointSize, schemaOf)
    ensures rest != [] ==> 0 < rest[0].sid
  {
    hide Deduped, Prev, Segmented, AtCut, Sorted, StrictKeys;
    var used := s[..|s| - |rest|];
    PrevSeries(s, used, done, sidPrev, tsPrev);
    SegmentedRange(written, done, from, sidPrev);
    if sidPrev == 0 {
      forall sid: nat ensures Segmented(written, done, from, sid) {
        SegmentedAny(written, done, from, sidPrev, sid);
      }
    }
    assert rest != [] ==> rest[0] == s[|s| - |rest|];
  }

  lemma SegmentedRange(written: seq<Block>, done: seq<Point>, from: nat, sid: nat)
    requires Segmented(written, done, from, sid)
    ensures from <= |done|
  {
  }

  lemma DropNext(s: seq<Point>, rest: seq<Point>, done: seq<Point>, sidPrev: nat, tsPrev: int)
    requires Reading(s, rest, done, sidPrev, tsPrev) && rest != []
    requires (sidPrev == 0 || sidPrev == rest[0].sid) && tsPrev == rest[0].ts
    ensures Reading(s, rest[1..], done, rest[0].sid, tsPrev)
  {
    hide Deduped, Prev, Sorted;
    var k := |s| - |rest|;
    assert s == s[..k] + rest && s[..k + 1] == s[..k] + [rest[0]] && s[k + 1..] == rest[1..];
    SkipStep(s, s[..k], rest, done, sidPrev, tsPrev);
  }

  lemma KeepNext(s: seq<Point>, rest: seq<Point>, done: seq<Point>, sidPrev: nat, tsPrev: int)
    requires Reading(s, rest, done, sidPrev, tsPrev) && rest != []
    requires !((sidPrev == 0 || sidPrev == rest[0].sid) && tsPrev == rest[0].ts)
    ensures Reading(s, rest[1..], done + [rest[0]], rest[0].sid, rest[0].ts)
  {
    hide Deduped, Prev, Sorted;
    var k := |s| - |rest|;
    assert s == s[..k] + rest && s[..k + 1] == s[..k] + [rest[0]] && s[k + 1..] == rest[1..];
    KeepStep(s, s[..k], rest, done, sidPrev, tsPrev);
  }

  lemma AllRead(s: seq<Point>, done: seq<Point>, sidPrev: nat, tsPrev: int)
    requires Reading(s, [], done, sidPrev, tsPrev)
    ensures Deduped(s, s, done) && StrictKeys(done) && (s != [] ==> 0 < sidPrev)
  {
    hide Sorted;
    assert s[..|s|] == s;
  }

  /** The loop of mustInitFromDataPoints, over points already sorted. */
  method WriteSorted(w: Writer, dps: DataPoints, pointSize: Point -> nat, schemaOf: seq<Point> -> Schema)
    returns (ghost done: seq<Point>)
    requires w.Valid() && w.written == [] && dps.pts != []
    requires Reading(dps.pts, dps.pts, [], 0, 0) && Writing([], [], 0, 0, 0, pointSize, schemaOf)
    requires Labels(schemaOf, Elems(dps.pts))
    modifies w, dps
    ensures dps.pts == done && Deduped(old(dps.pts), old(dps.pts), done) && StrictKeys(done)
    ensures w.Valid() && RowsOf(w.written) == done && AllWF(w.written) && Short(w.written, MAX_BLOCK_LENGTH + 1)
    ensures RowLists(w.written) == BlocksOf(done, pointSize) && Labelled(w.written, schemaOf)
  {
    hide *;
    ghost var s, rest := dps.pts, dps.pts;
    var sidPrev, tsPrev, indexPrev, i := 0, 0, 0, 0;
    var size: nat := 0;
    done := [];
    while i < |dps.pts|
      invariant w.Valid() && i == |done| && dps.pts == done + rest
      invariant Reading(s, rest, done, sidPrev, tsPrev) && Elems(dps.pts) <= Elems(s)
      invariant Writing(w.written, done, indexPrev, sidPrev, size, pointSize, schemaOf)
      decreases |rest|
    {
      var x := dps.pts[i];
      Cursor(done, rest);
      NextSeries(s, rest, done, sidPrev, tsPrev, w.written, indexPrev, size, pointSize, schemaOf);
      ghost var sidOld := sidPrev;
      if sidPrev == 0 {
        sidPrev := x.sid;
      }
      if x.sid == sidPrev && tsPrev == x.ts {
        DropNext(s, rest, done, sidOld, tsPrev);
        FewerElems(done, rest);
        dps.Skip(i);
        rest := rest[1..];
        continue;
      }
      KeepNext(s, rest, done, sidOld, tsPrev);
      if x.sid == sidPrev {
        tsPrev := x.ts;
      }
      var cut := size >= MAX_UNCOMPRESSED_BLOCK_SIZE || i - indexPrev > MAX_BLOCK_LENGTH || x.sid != sidPrev;
      SliceNamed(schemaOf, Elems(s), dps.pts, indexPrev, i);
      Place(w, dps.pts[indexPrev..i], sidPrev, cut, schemaOf, done, indexPrev, x, size, pointSize);
      if cut {
        sidPrev, indexPrev, tsPrev, size := x.sid, i, x.ts, 0;
      }
      size := size + pointSize(x);
      done, rest := done + [x], rest[1..];
      i := i + 1;
    }
    NextSeries(s, rest, done, sidPrev, tsPrev, w.written, indexPrev, size, pointSize, schemaOf);
    AllRead(s, done, sidPrev, tsPrev);
    SliceNamed(schemaOf, Elems(s), dps.pts, indexPrev, |dps.pts|);
    WriteLast(w, dps.pts[indexPrev..], sidPrev, schemaOf, done, indexPrev, size, pointSize);
  }

  /** Moving the first row of `rest` over, kept or dropped. */
  lemma Cursor(done: seq<Point>, rest: seq<Point>)
    requires rest != []
    ensures (done + rest)[|done|] == rest[0]
    ensures (done + rest)[..|done|] == done && (done + rest)[|done| + 1..] == rest[1..]
    ensures done + rest == (done + [rest[0]]) + rest[1..]
    ensures forall j :: 0 <= j <= |done| ==> (done + rest)[j..|done|] == done[j..]
  {
  }

  /** Writes the open segment before `x` starts a new one. */
  method WriteSegment(w: Writer, rows: seq<Point>, sid: nat, schemaOf: seq<Point> -> Schema, ghost done: seq<Point>,
                      ghost from: nat, ghost x: Point, ghost size: nat, ghost pointSize: Point -> nat)
    requires w.Valid() && Writing(w.written, done, from, sid, size, pointSize, schemaOf) && StrictKeys(done) && 0 < sid
    requires from <= |done| && rows == done[from..] && Named(rows, schemaOf(rows))
    requires size >= MAX_UNCOMPRESSED_BLOCK_SIZE || |done| - from > MAX_BLOCK_LENGTH || x.sid != sid
    modifies w
    ensures w.Valid() && Writing(w.written, done + [x], |done|, x.sid, pointSize(x), pointSize, schemaOf)
  {
    hide Segmented, AtCut, StrictKeys, SortedTs, OfSeries, WFBlock, RowsOf, AllWF, Short, RowLists, BlocksOf, Labelled, Named;
    SegmentWrite(w, done, from, sid);
    ghost var out := if rows == [] then [] else [Block(w.MetaOf(sid, rows), rows, schemaOf(rows))];
    Cut(w.written, done, from, sid, x, out);
    NextCut(w.written, out, done, from, sid, size, x, pointSize, schemaOf);
    w.MustWriteBlock(sid, rows, schemaOf(rows));
  }

  /** The row after `done`: if it starts a new block, the open one is written. */
  method Place(w: Writer, rows: seq<Point>, sid: nat, cut: bool, schemaOf: seq<Point> -> Schema, ghost done: seq<Point>,
               ghost from: nat, ghost x: Point, ghost size: nat, ghost pointSize: Point -> nat)
    requires w.Valid() && Writing(w.written, done, from, sid, size, pointSize, schemaOf) && StrictKeys(done) && 0 < sid
    requires from <= |done| && rows == done[from..] && Named(rows, schemaOf(rows))
    requires cut == (size >= MAX_UNCOMPRESSED_BLOCK_SIZE || |done| - from > MAX_BLOCK_LENGTH || x.sid != sid)
    modifies w
    ensures w.Valid()
    ensures Writing(w.written, done + [x], if cut then |done| else from, x.sid, (if cut then 0 else size) + pointSize(x),
                    pointSize, schemaOf)
  {
    hide Segmented, AtCut, StrictKeys, Named;
    if cut {
      WriteSegment(w, rows, sid, schemaOf, done, from, x, size, pointSize);
    } else {
      NextGrows(w.written, done, from, sid, size, x, pointSize, schemaOf);
      Grow(w.written, done, from, sid, x);
    }
  }

  method WriteLast(w: Writer, rows: seq<Point>, sid: nat, schemaOf: seq<Point> -> Schema, ghost done: seq<Point>,
                   ghost from: nat, ghost size: nat, ghost pointSize: Point -> nat)
    requires w.Valid() && Writing(w.written, done, from, sid, size, pointSize, schemaOf) && StrictKeys(done) && 0 < sid
    requires from <= |done| && rows == done[from..] && Named(rows, schemaOf(rows))
    modifies w
    ensures RowLists(w.written) == BlocksOf(done, pointSize) && Labelled(w.written, schemaOf)
    ensures w.Valid() && RowsOf(w.written) == done && AllWF(w.written) && Short(w.written, MAX_BLOCK_LENGTH + 1)
  {
    hide Segmented, AtCut, StrictKeys, SortedTs, OfSeries, WFBlock, RowsOf, AllWF, Short, RowLists, BlocksOf, Labelled, Named;
    SegmentWrite(w, done, from, sid);
    ghost var out := if rows == [] then [] else [Block(w.MetaOf(sid, rows), rows, schemaOf(rows))];
    Finished(w.written, done, from, sid, out);
    LastCut(w.written, out, done, from, size, pointSize, schemaOf);
    w.MustWriteBlock(sid, rows, schemaOf(rows));
  }
}
