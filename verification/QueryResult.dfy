/**
  Pulling query results: a heap of block cursors, merged with deduplication, one result per run of
  a series, and a shortcut when a single cursor is left.
 */
module QueryResult {
  import Collections
  import opened Points
  import opened Parts
  import opened QueryOrder

  /** A block's rows inside the time range, and a position that walks up or, descending, down. */
  datatype Cursor = Cursor(sid: nat, rows: seq<Point>, idx: int)

  datatype MeasureResult = MeasureResult(sid: nat, rows: seq<Point>)

  predicate Descending(ord: Order) {
    ord.ByTime? && !ord.asc
  }

  predicate GoodCursor(c: Cursor) {
    0 < c.sid && 0 <= c.idx < |c.rows| && StrictTs(c.rows) && OfSeries(c.sid, c.rows)
  }

  ghost predicate GoodCursors(data: seq<Cursor>) {
    forall i :: 0 <= i < |data| ==> GoodCursor(data[i])
  }

  function Head(c: Cursor): Point
    requires GoodCursor(c)
  {
    c.rows[c.idx]
  }

  /** The row can still be read through the cursor. */
  ghost predicate Ahead(c: Cursor, desc: bool, k: int) {
    0 <= k < |c.rows| && if desc then k <= c.idx else c.idx <= k
  }

  /** The rows still to be read. */
  ghost function Remaining(data: seq<Cursor>, desc: bool): set<Point> {
    set i, k | 0 <= i < |data| && 0 <= k < |data[i].rows| && Ahead(data[i], desc, k) :: data[i].rows[k]
  }

  ghost predicate InSeries(data: seq<Cursor>, sids: set<nat>) {
    forall i :: 0 <= i < |data| ==> data[i].sid in sids
  }

  /** A cursor's head comes before its other rows. */
  lemma HeadFirst(c: Cursor, ord: Order, k: int)
    requires GoodCursor(c) && Ahead(c, Descending(ord), k)
    ensures k == c.idx || Before(ord, Head(c), c.rows[k])
  {
    assert c.rows[c.idx].sid == c.rows[k].sid;
    if k < c.idx {
      assert c.rows[k].ts < c.rows[c.idx].ts;
    } else if c.idx < k {
      assert c.rows[c.idx].ts < c.rows[k].ts;
    }
  }

  // ---------- the heap ----------

  /** The heap property at the root. */
  ghost predicate FrontLeast(data: seq<Cursor>, ord: Order)
    requires GoodCursors(data)
  {
    forall i :: 0 <= i < |data| ==> !Less(ord, Head(data[i]), Head(data[0]))
  }

  lemma LessAsymmetric(ord: Order, p: Point, q: Point)
    ensures Less(ord, p, q) ==> !Less(ord, q, p)
  {
  }

  lemma RowsOrdered(ord: Order, less: (Point, Point) -> bool)
    requires forall p, q :: less(p, q) == Less(ord, p, q)
    ensures Collections.Orders(less)
  {
    hide Less;
    forall p, q | less(p, q) ensures !less(q, p) {
      LessAsymmetric(ord, p, q);
    }
    forall p, q, x | less(p, x) ensures less(p, q) || less(q, x) {
      if !Less(ord, p, q) && !Less(ord, q, x) {
        NotLessTransitive(ord, x, q, p);
      }
    }
  }

  /** heap.Init, heap.Fix and heap.Pop leave a least cursor at the front. */
  method Restore(data: seq<Cursor>, ord: Order, ghost desc: bool) returns (r: seq<Cursor>)
    requires data != [] && GoodCursors(data)
    ensures r != [] && GoodCursors(r) && FrontLeast(r, ord) && |r| == |data|
    ensures Remaining(r, desc) == Remaining(data, desc)
    ensures forall sids :: InSeries(data, sids) ==> InSeries(r, sids)
    ensures Count(r, desc) == Count(data, desc)
  {
    hide GoodCursor, Less, Remaining, Count;
    var less := (p: Point, q: Point) => Less(ord, p, q);
    RowsOrdered(ord, less);
    var heads := seq(|data|, i requires 0 <= i < |data| && GoodCursors(data) => Head(data[i]));
    var k := Collections.Least(heads, less);
    forall i | 0 <= i < |data| ensures !Less(ord, Head(data[i]), Head(data[k])) {
      assert !less(heads[i], heads[k]);
    }
    MoveToFront(data, k, desc);
    r := Collections.ToFront(data, k);
  }

  /** How many rows are still to be read. */
  ghost function Count(data: seq<Cursor>, desc: bool): nat {
    if data == [] then 0 else CursorCount(data[0], desc) + Count(data[1..], desc)
  }

  ghost function CursorCount(c: Cursor, desc: bool): nat {
    var n := if desc then c.idx + 1 else |c.rows| - c.idx;
    if n < 0 then 0 else n
  }

  lemma {:induction false} CountConcat(a: seq<Cursor>, b: seq<Cursor>, desc: bool)
    ensures Count(a + b, desc) == Count(a, desc) + Count(b, desc)
  {
    hide CursorCount;
    if a == [] {
      assert a + b == b;
    } else {
      CountConcat(a[1..], b, desc);
      assert (a + b)[1..] == a[1..] + b;
    }
  }

  lemma RemainingConcat(a: seq<Cursor>, b: seq<Cursor>, desc: bool)
    ensures Remaining(a + b, desc) == Remaining(a, desc) + Remaining(b, desc)
  {
    hide Ahead;
    var ab := a + b;
    forall p | p in Remaining(ab, desc) ensures p in Remaining(a, desc) + Remaining(b, desc) {
      var i, k :| 0 <= i < |ab| && 0 <= k < |ab[i].rows| && Ahead(ab[i], desc, k) && ab[i].rows[k] == p;
      if i < |a| {
        assert ab[i] == a[i];
      } else {
        assert ab[i] == b[i - |a|];
      }
    }
    forall p | p in Remaining(a, desc) + Remaining(b, desc) ensures p in Remaining(ab, desc) {
      if p in Remaining(a, desc) {
        var i, k :| 0 <= i < |a| && 0 <= k < |a[i].rows| && Ahead(a[i], desc, k) && a[i].rows[k] == p;
        assert ab[i] == a[i];
      } else {
        var i, k :| 0 <= i < |b| && 0 <= k < |b[i].rows| && Ahead(b[i], desc, k) && b[i].rows[k] == p;
        assert ab[|a| + i] == b[i];
      }
    }
  }

  lemma {:induction false} MoveToFront(data: seq<Cursor>, k: nat, desc: bool)
    requires k < |data|
    ensures Remaining(Collections.ToFront(data, k), desc) == Remaining(data, desc)
    ensures Count(Collections.ToFront(data, k), desc) == Count(data, desc)
  {
    hide *;
    Collections.ToFrontIs(data, k);
    var a, c, b := data[..k], [data[k]], data[k + 1..];
    assert data == a + (c + b);
    RemainingConcat(a, b, desc);
    RemainingConcat(c, a + b, desc);
    RemainingConcat(c, b, desc);
    RemainingConcat(a, c + b, desc);
    CountConcat(a, b, desc);
    CountConcat(c, a + b, desc);
    CountConcat(c, b, desc);
    CountConcat(a, c + b, desc);
  }

  // ---------- one merge step, on values ----------

  /** Rows so far, rows to come: sorted, complete, and nothing to come is earlier than the last row. */
  ghost predicate MergeInv(ord: Order, out: seq<Point>, rem: set<Point>, all: set<Point>) {
    && StrictlySorted(ord, out)
    && Refines(Elems(out) + rem, all)
    && forall q :: q in rem ==> FollowsLast(ord, out, q)
  }

  ghost predicate FollowsLast(ord: Order, out: seq<Point>, q: Point) {
    out == [] || Before(ord, out[|out| - 1], q) || Covers(out[|out| - 1], q)
  }

  /** `t` is a heap-least point of `rem`, and taking it leaves `rem'`. */
  ghost predicate Taken(ord: Order, rem: set<Point>, t: Point, rem': set<Point>) {
    rem == rem' + {t} && forall q :: q in rem ==> !Less(ord, q, t)
  }

  ghost predicate SidsIn(ps: set<Point>, sids: set<nat>) {
    forall p :: p in ps ==> p.sid in sids
  }

  lemma SortedSnoc(ord: Order, out: seq<Point>, t: Point)
    requires StrictlySorted(ord, out) && (out != [] ==> Before(ord, out[|out| - 1], t))
    ensures StrictlySorted(ord, out + [t])
  {
    hide Before;
    forall i | 0 <= i < |out| ensures Before(ord, out[i], t) {
      if i < |out| - 1 {
        BeforeTransitive(ord, out[i], out[|out| - 1], t);
      }
    }
  }

  lemma TakeNew(ord: Order, out: seq<Point>, rem: set<Point>, all: set<Point>, t: Point, rem': set<Point>, sids: set<nat>)
    requires MergeInv(ord, out, rem, all) && Taken(ord, rem, t, rem')
    requires Separates(ord, sids) && SidsIn(rem, sids)
    requires out != [] ==> !SameKey(out[|out| - 1], t)
    ensures MergeInv(ord, out + [t], rem', all)
  {
    hide Before, Less, Refines, Separates;
    assert FollowsLast(ord, out, t);
    SortedSnoc(ord, out, t);
    ElemsConcat(out, [t]);
    assert Elems(out + [t]) + rem' == Elems(out) + rem;
    forall q | q in rem' ensures FollowsLast(ord, out + [t], q) {
      assert q in rem;
      LeastMeans(ord, t, q, sids);
    }
  }

  lemma SkipOld(ord: Order, out: seq<Point>, rem: set<Point>, all: set<Point>, t: Point, rem': set<Point>)
    requires MergeInv(ord, out, rem, all) && Taken(ord, rem, t, rem')
    requires out != [] && SameKey(out[|out| - 1], t)
    ensures Covers(out[|out| - 1], t)
    ensures MergeInv(ord, out, rem', all)
  {
    hide Less;
    var y := out[|out| - 1];
    assert FollowsLast(ord, out, t);
    assert Covers(y, t) by {
      if Before(ord, y, t) {
        BeforeMeans(ord, y, t);
      }
    }
    assert y in Elems(out);
    var kept := Elems(out) + rem';
    forall p | p in Elems(out) + rem ensures CoveredBy(p, kept) {
      if p == t {
        assert y in kept && Covers(y, p);
      } else {
        assert p in kept && Covers(p, p);
      }
    }
    RefinesTransitive(kept, Elems(out) + rem, all);
  }

  /** At a change of series everything to come is strictly later than everything so far. */
  lemma CutHere(ord: Order, out: seq<Point>, rem: set<Point>, all: set<Point>, t: Point, sids: set<nat>)
    requires MergeInv(ord, out, rem, all) && out != []
    requires t in rem && (forall q :: q in rem ==> !Less(ord, q, t)) && t.sid != out[|out| - 1].sid
    requires Separates(ord, sids) && SidsIn(rem, sids)
    ensures AllBefore(ord, out, rem)
  {
    hide Before, Less, Refines, Separates;
    var y := out[|out| - 1];
    assert FollowsLast(ord, out, t);
    forall p, q | p in out && q in rem ensures Before(ord, p, q) {
      LeastMeans(ord, t, q, sids);
      if Before(ord, t, q) {
        BeforeTransitive(ord, y, t, q);
      } else {
        BeforeKey(ord, y, t, q);
      }
      var i :| 0 <= i < |out| && out[i] == p;
      if i < |out| - 1 {
        assert Before(ord, out[i], out[|out| - 1]);
        BeforeTransitive(ord, p, y, q);
      }
    }
  }

  lemma BeforeKey(ord: Order, p: Point, q: Point, r: Point)
    requires Before(ord, p, q) && SameKey(q, r)
    ensures Before(ord, p, r)
  {
  }

  ghost predicate AllBefore(ord: Order, out: seq<Point>, rem: set<Point>) {
    forall p, q :: p in out && q in rem ==> Before(ord, p, q)
  }

  // ---------- advancing the front cursor ----------

  lemma FrontIsLeast(data: seq<Cursor>, ord: Order)
    requires data != [] && GoodCursors(data) && FrontLeast(data, ord)
    ensures Head(data[0]) in Remaining(data, Descending(ord))
    ensures forall q :: q in Remaining(data, Descending(ord)) ==> !Less(ord, q, Head(data[0]))
  {
    hide Less, Before;
    var desc := Descending(ord);
    assert Ahead(data[0], desc, data[0].idx);
    forall q | q in Remaining(data, desc) ensures !Less(ord, q, Head(data[0])) {
      var i, k :| 0 <= i < |data| && 0 <= k < |data[i].rows| && Ahead(data[i], desc, k) && data[i].rows[k] == q;
      assert GoodCursor(data[i]);
      HeadFirst(data[i], ord, k);
      if k != data[i].idx {
        BeforeMeans(ord, Head(data[i]), q);
        NotLessTransitive(ord, Head(data[0]), Head(data[i]), q);
      }
    }
  }

  function Stepped(c: Cursor, desc: bool): Cursor {
    c.(idx := if desc then c.idx - 1 else c.idx + 1)
  }

  lemma StepOne(c: Cursor, desc: bool)
    requires GoodCursor(c)
    ensures Remaining([c], desc) == Remaining([Stepped(c, desc)], desc) + {Head(c)}
    ensures CursorCount(c, desc) == CursorCount(Stepped(c, desc), desc) + 1
    ensures !(0 <= Stepped(c, desc).idx < |c.rows|) ==>
              Remaining([Stepped(c, desc)], desc) == {} && CursorCount(Stepped(c, desc), desc) == 0
  {
    var c' := Stepped(c, desc);
    forall p | p in Remaining([c], desc) ensures p in Remaining([c'], desc) + {Head(c)} {
      var k :| 0 <= k < |c.rows| && Ahead(c, desc, k) && c.rows[k] == p;
      if k != c.idx {
        assert Ahead([c'][0], desc, k) && [c'][0].rows[k] == p;
      }
    }
    forall p | p in Remaining([c'], desc) + {Head(c)} ensures p in Remaining([c], desc) {
      if p == Head(c) {
        assert Ahead([c][0], desc, c.idx);
      } else {
        var k :| 0 <= k < |c'.rows| && Ahead(c', desc, k) && c'.rows[k] == p;
        assert Ahead([c][0], desc, k) && [c][0].rows[k] == p;
      }
    }
  }

  /** The front cursor moves on; a used-up cursor leaves the heap. */
  method AdvanceHead(data: seq<Cursor>, ord: Order, ghost sids: set<nat>) returns (r: seq<Cursor>)
    requires data != [] && GoodCursors(data) && FrontLeast(data, ord) && InSeries(data, sids)
    ensures GoodCursors(r) && (r != [] ==> FrontLeast(r, ord)) && InSeries(r, sids)
    ensures Taken(ord, Remaining(data, Descending(ord)), Head(data[0]), Remaining(r, Descending(ord)))
    ensures Count(r, Descending(ord)) < Count(data, Descending(ord))
  {
    hide Less, Remaining, Count, CursorCount;
    var desc := Descending(ord);
    var c, tail := data[0], data[1..];
    var c' := Stepped(c, desc);
    FrontIsLeast(data, ord);
    StepOne(c, desc);
    assert data == [c] + tail;
    RemainingConcat([c], tail, desc);
    CountConcat([c], tail, desc);
    CountOne(c, desc);
    CountOne(c', desc);
    if 0 <= c'.idx < |c'.rows| {
      RemainingConcat([c'], tail, desc);
      CountConcat([c'], tail, desc);
      r := Restore([c'] + tail, ord, desc);
    } else if |tail| == 0 {
      r := [];
      EmptyHeap(desc);
    } else {
      r := Restore(tail, ord, desc);
    }
  }

  lemma {:induction false} CountOne(c: Cursor, desc: bool)
    ensures Count([c], desc) == CursorCount(c, desc)
  {
    assert Count([c][1..], desc) == 0;
  }

  lemma {:induction false} EmptyHeap(desc: bool)
    ensures Remaining([], desc) == {} && Count([], desc) == 0
  {
  }

  // ---------- loading cursors ----------

  predicate Rising(ts: seq<int>) {
    forall i, j :: 0 <= i < j < |ts| ==> ts[i] <= ts[j]
  }

  predicate Falling(ts: seq<int>) {
    forall i, j :: 0 <= i < j < |ts| ==> ts[j] <= ts[i]
  }

  /**
    The indices of the first and last timestamp inside [lo, hi], of timestamps in either order; `ok` is
    false when there is none.
   */
  method FindRange(ts: seq<int>, lo: int, hi: int) returns (start: int, end: int, ok: bool)
    requires Rising(ts) || Falling(ts)
    ensures ok ==> 0 <= start <= end < |ts|
    ensures forall i :: 0 <= i < |ts| ==> (lo <= ts[i] <= hi <==> ok && start <= i <= end)
  {
    if |ts| == 0 {
      return -1, -1, false;
    }
    var isAsc := ts[0] <= ts[|ts| - 1];
    assert if isAsc then Rising(ts) else Falling(ts) by { Direction(ts); }
    if isAsc && (ts[0] > hi || ts[|ts| - 1] < lo) {
      return -1, -1, false;
    }
    if !isAsc && (ts[0] < lo || ts[|ts| - 1] > hi) {
      return -1, -1, false;
    }
    start, end := -1, |ts|;
    while start < |ts| - 1
      invariant -1 <= start < |ts|
      invariant forall i :: 0 <= i <= start ==> if isAsc then ts[i] < lo else hi < ts[i]
    {
      start := start + 1;
      if (isAsc && ts[start] >= lo) || (!isAsc && ts[start] <= hi) {
        break;
      }
    }
    while end > 0
      invariant 0 <= end <= |ts|
      invariant forall i :: end <= i < |ts| ==> if isAsc then hi < ts[i] else ts[i] < lo
    {
      end := end - 1;
      if (isAsc && ts[end] <= hi) || (!isAsc && ts[end] >= lo) {
        break;
      }
    }
    ok := start <= end;
  }

  /** A monotone sequence goes the way its ends go. */
  lemma Direction(ts: seq<int>)
    requires ts != [] && (Rising(ts) || Falling(ts))
    ensures if ts[0] <= ts[|ts| - 1] then Rising(ts) else Falling(ts)
  {
    if Falling(ts) && ts[0] <= ts[|ts| - 1] {
      forall i | 0 <= i < |ts| ensures ts[i] == ts[0] { }
    }
  }

  /** The rows of some blocks inside the time range. */
  ghost function Trimmed(bs: seq<Block>, lo: int, hi: int): set<Point> {
    set b, p | b in bs && p in b.rows && lo <= p.ts <= hi :: p
  }

  /** A freshly loaded cursor: no rows outside the range, none inside missing, at its starting end. */
  ghost predicate LoadedFrom(c: Cursor, b: Block, lo: int, hi: int, desc: bool) {
    && c.sid == b.bm.sid && StrictTs(c.rows) && OfSeries(c.sid, c.rows)
    && (forall p :: p in c.rows <==> p in b.rows && lo <= p.ts <= hi)
    && c.idx == if desc then |c.rows| - 1 else 0
  }

  method LoadData(b: Block, lo: int, hi: int, desc: bool) returns (c: Cursor)
    requires WFBlock(b)
    ensures LoadedFrom(c, b, lo, hi, desc)
  {
    hide SortedTs, Named, StrictTs, OfSeries;
    BlockRows(b);
    var ts := seq(|b.rows|, i requires 0 <= i < |b.rows| => b.rows[i].ts);
    var start, end, ok := FindRange(ts, lo, hi);
    assert forall i :: 0 <= i < |b.rows| ==> ts[i] == b.rows[i].ts;
    if !ok {
      NothingInRange(b.rows, lo, hi);
      EmptyRows(b.bm.sid);
      return Cursor(b.bm.sid, [], if desc then -1 else 0);
    }
    var rows := b.rows[start..end + 1];
    RangeRows(b.rows, start, end, lo, hi);
    SliceRows(b.rows, start, end + 1, b.bm.sid);
    c := Cursor(b.bm.sid, rows, if desc then |rows| - 1 else 0);
  }

  lemma BlockRows(b: Block)
    requires WFBlock(b)
    ensures StrictTs(b.rows) && OfSeries(b.bm.sid, b.rows)
    ensures Rising(seq(|b.rows|, i requires 0 <= i < |b.rows| => b.rows[i].ts))
  {
    hide Named, OfSeries;
  }

  lemma EmptyRows(sid: nat)
    ensures StrictTs([]) && OfSeries(sid, [])
  {
  }

  lemma SliceRows(rows: seq<Point>, i: nat, j: nat, sid: nat)
    requires StrictTs(rows) && OfSeries(sid, rows) && i <= j <= |rows|
    ensures StrictTs(rows[i..j]) && OfSeries(sid, rows[i..j])
  {
    assert forall k :: 0 <= k < j - i ==> rows[i..j][k] == rows[i + k];
  }

  lemma NothingInRange(rows: seq<Point>, lo: int, hi: int)
    requires forall i :: 0 <= i < |rows| ==> !(lo <= rows[i].ts <= hi)
    ensures forall p :: p in rows ==> !(lo <= p.ts <= hi)
  {
  }

  lemma RangeRows(rows: seq<Point>, start: int, end: int, lo: int, hi: int)
    requires 0 <= start <= end < |rows|
    requires forall i :: 0 <= i < |rows| ==> (lo <= rows[i].ts <= hi <==> start <= i <= end)
    ensures forall p :: p in rows[start..end + 1] <==> p in rows && lo <= p.ts <= hi
  {
    forall p | p in rows && lo <= p.ts <= hi ensures p in rows[start..end + 1] {
      var i :| 0 <= i < |rows| && rows[i] == p;
      assert rows[start..end + 1][i - start] == p;
    }
  }

  /** The cursors that have rows, in order. */
  ghost function NonBlank(data: seq<Cursor>): seq<Cursor> {
    if data == [] then [] else (if data[0].rows == [] then [] else [data[0]]) + NonBlank(data[1..])
  }

  lemma {:induction false} NonBlankKeeps(data: seq<Cursor>, n: nat)
    requires n <= |data| && forall i :: 0 <= i < n ==> data[i].rows != []
    ensures NonBlank(data) == data[..n] + NonBlank(data[n..])
  {
    if n == 0 {
      assert data[0..] == data;
    } else {
      NonBlankKeeps(data[1..], n - 1);
      assert data[1..][n - 1..] == data[n..] && data[..n] == [data[0]] + data[1..][..n - 1];
    }
  }

  /** `blanks` lists the positions of the cursors without rows, last one first. */
  ghost predicate BlankList(data: seq<Cursor>, blanks: seq<nat>, from: nat) {
    && (forall i, j :: 0 <= i < j < |blanks| ==> blanks[j] < blanks[i])
    && (forall i :: 0 <= i < |blanks| ==> from <= blanks[i] < |data| && data[blanks[i]].rows == [])
    && (forall k :: from <= k < |data| && data[k].rows == [] ==> k in blanks)
  }

  /** Removes the blank cursors by position, last one first, so that the positions stay right. */
  method DropBlank(data: seq<Cursor>, blanks: seq<nat>) returns (r: seq<Cursor>)
    requires BlankList(data, blanks, 0)
    ensures r == NonBlank(data)
  {
    hide *;
    r := data;
    var b, m := |data|, 0;
    NoBlank();
    assert data[..|data|] == data && data[|data|..] == [];
    while m < |blanks|
      invariant 0 <= m <= |blanks| && 0 <= b <= |data|
      invariant if m > 0 then b == blanks[m - 1] else b == |data|
      invariant r == data[..b] + NonBlank(data[b..])
    {
      var k := blanks[m];
      BlankAt(data, blanks, m, b);
      r := r[..k] + r[k + 1..];
      b, m := k, m + 1;
    }
    NoneBeforeFirst(data, blanks, b);
    NonBlankKeeps(data, b);
  }

  lemma NoBlank()
    ensures NonBlank([]) == []
  {
  }

  /** Deleting the next blank position extends the cleaned suffix down to it. */
  lemma BlankAt(data: seq<Cursor>, blanks: seq<nat>, m: nat, b: nat)
    requires BlankList(data, blanks, 0) && m < |blanks| && b <= |data|
    requires if m > 0 then b == blanks[m - 1] else b == |data|
    ensures blanks[m] < b
    ensures var k, r := blanks[m], data[..b] + NonBlank(data[b..]);
            r[..k] + r[k + 1..] == data[..k] + NonBlank(data[k..])
  {
    hide *;
    var k := blanks[m];
    BetweenBlanks(data, blanks, m, b);
    var t := data[k + 1..];
    var n := b - (k + 1);
    assert forall i :: 0 <= i < n ==> t[i] == data[k + 1 + i];
    NonBlankKeeps(t, n);
    assert t[n..] == data[b..] && t[..n] == data[k + 1..b];
    BlankHead(data[k..]);
    assert data[k..][1..] == t;
    var r := data[..b] + NonBlank(data[b..]);
    assert r[k + 1..] == data[k + 1..b] + NonBlank(data[b..]);
  }

  lemma {:induction false} BlankHead(data: seq<Cursor>)
    requires data != [] && data[0].rows == []
    ensures NonBlank(data) == NonBlank(data[1..])
  {
  }

  lemma BetweenBlanks(data: seq<Cursor>, blanks: seq<nat>, m: nat, b: nat)
    requires BlankList(data, blanks, 0) && m < |blanks| && b <= |data|
    requires if m > 0 then b == blanks[m - 1] else b == |data|
    ensures blanks[m] < b && data[blanks[m]].rows == []
    ensures forall k :: blanks[m] < k < b ==> data[k].rows != []
  {
    forall k | blanks[m] < k < b ensures data[k].rows != [] {
      forall j | 0 <= j < |blanks| ensures blanks[j] != k {
        assert m < j ==> blanks[j] < blanks[m];
        assert j < m - 1 ==> blanks[m - 1] < blanks[j];
      }
    }
  }

  lemma NoneBeforeFirst(data: seq<Cursor>, blanks: seq<nat>, b: nat)
    requires BlankList(data, blanks, 0)
    requires if |blanks| > 0 then b == blanks[|blanks| - 1] else b == |data|
    ensures forall i :: 0 <= i < b ==> data[i].rows != []
  {
    forall i | 0 <= i < b ensures data[i].rows != [] {
      forall j | 0 <= j < |blanks| ensures blanks[j] != i {
        assert j < |blanks| - 1 ==> blanks[|blanks| - 1] < blanks[j];
      }
    }
  }

  // ---------- the fresh heap ----------

  ghost predicate AllLoaded(data: seq<Cursor>, bs: seq<Block>, lo: int, hi: int, desc: bool) {
    |data| == |bs| && forall i :: 0 <= i < |bs| ==> LoadedFrom(data[i], bs[i], lo, hi, desc)
  }

  /** A cursor of the fresh heap is one of the loaded ones, with rows. */
  lemma {:induction false} NonBlankFrom(data: seq<Cursor>, c: Cursor)
    ensures c in NonBlank(data) <==> c in data && c.rows != []
  {
    if data != [] {
      NonBlankFrom(data[1..], c);
    }
  }

  /** After loading, the heap holds exactly the rows inside the range. */
  lemma {:induction false} FreshHeap(data: seq<Cursor>, bs: seq<Block>, lo: int, hi: int, desc: bool, sids: set<nat>)
    requires AllLoaded(data, bs, lo, hi, desc)
    requires forall b :: b in bs ==> 0 < b.bm.sid && b.bm.sid in sids
    ensures GoodCursors(NonBlank(data)) && InSeries(NonBlank(data), sids)
    ensures Remaining(NonBlank(data), desc) == Trimmed(bs, lo, hi)
  {
    var heap := NonBlank(data);
    forall i | 0 <= i < |heap| ensures GoodCursor(heap[i]) && heap[i].sid in sids {
      NonBlankFrom(data, heap[i]);
      var k :| 0 <= k < |data| && data[k] == heap[i];
      assert LoadedFrom(data[k], bs[k], lo, hi, desc) && bs[k] in bs;
    }
    forall p | p in Remaining(heap, desc) ensures p in Trimmed(bs, lo, hi) {
      var i, j :| 0 <= i < |heap| && 0 <= j < |heap[i].rows| && Ahead(heap[i], desc, j) && heap[i].rows[j] == p;
      NonBlankFrom(data, heap[i]);
      var k :| 0 <= k < |data| && data[k] == heap[i];
      assert p in data[k].rows && LoadedFrom(data[k], bs[k], lo, hi, desc) && bs[k] in bs;
    }
    forall p | p in Trimmed(bs, lo, hi) ensures p in Remaining(heap, desc) {
      var b :| b in bs && p in b.rows && lo <= p.ts <= hi;
      var k :| 0 <= k < |bs| && bs[k] == b;
      assert LoadedFrom(data[k], bs[k], lo, hi, desc);
      assert p in data[k].rows;
      var j :| 0 <= j < |data[k].rows| && data[k].rows[j] == p;
      NonBlankFrom(data, data[k]);
      var i :| 0 <= i < |heap| && heap[i] == data[k];
      assert Ahead(heap[i], desc, j);
    }
  }

  /** Loads every block and drops the cursors left without rows. */
  method Load(bs: seq<Block>, lo: int, hi: int, ord: Order, ghost sids: set<nat>) returns (data: seq<Cursor>)
    requires forall b :: b in bs ==> WFBlock(b) && b.bm.sid in sids
    ensures GoodCursors(data) && InSeries(data, sids) && (data != [] ==> FrontLeast(data, ord))
    ensures Remaining(data, Descending(ord)) == Trimmed(bs, lo, hi)
  {
    hide LoadedFrom, GoodCursors, InSeries, Remaining, Trimmed, FrontLeast, NonBlank, ExactBlock, StrictTs;
    var desc := Descending(ord);
    var all: seq<Cursor> := [];
    var i := 0;
    while i < |bs|
      invariant 0 <= i <= |bs| && AllLoaded(all, bs[..i], lo, hi, desc)
    {
      assert bs[i] in bs && bs[..i + 1] == bs[..i] + [bs[i]];
      var c := LoadData(bs[i], lo, hi, desc);
      all := all + [c];
      i := i + 1;
    }
    assert bs[..i] == bs;
    var blanks := Blanks(all);
    data := DropBlank(all, blanks);
    FreshHeap(all, bs, lo, hi, desc, sids);
    if |data| > 0 {
      data := Restore(data, ord, desc);
    }
  }

  /** The blank positions, last one first. */
  method Blanks(data: seq<Cursor>) returns (blanks: seq<nat>)
    ensures BlankList(data, blanks, 0)
  {
    blanks := [];
    var k := |data|;
    while k > 0
      invariant 0 <= k <= |data|
      invariant BlankList(data, blanks, k)
    {
      k := k - 1;
      if |data[k].rows| == 0 {
        blanks := blanks + [k];
      }
    }
  }

  // ---------- Pull ----------

  /** One result: a sorted run of one series, before everything left, and nothing lost. */
  ghost predicate GoodResult(ord: Order, r: MeasureResult, left: set<Point>, before: set<Point>) {
    && r.rows != [] && OfSeries(r.sid, r.rows)
    && StrictlySorted(ord, r.rows)
    && AllBefore(ord, r.rows, left)
    && Refines(Elems(r.rows) + left, before)
  }

  lemma RemainingSids(data: seq<Cursor>, desc: bool, sids: set<nat>)
    requires GoodCursors(data) && InSeries(data, sids)
    ensures SidsIn(Remaining(data, desc), sids)
  {
    hide Ahead;
    forall p | p in Remaining(data, desc) ensures p.sid in sids {
      var i, k :| 0 <= i < |data| && 0 <= k < |data[i].rows| && Ahead(data[i], desc, k) && data[i].rows[k] == p;
      assert GoodCursor(data[i]) && data[i].rows[k].sid == data[i].sid;
    }
  }

  lemma MergeStart(ord: Order, rem: set<Point>)
    ensures MergeInv(ord, [], rem, rem)
  {
    RefinesReflexive(rem);
    assert Elems([]) + rem == rem;
  }

  lemma Finished(ord: Order, out: seq<Point>, rem: set<Point>, all: set<Point>, sid: nat, desc: bool)
    requires MergeInv(ord, out, rem, all) && out != [] && OfSeries(sid, out)
    requires rem == {} || AllBefore(ord, out, rem)
    ensures GoodResult(ord, MeasureResult(sid, out), rem, all)
  {
  }

  lemma HeadFacts(data: seq<Cursor>, ord: Order, desc: bool)
    requires data != [] && GoodCursors(data)
    ensures GoodCursor(data[0]) && Head(data[0]).sid == data[0].sid && 0 < data[0].sid
  {
  }

  /** The merging form: consumes cursors until the series changes or nothing is left. */
  method Merge(data: seq<Cursor>, ord: Order, ghost sids: set<nat>) returns (result: MeasureResult, left: seq<Cursor>)
    requires data != [] && GoodCursors(data) && FrontLeast(data, ord) && InSeries(data, sids) && Separates(ord, sids)
    ensures GoodCursors(left) && (left != [] ==> FrontLeast(left, ord)) && InSeries(left, sids)
    ensures Count(left, Descending(ord)) < Count(data, Descending(ord))
    ensures GoodResult(ord, result, Remaining(left, Descending(ord)), Remaining(data, Descending(ord)))
  {
    hide *;
    ghost var desc := Descending(ord);
    ghost var all := Remaining(data, desc);
    var rows: seq<Point>, lastVersion, lastSid := [], 0, 0;
    left := data;
    MergeStart(ord, all);
    EmptySeries();
    while |left| > 0
      invariant GoodCursors(left) && (left != [] ==> FrontLeast(left, ord)) && InSeries(left, sids)
      invariant MergeInv(ord, rows, Remaining(left, desc), all)
      invariant OfSeries(lastSid, rows)
      invariant lastSid == 0 <==> rows == []
      invariant rows != [] ==> lastVersion == rows[|rows| - 1].version && rows[|rows| - 1].sid == lastSid
      invariant rows == [] ==> left == data
      invariant rows != [] ==> Count(left, desc) < Count(data, desc)
      decreases Count(left, desc)
    {
      HeadFacts(left, ord, desc);
      FrontIsLeast(left, ord);
      RemainingSids(left, desc, sids);
      var t := Head(left[0]);
      if lastSid != 0 && left[0].sid != lastSid {
        CutHere(ord, rows, Remaining(left, desc), all, t, sids);
        Finished(ord, rows, Remaining(left, desc), all, lastSid, desc);
        return MeasureResult(lastSid, rows), left;
      }
      lastSid := left[0].sid;
      ghost var rem := Remaining(left, desc);
      left := AdvanceHead(left, ord, sids);
      if |rows| > 0 && t.ts == rows[|rows| - 1].ts {
        SameKeyIs(rows[|rows| - 1], t);
        SkipOld(ord, rows, rem, all, t, Remaining(left, desc));
        CoversIs(rows[|rows| - 1], t);
        assert !(t.version > lastVersion);  // the replacing branch is never taken
      } else {
        DifferentKey(rows, t);
        TakeNew(ord, rows, rem, all, t, Remaining(left, desc), sids);
        SeriesSnoc(lastSid, rows, t);
        rows := rows + [t];
        lastVersion := t.version;
      }
    }
    EmptyHeap(desc);
    Finished(ord, rows, Remaining(left, desc), all, lastSid, desc);
    return MeasureResult(lastSid, rows), left;
  }

  lemma EmptySeries()
    ensures OfSeries(0, [])
  {
  }

  lemma SameKeyIs(p: Point, q: Point)
    ensures SameKey(p, q) <==> p.sid == q.sid && p.ts == q.ts
  {
  }

  lemma CoversIs(p: Point, q: Point)
    requires Covers(p, q)
    ensures q.version <= p.version
  {
  }

  lemma DifferentKey(rows: seq<Point>, t: Point)
    requires rows == [] || t.ts != rows[|rows| - 1].ts
    ensures rows != [] ==> !SameKey(rows[|rows| - 1], t)
  {
  }

  lemma SeriesSnoc(sid: nat, rows: seq<Point>, t: Point)
    requires t.sid == sid && (rows == [] || OfSeries(sid, rows))
    ensures OfSeries(sid, rows + [t])
  {
  }

  function Reversed(s: seq<Point>): (r: seq<Point>)
    ensures |r| == |s| && forall i :: 0 <= i < |s| ==> r[i] == s[|s| - 1 - i]
  {
    if s == [] then [] else Reversed(s[1..]) + [s[0]]
  }

  /** The shortcut for a single cursor: all its remaining rows at once. */
  function CopyAll(c: Cursor, desc: bool): seq<Point>
    requires GoodCursor(c)
  {
    if desc then Reversed(c.rows[..c.idx + 1]) else c.rows[c.idx..]
  }

  lemma CopyAllGood(c: Cursor, ord: Order)
    requires GoodCursor(c)
    ensures GoodResult(ord, MeasureResult(c.sid, CopyAll(c, Descending(ord))), {}, Remaining([c], Descending(ord)))
  {
    hide Refines, Remaining;
    var desc := Descending(ord);
    var out := CopyAll(c, desc);
    forall i, j | 0 <= i < j < |out| ensures Before(ord, out[i], out[j]) {
      if desc {
        assert out[i] == c.rows[c.idx - i] && out[j] == c.rows[c.idx - j];
      } else {
        assert out[i] == c.rows[c.idx + i] && out[j] == c.rows[c.idx + j];
      }
    }
    forall i | 0 <= i < |out| ensures out[i].sid == c.sid {
      if desc {
        assert out[i] == c.rows[c.idx - i];
      } else {
        assert out[i] == c.rows[c.idx + i];
      }
    }
    CopyAllRows(c, desc);
    RefinesReflexive(Elems(out));
    assert Elems(out) + {} == Elems(out);
  }

  lemma CopyAllRows(c: Cursor, desc: bool)
    requires GoodCursor(c)
    ensures Elems(CopyAll(c, desc)) == Remaining([c], desc)
  {
    var out := CopyAll(c, desc);
    forall p | p in out ensures p in Remaining([c], desc) {
      var i :| 0 <= i < |out| && out[i] == p;
      var k := if desc then c.idx - i else c.idx + i;
      assert Ahead([c][0], desc, k) && [c][0].rows[k] == p;
    }
    forall p | p in Remaining([c], desc) ensures p in out {
      var k :| 0 <= k < |c.rows| && Ahead(c, desc, k) && c.rows[k] == p;
      assert out[if desc then c.idx - k else k - c.idx] == p;
    }
  }

  class Puller {
    const ord: Order
    const lo: int
    const hi: int
    ghost const sids: set<nat>
    var blocks: seq<Block>
    var data: seq<Cursor>
    var loaded: bool

    ghost predicate Valid()
      reads this
    {
      && Separates(ord, sids)
      && (!loaded ==> AllOf(blocks, sids))
      && (loaded ==> GoodCursors(data) && InSeries(data, sids) && (data != [] ==> FrontLeast(data, ord)))
    }

    /** What has not been returned yet. */
    ghost function Outstanding(): set<Point>
      reads this
    {
      if loaded then Remaining(data, Descending(ord)) else Trimmed(blocks, lo, hi)
    }

    constructor (blocks: seq<Block>, lo: int, hi: int, ord: Order, ghost sids: set<nat>)
      requires AllOf(blocks, sids) && Separates(ord, sids)
      ensures Valid() && Outstanding() == Trimmed(blocks, lo, hi) && !loaded
      ensures this.ord == ord
    {
      this.ord, this.lo, this.hi, this.sids := ord, lo, hi, sids;
      this.blocks, data, loaded := blocks, [], false;
    }

    /** One result, or nil when there is nothing left. */
    method Pull() returns (r: Option<MeasureResult>)
      requires Valid()
      modifies this
      ensures Valid()
      ensures r.None? ==> Outstanding() == {} && old(Outstanding()) == {}
      ensures r.Some? ==> loaded && GoodResult(ord, r.value, Outstanding(), old(Outstanding()))
      ensures r.Some? && old(loaded) ==> Count(data, Descending(ord)) < old(Count(data, Descending(ord)))
    {
      hide GoodCursors, InSeries, FrontLeast, Separates, AllOf, Remaining, Trimmed, GoodResult, Count;
      if !loaded {
        if |blocks| == 0 {
          NoBlocks(lo, hi);
          return None;
        }
        AllOfIs(blocks, sids);
        data := Load(blocks, lo, hi, ord, sids);
        loaded := true;
      }
      EmptyHeap(Descending(ord));
      if |data| == 0 {
        return None;
      }
      if |data| == 1 {
        var c := data[0];
        HeadFacts(data, ord, Descending(ord));
        CopyAllGood(c, ord);
        assert data == [c];
        CountOne(c, Descending(ord));
        OneLeft(c, Descending(ord));
        data := [];
        NoCursors(sids);
        return Some(MeasureResult(c.sid, CopyAll(c, Descending(ord))));
      }
      var result, left := Merge(data, ord, sids);
      data := left;
      return Some(result);
    }
  }

  ghost predicate AllOf(bs: seq<Block>, sids: set<nat>) {
    forall b :: b in bs ==> WFBlock(b) && b.bm.sid in sids
  }

  lemma AllOfIs(bs: seq<Block>, sids: set<nat>)
    requires AllOf(bs, sids)
    ensures forall b :: b in bs ==> WFBlock(b) && b.bm.sid in sids
  {
  }

  lemma NoBlocks(lo: int, hi: int)
    ensures Trimmed([], lo, hi) == {}
  {
  }

  lemma NoCursors(sids: set<nat>)
    ensures GoodCursors([]) && InSeries([], sids)
  {
  }

  lemma OneLeft(c: Cursor, desc: bool)
    requires GoodCursor(c)
    ensures 0 < CursorCount(c, desc)
  {
  }

  // ---------- all results together ----------

  lemma AnswerGrows(ord: Order, acc: seq<Point>, out: seq<Point>, rem: set<Point>, rem': set<Point>, all: set<Point>, sid: nat)
    requires StrictlySorted(ord, acc) && AllBefore(ord, acc, rem) && Refines(Elems(acc) + rem, all)
    requires GoodResult(ord, MeasureResult(sid, out), rem', rem)
    ensures StrictlySorted(ord, acc + out) && AllBefore(ord, acc + out, rem') && Refines(Elems(acc + out) + rem', all)
  {
    hide Before, Dominates;
    ElemsConcat(acc, out);
    forall p | p in out ensures p in rem {
      assert p in Elems(out);
    }
    forall i, j | 0 <= i < j < |acc + out| ensures Before(ord, (acc + out)[i], (acc + out)[j]) {
      if i < |acc| <= j {
        assert acc[i] in acc && out[j - |acc|] in out;
      }
    }
    assert AllBefore(ord, acc + out, rem');
    RefinesReflexive(Elems(acc));
    RefinesUnion(Elems(acc), Elems(acc), Elems(out) + rem', rem);
    assert Elems(acc) + (Elems(out) + rem') == Elems(acc + out) + rem';
    RefinesTransitive(Elems(acc + out) + rem', Elems(acc) + rem, all);
  }

  /** Pulls until nil: the concatenated rows are sorted, one per key, each of greatest version. */
  method PullAll(blocks: seq<Block>, lo: int, hi: int, ord: Order, ghost sids: set<nat>) returns (results: seq<MeasureResult>, rows: seq<Point>)
    requires AllOf(blocks, sids) && Separates(ord, sids)
    ensures rows == RowsOfResults(results)
    ensures forall i :: 0 <= i < |results| ==> results[i].rows != [] && OfSeries(results[i].sid, results[i].rows)
    ensures StrictlySorted(ord, rows) && Refines(Elems(rows), Trimmed(blocks, lo, hi))
  {
    hide *;
    var q := new Puller(blocks, lo, hi, ord, sids);
    results, rows := [], [];
    ghost var all := q.Outstanding();
    AnswerStart(ord, all);
    NoResults();
    while true
      invariant q.Valid() && fresh(q) && q.ord == ord
      invariant StrictlySorted(ord, rows) && AllBefore(ord, rows, q.Outstanding()) && Refines(Elems(rows) + q.Outstanding(), all)
      invariant rows == RowsOfResults(results)
      invariant forall i :: 0 <= i < |results| ==> results[i].rows != [] && OfSeries(results[i].sid, results[i].rows)
      decreases !q.loaded, Count(q.data, Descending(ord))
    {
      ghost var rem := q.Outstanding();
      var r := q.Pull();
      if r.None? {
        break;
      }
      AnswerGrows(ord, rows, r.value.rows, rem, q.Outstanding(), all, r.value.sid);
      ResultSnoc(results, r.value, ord, q.Outstanding(), rem);
      rows := rows + r.value.rows;
      results := results + [r.value];
    }
    assert Elems(rows) + {} == Elems(rows);
  }

  ghost function RowsOfResults(rs: seq<MeasureResult>): seq<Point> {
    if rs == [] then [] else RowsOfResults(rs[..|rs| - 1]) + rs[|rs| - 1].rows
  }

  lemma NoResults()
    ensures RowsOfResults([]) == []
  {
  }

  lemma {:induction false} ResultSnoc(rs: seq<MeasureResult>, r: MeasureResult, ord: Order, left: set<Point>, before: set<Point>)
    requires GoodResult(ord, r, left, before)
    ensures RowsOfResults(rs + [r]) == RowsOfResults(rs) + r.rows && r.rows != [] && OfSeries(r.sid, r.rows)
  {
    assert (rs + [r])[..|rs|] == rs;
  }

  lemma AnswerStart(ord: Order, all: set<Point>)
    ensures StrictlySorted(ord, []) && AllBefore(ord, [], all) && Refines(Elems([]) + all, all)
  {
    RefinesReflexive(all);
    assert Elems([]) + all == all;
  }
}
