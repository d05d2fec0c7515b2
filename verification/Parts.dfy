/**
  The shape of a part: blocks of one series each, grouped into primary blocks that carry a
  series ID and a time range, under part-level totals.  zstd and the integer codecs are not
  modelled, so a primary block holds its block metadata (and each block its rows) directly.
 */
module Parts {
  import Collections
  import opened Points
  import opened Schemas

  const MAX_BLOCK_LENGTH: nat := 8 * 1024
  const MAX_UNCOMPRESSED_BLOCK_SIZE: nat := 2 * 1024 * 1024
  const MAX_UNCOMPRESSED_PRIMARY_BLOCK_SIZE: nat := 128 * 1024

  /** Block metadata: `size` is the uncompressed size in bytes. */
  datatype BlockMeta = BlockMeta(sid: nat, min: int, max: int, count: nat, size: nat)

  /** A block's metadata, its rows and the names of its columns. */
  datatype Block = Block(bm: BlockMeta, rows: seq<Point>, schema: Schema)

  /** A primary block with the metadata entry that indexes it. */
  datatype Primary = Primary(sid: nat, min: int, max: int, blocks: seq<Block>)

  datatype PartMeta = PartMeta(totalCount: nat, blocksCount: nat, minTs: int, maxTs: int)

  datatype Part = Part(meta: PartMeta, primaries: seq<Primary>)

  /** All blocks in file order. */
  ghost function Flat(ps: seq<Primary>): seq<Block> {
    if ps == [] then [] else ps[0].blocks + Flat(ps[1..])
  }

  ghost function BlockPoints(bs: seq<Block>): set<Point> {
    set b, p | b in bs && p in b.rows :: p
  }

  ghost function PartPoints(p: Part): set<Point> {
    BlockPoints(Flat(p.primaries))
  }

  ghost function RowCount(bs: seq<Block>): nat {
    if bs == [] then 0 else |bs[0].rows| + RowCount(bs[1..])
  }

  /** Rows in timestamp order; equal timestamps may follow each other. */
  predicate SortedTs(s: seq<Point>) {
    forall i, j :: 0 <= i < j < |s| ==> s[i].ts <= s[j].ts
  }

  /** The schema has the column of a cell. */
  predicate HasColumn(s: Schema, k: (Option<string>, string)) {
    match k.0
    case None => k.1 in s.fields
    case Some(f) => k.1 in ColumnNamesOf(s.tags, f)
  }

  /** Every cell of every row has its column. */
  ghost predicate Named(rows: seq<Point>, s: Schema) {
    forall i, k :: 0 <= i < |rows| && k in rows[i].data ==> HasColumn(s, k)
  }

  /** A block as the writer leaves it: one series, sorted rows, exact metadata, a column for every cell. */
  ghost predicate ExactBlock(b: Block) {
    && b.rows != []
    && SortedTs(b.rows)
    && OfSeries(b.bm.sid, b.rows)
    && b.bm.min == b.rows[0].ts
    && b.bm.max == b.rows[|b.rows| - 1].ts
    && b.bm.count == |b.rows|
    && Named(b.rows, b.schema)
  }

  /** A block of a measure: moreover no timestamp twice, and series IDs start at 1. */
  ghost predicate WFBlock(b: Block) {
    ExactBlock(b) && StrictTs(b.rows) && 0 < b.bm.sid
  }

  /** The order of blocks in a part: series, then least timestamp. */
  predicate BlockLe(a: BlockMeta, b: BlockMeta) {
    a.sid < b.sid || (a.sid == b.sid && a.min <= b.min)
  }

  /** blockMetadata.less: strictly before in that order. */
  predicate BlockLt(a: BlockMeta, b: BlockMeta) {
    !BlockLe(b, a)
  }

  lemma BlocksOrdered()
    ensures Collections.Orders(BlockLt)
  {
  }

  ghost predicate Ordered(bs: seq<Block>) {
    forall i, j :: 0 <= i < j < |bs| ==> BlockLe(bs[i].bm, bs[j].bm)
  }

  /** `lo` and `hi` bound the blocks' times and are attained. */
  ghost predicate ExactRange(bs: seq<Block>, lo: int, hi: int) {
    && (forall b :: b in bs ==> lo <= b.bm.min && b.bm.max <= hi)
    && (exists b :: b in bs && b.bm.min == lo)
    && (exists b :: b in bs && b.bm.max == hi)
  }

  ghost predicate WFPrimary(p: Primary) {
    && p.blocks != []
    && p.sid == p.blocks[0].bm.sid
    && ExactRange(p.blocks, p.min, p.max)
  }

  ghost predicate WFIndex(ps: seq<Primary>) {
    forall i :: 0 <= i < |ps| ==> WFPrimary(ps[i])
  }

  /** A part as the writer leaves it: ordered blocks under an exact two-level index. */
  ghost predicate IndexedPart(p: Part) {
    && WFIndex(p.primaries)
    && Ordered(Flat(p.primaries))
    && (forall b :: b in Flat(p.primaries) ==> ExactBlock(b))
    && p.meta.totalCount == RowCount(Flat(p.primaries))
    && p.meta.blocksCount == |Flat(p.primaries)|
    && (Flat(p.primaries) != [] ==> ExactRange(Flat(p.primaries), p.meta.minTs, p.meta.maxTs))
  }

  ghost predicate WFPart(p: Part) {
    IndexedPart(p) && forall b :: b in Flat(p.primaries) ==> WFBlock(b)
  }

  ghost predicate AllIndexed(parts: seq<Part>) {
    forall i :: 0 <= i < |parts| ==> IndexedPart(parts[i])
  }

  // ---------- lemmas ----------

  lemma {:induction false} FlatHead(ps: seq<Primary>)
    ensures Flat(ps) == if ps == [] then [] else ps[0].blocks + Flat(ps[1..])
  {
  }

  lemma {:induction false} FlatConcat(ps: seq<Primary>, qs: seq<Primary>)
    ensures Flat(ps + qs) == Flat(ps) + Flat(qs)
  {
    hide Flat;
    FlatHead(ps);
    FlatHead(ps + qs);
    if ps == [] {
      assert ps + qs == qs;
    } else {
      FlatConcat(ps[1..], qs);
      assert (ps + qs)[1..] == ps[1..] + qs;
    }
  }

  lemma BlockPointsConcat(bs: seq<Block>, cs: seq<Block>)
    ensures BlockPoints(bs + cs) == BlockPoints(bs) + BlockPoints(cs)
  {
    forall p | p in BlockPoints(bs + cs) ensures p in BlockPoints(bs) + BlockPoints(cs) {
      var b :| b in bs + cs && p in b.rows;
      assert b in bs || b in cs;
    }
    forall p | p in BlockPoints(bs) + BlockPoints(cs) ensures p in BlockPoints(bs + cs) {
      if p in BlockPoints(bs) {
        var b :| b in bs && p in b.rows;
        assert b in bs + cs;
      } else {
        var b :| b in cs && p in b.rows;
        assert b in bs + cs;
      }
    }
  }

  lemma BlockPointsOne(b: Block)
    ensures BlockPoints([b]) == Elems(b.rows)
  {
    assert b in [b];
  }

  lemma {:induction false} RowCountConcat(bs: seq<Block>, cs: seq<Block>)
    ensures RowCount(bs + cs) == RowCount(bs) + RowCount(cs)
  {
    if bs == [] {
      assert bs + cs == cs;
    } else {
      RowCountConcat(bs[1..], cs);
      assert (bs + cs)[1..] == bs[1..] + cs;
    }
  }

  /** Widening a range by one block keeps it exact. */
  lemma ExtendRange(bs: seq<Block>, lo: int, hi: int, b: Block)
    requires bs != [] ==> ExactRange(bs, lo, hi)
    ensures ExactRange(bs + [b],
                       if bs == [] || b.bm.min < lo then b.bm.min else lo,
                       if bs == [] || b.bm.max > hi then b.bm.max else hi)
  {
    var cs := bs + [b];
    assert b in cs;
    if bs != [] {
      var x :| x in bs && x.bm.min == lo;
      var y :| y in bs && y.bm.max == hi;
      assert x in cs && y in cs;
    }
  }

  lemma OrderedSnoc(bs: seq<Block>, b: Block)
    requires Ordered(bs)
    requires bs != [] ==> BlockLe(bs[|bs| - 1].bm, b.bm)
    ensures Ordered(bs + [b])
  {
    forall i | 0 <= i < |bs| ensures BlockLe(bs[i].bm, b.bm) {
      if i < |bs| - 1 {
        assert BlockLe(bs[i].bm, bs[|bs| - 1].bm);
      }
    }
  }
}
