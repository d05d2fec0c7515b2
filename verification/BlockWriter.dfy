/**
  The block writer: running totals, the order panics, and the two-level index it builds.
  Serialised sizes are parameters: `sizeOf` is the uncompressed size of a block's rows and
  `metaLen` the length of a block's marshalled metadata after its 8-byte series ID.
 */
module BlockWriter {
  import opened Points
  import opened Schemas
  import opened Parts

  ghost predicate AllExact(bs: seq<Block>) {
    forall b :: b in bs ==> ExactBlock(b)
  }

  lemma AllExactSnoc(bs: seq<Block>, b: Block)
    requires AllExact(bs) && ExactBlock(b)
    ensures AllExact(bs + [b])
  {
  }

  lemma {:induction false} AppendPrimary(ps: seq<Primary>, p: Primary)
    requires WFIndex(ps) && WFPrimary(p)
    ensures WFIndex(ps + [p]) && Flat(ps + [p]) == Flat(ps) + p.blocks
  {
    FlatConcat(ps, [p]);
    assert Flat([p]) == p.blocks + Flat([]);
  }

  lemma NoBlocks()
    ensures Flat([]) == [] && WFIndex([]) && Ordered([]) && AllExact([]) && RowCount([]) == 0
  {
  }

  // ---------- where primary blocks end ----------

  /** The length of the metadata of some blocks: for each its series ID and the rest. */
  function MetaBytes(bs: seq<Block>, metaLen: BlockMeta -> nat): nat {
    if bs == [] then 0 else MetaBytes(bs[..|bs| - 1], metaLen) + 8 + metaLen(bs[|bs| - 1].bm)
  }

  /** A primary block ends with the block that takes it over 128 kilobytes. */
  ghost predicate Ended(bs: seq<Block>, metaLen: BlockMeta -> nat) {
    bs != [] && MetaBytes(bs, metaLen) > 131072 && MetaBytes(bs[..|bs| - 1], metaLen) <= 131072
  }

  ghost predicate AllEnded(ps: seq<Primary>, metaLen: BlockMeta -> nat) {
    forall i :: 0 <= i < |ps| ==> Ended(ps[i].blocks, metaLen)
  }

  /** So do the primary blocks of a part, but for the last, which may be shorter. */
  ghost predicate EndedIndex(ps: seq<Primary>, metaLen: BlockMeta -> nat) {
    AllEnded(ps, metaLen) || (ps != [] && AllEnded(ps[..|ps| - 1], metaLen)
      && 0 < MetaBytes(ps[|ps| - 1].blocks, metaLen) <= 131072)
  }

  lemma {:induction false} MetaBytesSnoc(bs: seq<Block>, b: Block, metaLen: BlockMeta -> nat)
    ensures MetaBytes(bs + [b], metaLen) == MetaBytes(bs, metaLen) + 8 + metaLen(b.bm) && MetaBytes([], metaLen) == 0
    ensures (bs + [b])[..|bs|] == bs
  {
    assert (bs + [b])[..|bs|] == bs;
  }

  lemma {:induction false} OneMoreEnded(ps: seq<Primary>, p: Primary, bs: seq<Block>, b: Block, metaLen: BlockMeta -> nat)
    requires AllEnded(ps, metaLen) && p.blocks == bs + [b]
    requires MetaBytes(bs, metaLen) <= 131072 < MetaBytes(bs + [b], metaLen)
    ensures AllEnded(ps + [p], metaLen)
  {
    hide MetaBytes;
    MetaBytesSnoc(bs, b, metaLen);
  }

  lemma NoLast(ps: seq<Primary>, metaLen: BlockMeta -> nat)
    requires AllEnded(ps, metaLen)
    ensures EndedIndex(ps, metaLen)
  {
    hide Ended;
  }

  lemma MetaBytesNil(metaLen: BlockMeta -> nat)
    ensures MetaBytes([], metaLen) == 0
  {
  }

  lemma LastMayBeShort(ps: seq<Primary>, p: Primary, metaLen: BlockMeta -> nat)
    requires AllEnded(ps, metaLen) && 0 < MetaBytes(p.blocks, metaLen) <= 131072
    ensures EndedIndex(ps + [p], metaLen)
  {
    hide Ended, MetaBytes;
    assert (ps + [p])[..|ps|] == ps;
  }

  class Writer {
    const sizeOf: seq<Point> -> nat
    const metaLen: BlockMeta -> nat

    var primaries: seq<Primary>     // metaData, with the primary blocks it points to
    var buf: seq<Block>             // primaryBlockData
    var bufLen: nat                 // len(primaryBlockData)
    var hasWrittenBlocks: bool
    var sidFirst: nat
    var sidLast: nat
    var minTimestamp: int
    var maxTimestamp: int
    var minTimestampLast: int
    var totalMinTimestamp: int
    var totalMaxTimestamp: int
    var totalCount: nat
    var totalBlocksCount: nat

    ghost var written: seq<Block>

    constructor (sizeOf: seq<Point> -> nat, metaLen: BlockMeta -> nat)
      ensures Valid() && written == []
      ensures this.sizeOf == sizeOf && this.metaLen == metaLen
    {
      hide Ordered, AllExact, ExactRange, Flat, WFIndex, RowCount;
      NoBlocks();
      this.sizeOf, this.metaLen := sizeOf, metaLen;
      primaries, buf, bufLen, hasWrittenBlocks := [], [], 0, false;
      sidFirst, sidLast, minTimestamp, maxTimestamp, minTimestampLast := 0, 0, 0, 0, 0;
      totalMinTimestamp, totalMaxTimestamp, totalCount, totalBlocksCount := 0, 0, 0, 0;
      written := [];
    }

    /** The fields of the primary block under construction. */
    ghost predicate ValidBuffer()
      reads this
    {
      && hasWrittenBlocks == (buf != [])
      && (0 < bufLen <==> buf != []) && bufLen == MetaBytes(buf, metaLen)
      && (buf != [] ==> sidFirst == buf[0].bm.sid && ExactRange(buf, minTimestamp, maxTimestamp))
    }

    /** The running totals and the last block's position. */
    ghost predicate ValidTotals()
      reads this
    {
      && totalCount == RowCount(written)
      && totalBlocksCount == |written|
      && (written == [] ==> sidLast == 0 && minTimestampLast == 0)
      && (written != [] ==>
            && 0 < totalCount
            && sidLast == written[|written| - 1].bm.sid
            && minTimestampLast == written[|written| - 1].bm.min
            && ExactRange(written, totalMinTimestamp, totalMaxTimestamp))
    }

    ghost predicate Sound()
      reads this
    {
      ValidContents() && ValidBuffer() && ValidTotals()
    }

    /** Primary blocks end where they should. */
    ghost predicate ValidCuts()
      reads this
    {
      AllEnded(primaries, metaLen) && bufLen <= 131072
    }

    ghost predicate Valid()
      reads this
    {
      Sound() && ValidCuts()
    }

    /** Neither order check fires. */
    predicate InOrder(sid: nat, rows: seq<Point>)
      reads this
    {
      rows != [] ==> sidLast <= sid && (sid == sidLast ==> minTimestampLast <= rows[0].ts)
    }

    /** The metadata a written block gets. */
    function MetaOf(sid: nat, rows: seq<Point>): BlockMeta
      requires rows != []
    {
      BlockMeta(sid, rows[0].ts, rows[|rows| - 1].ts, |rows|, sizeOf(rows))
    }

    /** The blocks written so far are what the index and the buffer hold, in order. */
    ghost predicate ValidContents()
      reads this
    {
      && written == Flat(primaries) + buf
      && WFIndex(primaries)
      && Ordered(written)
      && AllExact(written)
    }

    /**
      Appends one block.  The order of blocks and of rows are the checks that would panic; that the rows are of
      series `sid`, and have cells in the block's columns only, is what the caller means by them.
     */
    method MustWriteBlock(sid: nat, rows: seq<Point>, schema: Schema)
      requires Valid()
      requires SortedTs(rows) && OfSeries(sid, rows) && Named(rows, schema)
      requires InOrder(sid, rows)
      modifies this
      ensures Valid()
      ensures written == old(written) + if rows == [] then [] else [Block(MetaOf(sid, rows), rows, schema)]
    {
      if |rows| == 0 {
        return;
      }
      var b := Block(MetaOf(sid, rows), rows, schema);
      NextBlock(b);
      Append(b);
    }

    /** The part of mustWriteBlock after its checks. */
    method Append(b: Block)
      requires Valid() && b.rows != []
      requires Ordered(written + [b]) && AllExact(written + [b])
      requires written + [b] == Flat(primaries) + (buf + [b])
      modifies this
      ensures Valid()
      ensures written == old(written) + [b]
    {
      hide Sound, Valid, AllEnded, MetaBytes, Ordered, AllExact, Flat;
      ValidIs();
      ghost var bs, ps := buf, primaries;
      Store(b);
      if bufLen > MAX_UNCOMPRESSED_PRIMARY_BLOCK_SIZE {
        FlushPrimaryBlock();
        OneMoreEnded(ps, primaries[|ps|], bs, b, metaLen);
      }
      CutsAre();
    }

    lemma ValidIs()
      requires Valid()
      ensures Sound() && AllEnded(primaries, metaLen) && MetaBytes(buf, metaLen) == bufLen <= 131072
    {
      hide ValidContents, ValidTotals, AllEnded, MetaBytes;
    }

    lemma CutsAre()
      requires Sound() && AllEnded(primaries, metaLen) && bufLen <= 131072
      ensures Valid()
    {
      hide Sound, AllEnded;
    }

    /** The next block extends the order of the blocks before it. */
    lemma NextBlock(b: Block)
      requires Valid() && ExactBlock(b) && InOrder(b.bm.sid, b.rows)
      ensures Ordered(written + [b]) && AllExact(written + [b])
      ensures written + [b] == Flat(primaries) + (buf + [b])
    {
      OrderedSnoc(written, b);
      AllExactSnoc(written, b);
    }

    method Store(b: Block)
      requires Sound() && b.rows != []
      requires Ordered(written + [b]) && AllExact(written + [b])
      requires written + [b] == Flat(primaries) + (buf + [b])
      modifies this
      ensures Sound() && bufLen == MetaBytes(buf, metaLen)
      ensures written == old(written) + [b] && buf == old(buf) + [b] && primaries == old(primaries)
    {
      hide Ordered, AllExact, ExactRange, Flat, WFIndex, RowCount, MetaBytes;
      if !hasWrittenBlocks {
        sidFirst := b.bm.sid;
      }
      sidLast := b.bm.sid;
      ExtendTotals(b);
      ExtendBuffer(b);
    }

    /** The part-level minimum, maximum and counts. */
    method ExtendTotals(b: Block)
      requires totalCount == RowCount(written) && totalBlocksCount == |written|
      requires written != [] ==> 0 < totalCount && ExactRange(written, totalMinTimestamp, totalMaxTimestamp)
      requires b.rows != []
      modifies this`totalMinTimestamp, this`totalMaxTimestamp, this`minTimestampLast, this`totalCount,
               this`totalBlocksCount, this`written
      ensures written == old(written) + [b]
      ensures totalCount == RowCount(written) && totalBlocksCount == |written| && 0 < totalCount
      ensures minTimestampLast == b.bm.min
      ensures ExactRange(written, totalMinTimestamp, totalMaxTimestamp)
    {
      ExtendRange(written, totalMinTimestamp, totalMaxTimestamp, b);
      RowCountConcat(written, [b]);
      if totalCount == 0 || b.bm.min < totalMinTimestamp {
        totalMinTimestamp := b.bm.min;
      }
      if totalCount == 0 || b.bm.max > totalMaxTimestamp {
        totalMaxTimestamp := b.bm.max;
      }
      minTimestampLast := b.bm.min;
      totalCount := totalCount + |b.rows|;
      totalBlocksCount := totalBlocksCount + 1;
      written := written + [b];
    }

    /** The time range and content of the primary block under construction. */
    method ExtendBuffer(b: Block)
      requires hasWrittenBlocks == (buf != [])
      requires (0 < bufLen <==> buf != []) && bufLen == MetaBytes(buf, metaLen)
      requires buf != [] ==> sidFirst == buf[0].bm.sid && ExactRange(buf, minTimestamp, maxTimestamp)
      requires buf == [] ==> sidFirst == b.bm.sid
      modifies this`minTimestamp, this`maxTimestamp, this`buf, this`bufLen, this`hasWrittenBlocks
      ensures buf == old(buf) + [b]
      ensures ValidBuffer()
    {
      hide MetaBytes, ExactRange;
      MetaBytesSnoc(buf, b, metaLen);
      ExtendRange(buf, minTimestamp, maxTimestamp, b);
      if !hasWrittenBlocks || b.bm.min < minTimestamp {
        minTimestamp := b.bm.min;
      }
      if !hasWrittenBlocks || b.bm.max > maxTimestamp {
        maxTimestamp := b.bm.max;
      }
      hasWrittenBlocks := true;
      buf := buf + [b];
      bufLen := bufLen + 8 + metaLen(b.bm);
    }

    /** Closes the primary block under construction, if it holds anything. */
    method FlushPrimaryBlock()
      requires Sound()
      modifies this`primaries, this`buf, this`bufLen, this`hasWrittenBlocks, this`minTimestamp,
               this`maxTimestamp, this`sidFirst
      ensures Sound() && bufLen == 0
      ensures buf == [] && Flat(primaries) == written
      ensures old(buf) == [] ==> primaries == old(primaries)
      ensures old(buf) != [] ==>
        |primaries| == |old(primaries)| + 1 && primaries == old(primaries) + [primaries[|primaries| - 1]]
        && primaries[|primaries| - 1].blocks == old(buf)
    {
      hide Ordered, AllExact, ExactRange, Flat, WFIndex, RowCount, MetaBytes;
      MetaBytesNil(metaLen);
      if bufLen > 0 {
        var p := Primary(sidFirst, minTimestamp, maxTimestamp, buf);
        AppendPrimary(primaries, p);
        primaries := primaries + [p];
      }
      hasWrittenBlocks := false;
      minTimestamp, maxTimestamp, sidFirst := 0, 0, 0;
      buf, bufLen := [], 0;
    }

    /** Ends the part: its metadata is exact and its index covers every block that was written. */
    method Flush() returns (part: Part)
      requires Valid()
      modifies this
      ensures IndexedPart(part) && Flat(part.primaries) == old(written) && EndedIndex(part.primaries, metaLen)
      ensures Valid() && written == []
    {
      var meta := PartMeta(totalCount, totalBlocksCount, totalMinTimestamp, totalMaxTimestamp);
      CloseLast();
      part := Part(meta, primaries);
      Reset();
    }

    /** Closes the last primary block. */
    method CloseLast()
      requires Valid()
      modifies this`primaries, this`buf, this`bufLen, this`hasWrittenBlocks, this`minTimestamp,
               this`maxTimestamp, this`sidFirst
      ensures Sound() && buf == [] && Flat(primaries) == written && EndedIndex(primaries, metaLen)
    {
      hide *;
      ValidIs();
      BufferIs();
      ghost var bs, ps := buf, primaries;
      FlushPrimaryBlock();
      if bs == [] {
        NoLast(ps, metaLen);
      } else {
        LastMayBeShort(ps, primaries[|ps|], metaLen);
      }
    }

    lemma BufferIs()
      requires Valid()
      ensures 0 < bufLen <==> buf != []
    {
      hide ValidContents, ValidTotals, ValidCuts;
    }

    lemma NothingWritten()
      requires primaries == [] && buf == [] && bufLen == 0 && !hasWrittenBlocks && written == []
      requires sidLast == 0 && minTimestampLast == 0 && totalCount == 0 && totalBlocksCount == 0
      ensures Valid()
    {
      hide Ordered, AllExact, ExactRange, Flat, WFIndex, RowCount, Ended;
      NoBlocks();
    }

    method Reset()
      modifies this
      ensures Valid() && written == []
    {
      hide Ordered, AllExact, ExactRange, Flat, WFIndex, RowCount, MetaBytes, AllEnded, Valid;
      primaries, buf, bufLen, hasWrittenBlocks := [], [], 0, false;
      sidFirst, sidLast, minTimestamp, maxTimestamp, minTimestampLast := 0, 0, 0, 0, 0;
      totalMinTimestamp, totalMaxTimestamp, totalCount, totalBlocksCount := 0, 0, 0, 0;
      written := [];
      NothingWritten();
    }
  }
}
