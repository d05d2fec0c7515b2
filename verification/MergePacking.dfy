/**
  How a merge packs what it reads: it starts a second block of a series only when the one before is full.
 */
module MergePacking {
  import opened Points
  import opened Parts

  /**
    A full block: it has as many rows as a block may have, where there is such a limit, or its rows
    take more bytes than a block may have, or it is a block of the input of that many bytes.
   */
  ghost predicate Full(b: Block, all: multiset<Block>, sizeOf: seq<Point> -> nat, limit: Option<nat>) {
    || (limit.Some? && limit.value <= |b.rows|)
    || 2097152 < sizeOf(b.rows)
    || (exists x :: x in all && x.rows == b.rows && 2097152 <= x.bm.size)
  }

  /** Of two consecutive blocks of one series, the first is full. */
  ghost predicate Packed(bs: seq<Block>, all: multiset<Block>, sizeOf: seq<Point> -> nat, limit: Option<nat>) {
    forall i :: 0 < i < |bs| && bs[i - 1].bm.sid == bs[i].bm.sid ==> Full(bs[i - 1], all, sizeOf, limit)
  }

  /** The written blocks stay packed when a block of series `sid` follows. */
  ghost predicate PackedBefore(written: seq<Block>, sid: nat, all: multiset<Block>, sizeOf: seq<Point> -> nat,
                               limit: Option<nat>)
  {
    && Packed(written, all, sizeOf, limit)
    && (written != [] && written[|written| - 1].bm.sid == sid ==> Full(written[|written| - 1], all, sizeOf, limit))
  }

  /**
    What the metadata says of the size of the pending rows: nothing, when they come out of a merge, or the
    size of the block of the input that they are.
   */
  ghost predicate Origin(rows: seq<Point>, size: nat, all: multiset<Block>) {
    size == 0 || (exists x :: x in all && x.rows == rows && x.bm.size == size)
  }

  lemma FromMerge(rows: seq<Point>, all: multiset<Block>)
    ensures Origin(rows, 0, all)
  {
  }

  lemma FromInput(b: Block, all: multiset<Block>)
    requires b in all
    ensures Origin(b.rows, b.bm.size, all)
  {
  }

  /** The series moves on, or stays. */
  lemma NextSeries(written: seq<Block>, sid: nat, next: nat, all: multiset<Block>, sizeOf: seq<Point> -> nat,
                   limit: Option<nat>)
    requires PackedBefore(written, sid, all, sizeOf, limit) && sid <= next
    requires written != [] ==> written[|written| - 1].bm.sid <= sid
    ensures PackedBefore(written, next, all, sizeOf, limit)
  {
    hide Packed, Full;
  }

  /** A block is written that is full, or the last of its series. */
  lemma WriteOut(written: seq<Block>, sid: nat, next: nat, out: Block, all: multiset<Block>, sizeOf: seq<Point> -> nat,
                 limit: Option<nat>)
    requires PackedBefore(written, sid, all, sizeOf, limit) && out.bm.sid == sid
    requires sid == next ==> Full(out, all, sizeOf, limit)
    ensures PackedBefore(written + [out], next, all, sizeOf, limit)
  {
    hide Full;
  }

  /** The last block of the part is written. */
  lemma WriteEnd(written: seq<Block>, sid: nat, out: Block, all: multiset<Block>, sizeOf: seq<Point> -> nat,
                 limit: Option<nat>)
    requires PackedBefore(written, sid, all, sizeOf, limit) && out.bm.sid == sid
    ensures Packed(written + [out], all, sizeOf, limit)
  {
    hide Full;
  }

  /** The rest, if any, is written. */
  lemma AllPacked(written: seq<Block>, sid: nat, out: seq<Block>, all: multiset<Block>, sizeOf: seq<Point> -> nat,
                  limit: Option<nat>)
    requires PackedBefore(written, sid, all, sizeOf, limit)
    requires out == [] || (|out| == 1 && out[0].bm.sid == sid)
    ensures Packed(written + out, all, sizeOf, limit)
  {
    hide Packed;
    if out == [] {
      assert written + out == written;
    } else {
      assert out == [out[0]];
      WriteEnd(written, sid, out[0], all, sizeOf, limit);
    }
  }
}
