/** From writes to answers: what a query over a table's snapshot says about what was introduced. */
module EndToEnd {
  import opened Points
  import opened Parts
  import opened Table
  import opened TableSteps
  import opened TableInv
  import opened TableRun
  import opened TableTheorems
  import opened TableBuild
  import opened TableReplace
  import opened TableView
  import opened TableCode
  import opened QueryOrder
  import opened TableSchemas
  import Schemas
  import FamilyOrder
  import MergeSchemas
  import BlockReader
  import PartMerge
  import Query

  /** The parts that some wrappers hold, in order. */
  ghost function PartSeq(parts: map<PartRef, Wrapper>, ps: seq<PartRef>): seq<Part>
    requires forall p :: p in ps ==> p in parts
  {
    if ps == [] then [] else [parts[ps[0]].part] + PartSeq(parts, ps[1..])
  }

  lemma {:induction false} PartSeqPoints(parts: map<PartRef, Wrapper>, ps: seq<PartRef>)
    requires forall p :: p in ps ==> p in parts
    ensures PartMerge.PartsPoints(PartSeq(parts, ps)) == PointsOf(parts, SetOf(ps))
  {
    hide PartPoints;
    if ps == [] {
      assert PointsOf(parts, SetOf(ps)) == {};
    } else {
      PartSeqPoints(parts, ps[1..]);
      assert PartSeq(parts, ps)[1..] == PartSeq(parts, ps[1..]);
      assert SetOf(ps) == {ps[0]} + SetOf(ps[1..]);
      OnePart(parts, ps[0], SetOf(ps[1..]));
    }
  }

  lemma OnePart(parts: map<PartRef, Wrapper>, p: PartRef, ps: set<PartRef>)
    requires p in parts
    ensures PointsOf(parts, {p} + ps) == PartPoints(parts[p].part) + PointsOf(parts, ps)
  {
    hide PartPoints;
  }

  lemma {:induction false} PartSeqWF(parts: map<PartRef, Wrapper>, ps: seq<PartRef>)
    requires forall p :: p in ps ==> p in parts && WFPart(parts[p].part)
    ensures PartMerge.AllWFParts(PartSeq(parts, ps))
  {
    hide WFPart;
    if ps != [] {
      PartSeqWF(parts, ps[1..]);
    }
  }

  /**
    A query over a snapshot that is held in any reachable state answers the request with the resolved
    view of that snapshot; over the current snapshot of a node that hands nothing off, with that of
    everything introduced so far.
   */
  method QuerySnapshot(parts: seq<Part>, sids: seq<nat>, lo: int, hi: int, req: Query.Requested, ghost s: State, ghost h: SnapRef)
    returns (rows: seq<Point>, ord: Order)
    requires Reachable(s) && h in Tokens(s) && Query.Distinct(sids)
    requires forall p :: p in SeqOf(s.snaps, h) ==> p in s.parts
    requires parts == PartSeq(s.parts, SeqOf(s.snaps, h))
    ensures req.Time? ==> ord == ByTime(req.asc)
    ensures req.Index? ==> ord.BySeries? && forall i :: 0 <= i < |sids| ==> sids[i] in ord.index && ord.index[sids[i]] == i
    ensures Query.Answers(rows, PointsOf(s.parts, SetOf(SeqOf(s.snaps, h))), sids, lo, hi, req)
    ensures s.cur == Some(h) && s.handedOff == {} ==> Query.Answers(rows, s.introduced, sids, lo, hi, req)
    ensures IsAnswer(rows, PointsOf(s.parts, SetOf(SeqOf(s.snaps, h))), Query.SetOf(sids), lo, hi, ord)
    ensures s.cur == Some(h) && s.handedOff == {} ==> IsAnswer(rows, s.introduced, Query.SetOf(sids), lo, hi, ord)
  {
    hide *;
    ghost var ps := SeqOf(s.snaps, h);
    forall p | p in ps ensures p in s.parts && WFPart(s.parts[p].part) {
      HeldIsReadable(s, h, p);
    }
    PartSeqWF(s.parts, ps);
    PartSeqPoints(s.parts, ps);
    rows, ord := Query.Run(parts, sids, lo, hi, req);
    if s.cur == Some(h) && s.handedOff == {} {
      VisibleRefinesIntroduced(s);
      CurPointsAre(s, h);
      AnswerTransfers(rows, CurPoints(s), s.introduced, Query.SetOf(sids), lo, hi, ord);
      Query.AnswerMeans(rows, s.introduced, sids, lo, hi, req, ord);
    }
  }

  lemma CurPointsAre(s: State, h: SnapRef)
    requires s.cur == Some(h) && s.handedOff == {}
    ensures CurPoints(s) == PointsOf(s.parts, SetOf(SeqOf(s.snaps, h))) == CurPoints(s) + s.handedOff
  {
    hide PointsOf, SetOf, SeqOf;
  }

  /** The part that a merge of a loop's inputs makes is one that the protocol accepts. */
  lemma {:induction false} MergeIsAccepted(s: State, who: Who, order: seq<PartRef>, p: PartRef, part: Part)
    requires WorkOf(LoopOf(s, who)).Merging? && SetOf(order) == WorkOf(LoopOf(s, who)).inputs
    requires (forall q :: q in order ==> q in s.parts) && p !in s.parts
    requires WFPart(part) && Refines(PartPoints(part), PartMerge.PartsPoints(PartSeq(s.parts, order)))
    ensures Enabled(s, MergeDone(who, p, part))
  {
    hide WFPart, Refines, PartPoints, PartSeq, PointsOf;
    PartSeqPoints(s.parts, order);
  }

  // ---------- merging, from the loop's inputs to the step that ends the merge ----------

  /** The blocks of the parts that some wrappers hold. */
  lemma {:induction false} PartSeqBlocks(parts: map<PartRef, Wrapper>, ps: seq<PartRef>, b: Block)
    requires forall p :: p in ps ==> p in parts
    ensures b in BlockReader.PartsBlocks(PartSeq(parts, ps)) <==> exists p :: p in ps && b in Flat(parts[p].part.primaries)
  {
    hide Flat;
    if ps != [] {
      PartSeqBlocks(parts, ps[1..], b);
      assert PartSeq(parts, ps)[1..] == PartSeq(parts, ps[1..]);
      assert forall p :: p in ps <==> p == ps[0] || p in ps[1..];
      assert b in multiset(Flat(parts[ps[0]].part.primaries)) <==> b in Flat(parts[ps[0]].part.primaries);
    }
  }

  lemma {:induction false} PartSeqRead(parts: map<PartRef, Wrapper>, ps: seq<PartRef>, sid: nat)
    requires forall p :: p in ps ==> p in parts
    ensures MergeSchemas.ReadIn(BlockReader.PartsBlocks(PartSeq(parts, ps)), sid) == ReadFrom(parts, SetOf(ps), sid)
  {
    hide PartSeq, Flat, FamilyOrder.AsRead;
    forall b ensures b in BlockReader.PartsBlocks(PartSeq(parts, ps)) <==>
                     exists p :: p in ps && b in Flat(parts[p].part.primaries)
    {
      PartSeqBlocks(parts, ps, b);
    }
  }

  lemma {:induction false} PartSeqWithin(s: State, ps: seq<PartRef>, ks: nat -> iset<Schemas.Schema>)
    requires AllWithin(s, ks) && forall p :: p in ps ==> p in s.parts
    ensures MergeSchemas.Within(BlockReader.PartsBlocks(PartSeq(s.parts, ps)), ks)
  {
    hide PartSeq, Flat;
    forall b | b in BlockReader.PartsBlocks(PartSeq(s.parts, ps)) ensures b.schema in ks(b.bm.sid) {
      PartSeqBlocks(s.parts, ps, b);
      var p :| p in ps && b in Flat(s.parts[p].part.primaries);
      assert PartWithin(s.parts[p].part, ks);
    }
  }

  /** Some bound on the length of blocks. */
  lemma {:induction false} LengthBound(bs: multiset<Block>) returns (d: nat)
    ensures PartMerge.TodoShort(bs, MAX_BLOCK_LENGTH + d)
    decreases |bs|
  {
    if bs == multiset{} {
      d := 0;
    } else {
      var b :| b in bs;
      var e := LengthBound(bs - multiset{b});
      d := if |b.rows| > e then |b.rows| else e;
      forall x | x in bs ensures |x.rows| <= MAX_BLOCK_LENGTH + d {
        if x != b {
          assert x in bs - multiset{b};
        }
      }
    }
  }

  lemma MergingFacts(s: State, who: Who, order: seq<PartRef>)
    requires Reachable(s) && WorkOf(LoopOf(s, who)).Merging? && SetOf(order) == WorkOf(LoopOf(s, who)).inputs
    ensures order != [] && forall p :: p in order ==> p in s.parts && WFPart(s.parts[p].part)
  {
    hide *;
    ReachableInv(s);
    Unpack(s);
    CurOpen(s);
    MergingInputs(s, who);
    PartsAreWF(s);
    OrderMembers(s, order, WorkOf(LoopOf(s, who)).inputs);
  }

  lemma MergingInputs(s: State, who: Who)
    requires WorkOf(LoopOf(s, who)).Merging? && CurParts(s) <= s.parts.Keys
    requires LoopOK(s.parts, CurParts(s), s.dirs, s.intro, Flusher, s.flusher)
    requires LoopOK(s.parts, CurParts(s), s.dirs, s.intro, Merger, s.merger)
    ensures WorkOf(LoopOf(s, who)).inputs != {} && WorkOf(LoopOf(s, who)).inputs <= s.parts.Keys
  {
    hide CurParts, WritesTo;
  }

  lemma PartsAreWF(s: State)
    requires Disk(s.parts, s.refs, s.dirs, s.curPartID, s.offered)
    ensures forall p :: p in s.parts ==> WFPart(s.parts[p].part)
  {
    hide WFPart, PartPoints;
  }

  lemma OrderMembers(s: State, order: seq<PartRef>, inputs: set<PartRef>)
    requires SetOf(order) == inputs && inputs != {} && inputs <= s.parts.Keys
    ensures order != [] && forall p :: p in order ==> p in s.parts
  {
    forall p | p in order ensures p in s.parts {
      assert p in SetOf(order);
    }
  }

  /**
    Runs the merge of a loop's inputs.  In every state that a run reaches in which whatever enters the table
    has columns of lasting sets, the merge may be run, and the part it makes is one that the protocol
    accepts as a finished merge, so the run goes on within the same sets.
   */
  method MergeInputs(parts: seq<Part>, sizeOf: seq<Point> -> nat, metaLen: BlockMeta -> nat, closeAt: Option<nat>,
                     ghost s: State, ghost who: Who, ghost order: seq<PartRef>, ghost p: PartRef,
                     ghost ks: nat -> iset<Schemas.Schema>)
    returns (r: PartMerge.Outcome)
    requires ReachableWithin(s, ks) && p !in s.parts
    requires WorkOf(LoopOf(s, who)).Merging? && SetOf(order) == WorkOf(LoopOf(s, who)).inputs
    requires (forall q :: q in order ==> q in s.parts) && parts == PartSeq(s.parts, order)
    ensures r.Merged? || (r.Closed? && closeAt.Some?)
    ensures r.Merged? ==> Enabled(s, MergeDone(who, p, r.part)) && Honest(s, MergeDone(who, p, r.part), ks)
    ensures r.Merged? ==> AllWithin(Next(s, MergeDone(who, p, r.part)), ks)
  {
    hide *;
    AllPartsWithin(s, ks);
    MergingFacts(s, who, order);
    PartSeqWF(s.parts, order);
    PartSeqWithin(s, order, ks);
    ghost var bs := BlockReader.PartsBlocks(parts);
    LastingSets(s, ks);
    ghost var d := LengthBound(bs);
    MergeSchemas.StillWithin(bs, [], ks);
    PartSeqNonempty(s.parts, order);
    r := PartMerge.MergeParts(parts, sizeOf, metaLen, closeAt, d);
    if r.Merged? {
      MergeIsAccepted(s, who, order, p, r.part);
      MergeIsHonest(s, who, order, p, r.part, ks);
      StepWithin(s, MergeDone(who, p, r.part), ks);
    }
  }

  lemma LastingSets(s: State, ks: nat -> iset<Schemas.Schema>)
    requires ReachableWithin(s, ks)
    ensures AllLasting(ks) && forall sid :: MergeSchemas.Lasting(ks(sid))
  {
  }

  lemma {:induction false} PartSeqNonempty(parts: map<PartRef, Wrapper>, ps: seq<PartRef>)
    requires (forall p :: p in ps ==> p in parts) && ps != []
    ensures PartSeq(parts, ps) != []
  {
  }

  lemma {:induction false} MergeIsHonest(s: State, who: Who, order: seq<PartRef>, p: PartRef, part: Part, ks: nat -> iset<Schemas.Schema>)
    requires WorkOf(LoopOf(s, who)).Merging? && SetOf(order) == WorkOf(LoopOf(s, who)).inputs
    requires forall q :: q in order ==> q in s.parts
    requires MergeSchemas.MixedFrom(Flat(part.primaries), BlockReader.PartsBlocks(PartSeq(s.parts, order)))
    ensures Honest(s, MergeDone(who, p, part), ks)
  {
    hide Flat, PartSeq, ReadFrom, MergeSchemas.ReadIn;
    forall sid: nat {
      PartSeqRead(s.parts, order, sid);
    }
  }
}
