/**
  The next snapshot.  The source picks parts out of a snapshot by ID; since no two current parts
  share an ID, this replaces exactly the inputs of a change by its outputs.
 */
module TableNext {
  import opened Points
  import opened Parts
  import opened Table
  import opened TableSteps
  import opened TableRefs
  import opened TableInv
  import opened TableFrames
  import opened TableWork

  // ---------- IDs ----------

  lemma ExtraOuts(s: State, p: PartRef)
    ensures p in Outs(s.flusher) || p in Outs(s.merger) || p in s.pending ==> p in Extra(s)
  {
    if p in Outs(s.flusher) { assert p in multiset(Outs(s.flusher)); }
    if p in Outs(s.merger) { assert p in multiset(Outs(s.merger)); }
    if p in s.pending { assert p in multiset(s.pending); }
  }

  /** A flushed part that is not current yet is an open file part. */
  lemma FlushOutsFiles(s: State, p: PartRef)
    requires Inv(s) && p in FlushOuts(s.flusher, s.intro)
    ensures p in Extra(s) || p in BuiltOuts(s.intro)
    ensures p in s.refs && p in s.parts && !s.parts[p].mem
  {
    hide *;
    Unpack(s);
    FlushOutsFile(s.parts, s.snaps, CurParts(s), s.dirs, s.epoch, s.intro, s.flusher, s.merger, p);
    ExtraOuts(s, p);
    CurOpen(s);
    BuiltOutsOpen(s);
  }

  lemma FlushOutsFile(
    parts: map<PartRef, Wrapper>, snaps: map<SnapRef, Snap>, cur: set<PartRef>, dirs: map<nat, Dir>, epoch: nat,
    intro: Intro, flusher: Loop, merger: Loop, p: PartRef)
    requires LoopOK(parts, cur, dirs, intro, Flusher, flusher)
    requires IntroOK(parts, snaps, cur, epoch, intro, flusher, merger)
    requires p in FlushOuts(flusher, intro)
    ensures p in Outs(flusher) || p in BuiltOuts(intro)
    ensures p in parts && !parts[p].mem
  {
    hide IdsOf, OfKind, PointsOf;
  }

  /** An open file part with the ID of a memory part that is or will be current was flushed from it just now. */
  lemma SameIdFile(s: State, p: PartRef, m: PartRef)
    requires Inv(s) && p in s.refs && p in s.parts && !s.parts[p].mem
    requires m in Mems(s) && m in s.parts && s.parts[m].mem && s.parts[m].id == s.parts[p].id
    ensures p in FlushOuts(s.flusher, s.intro)
  {
    hide Counted, PartsWF, DirsWF, LoopOK, IntroOK, Removal, Epochs, Durable, View, FlushOuts, SetOf;
    assert s.parts[p].id in IdsOf(s.parts, FlushOuts(s.flusher, s.intro));
    var f :| f in FlushOuts(s.flusher, s.intro) && IdOf(s.parts, f) == s.parts[p].id;
    FlushOutsFiles(s, f);
  }

  ghost predicate DistinctIds(parts: map<PartRef, Wrapper>, ps: set<PartRef>) {
    forall p, q :: p in ps && q in ps && IdOf(parts, p) == IdOf(parts, q) ==> p == q
  }

  lemma CurIdsDistinct(s: State)
    requires Inv(s) && !s.intro.Built?
    ensures DistinctIds(s.parts, CurParts(s))
  {
    hide Counted, PartsWF, DirsMatch, DirsWF, LoopOK, IntroOK, MemDirs, Removal, Epochs, Durable, View, FlushOuts, SetOf, Mems;
    MemsOpen(s);
    CurOpen(s);
    forall p, q | p in CurParts(s) && q in CurParts(s) && IdOf(s.parts, p) == IdOf(s.parts, q) ensures p == q {
      if !s.parts[p].mem && s.parts[q].mem {
        SameIdFile(s, p, q);
        FlushOutsFiles(s, p);
      } else if s.parts[p].mem && !s.parts[q].mem {
        SameIdFile(s, q, p);
        FlushOutsFiles(s, q);
      }
    }
  }

  // ---------- the source's ID-based selection ----------

  lemma {:induction false} WithoutIs(parts: map<PartRef, Wrapper>, cur: seq<PartRef>, ids: set<nat>)
    ensures forall p :: p in Without(parts, cur, ids) <==> p in cur && IdOf(parts, p) !in ids
    ensures NoDup(cur) ==> NoDup(Without(parts, cur, ids))
  {
    if cur != [] {
      WithoutIs(parts, cur[1..], ids);
      assert forall p :: p in cur <==> p == cur[0] || p in cur[1..];
      var rest := Without(parts, cur[1..], ids);
      if NoDup(cur) && IdOf(parts, cur[0]) !in ids {
        assert NoDup(cur[1..]);
        assert Without(parts, cur, ids) == [cur[0]] + rest;
        assert cur[0] !in rest;
      }
    }
  }

  lemma {:induction false} SubstitutedIs(parts: map<PartRef, Wrapper>, cur: seq<PartRef>, flushed: map<nat, PartRef>)
    ensures |Substituted(parts, cur, flushed)| == |cur|
    ensures forall i :: 0 <= i < |cur| ==>
      var id := IdOf(parts, cur[i]);
      Substituted(parts, cur, flushed)[i] == (if id in flushed then flushed[id] else cur[i])
  {
    if cur != [] {
      SubstitutedIs(parts, cur[1..], flushed);
    }
  }

  lemma {:induction false} SubstitutedSet(
    parts: map<PartRef, Wrapper>, cur: seq<PartRef>, inputs: set<PartRef>, outs: seq<PartRef>, flushed: map<nat, PartRef>)
    requires Paired(parts, inputs, outs, flushed)
    requires DistinctIds(parts, SetOf(cur)) && inputs <= SetOf(cur) && NoDup(cur) && SetOf(outs) !! SetOf(cur)
    ensures SetOf(Substituted(parts, cur, flushed)) == SetOf(cur) - inputs + SetOf(outs)
    ensures NoDup(Substituted(parts, cur, flushed))
  {
    hide IdsOf;
    SubstitutedIs(parts, cur, flushed);
    var next := Substituted(parts, cur, flushed);
    forall i | 0 <= i < |cur| ensures cur[i] in inputs <==> IdOf(parts, cur[i]) in flushed {
      PairedInput(parts, SetOf(cur), inputs, outs, flushed, cur[i]);
    }
    forall x | x in SetOf(cur) - inputs + SetOf(outs) ensures x in SetOf(next) {
      if x in outs {
        var q := PairedSource(parts, inputs, outs, flushed, x);
        var i :| 0 <= i < |cur| && cur[i] == q;
        assert next[i] == x;
      } else {
        var i :| 0 <= i < |cur| && cur[i] == x;
        assert next[i] == x;
      }
    }
    forall x | x in SetOf(next) ensures x in SetOf(cur) - inputs + SetOf(outs) {
      var i :| 0 <= i < |next| && next[i] == x;
      assert cur[i] in SetOf(cur);
    }
    assert NoDup(next) by { SubstitutedNoDup(parts, cur, outs, flushed); }
  }

  lemma PairedSource(
    parts: map<PartRef, Wrapper>, inputs: set<PartRef>, outs: seq<PartRef>, flushed: map<nat, PartRef>, p: PartRef)
    returns (q: PartRef)
    requires Paired(parts, inputs, outs, flushed) && p in outs
    ensures q in inputs && IdOf(parts, q) == IdOf(parts, p) && IdOf(parts, p) in flushed && flushed[IdOf(parts, p)] == p
  {
    assert parts[p].id in IdsOf(parts, inputs);
    q :| q in inputs && IdOf(parts, q) == parts[p].id;
  }

  lemma PairedInput(
    parts: map<PartRef, Wrapper>, cur: set<PartRef>, inputs: set<PartRef>, outs: seq<PartRef>, flushed: map<nat, PartRef>,
    p: PartRef)
    requires Paired(parts, inputs, outs, flushed) && DistinctIds(parts, cur) && inputs <= cur && p in cur
    ensures p in inputs <==> IdOf(parts, p) in flushed
  {
    hide IdsOf;
    var id := IdOf(parts, p);
    if id in flushed {
      var q := PairedSource(parts, inputs, outs, flushed, flushed[id]);
    }
  }

  lemma {:induction false} SubstitutedNoDup(parts: map<PartRef, Wrapper>, cur: seq<PartRef>, outs: seq<PartRef>, flushed: map<nat, PartRef>)
    requires forall d :: d in flushed ==> flushed[d] in outs && flushed[d] in parts && parts[flushed[d]].id == d
    requires DistinctIds(parts, SetOf(cur)) && NoDup(cur) && SetOf(outs) !! SetOf(cur)
    ensures NoDup(Substituted(parts, cur, flushed))
  {
    SubstitutedIs(parts, cur, flushed);
    var next := Substituted(parts, cur, flushed);
    forall i, j | 0 <= i < j < |cur| ensures next[i] != next[j] {
      assert cur[i] in SetOf(cur) && cur[j] in SetOf(cur);
      assert IdOf(parts, cur[i]) != IdOf(parts, cur[j]);
      if IdOf(parts, cur[i]) in flushed { assert next[i] in SetOf(outs); }
      if IdOf(parts, cur[j]) in flushed { assert next[j] in SetOf(outs); }
    }
  }

  ghost predicate Marks(c: Change) {
    c.kind.Merge? || c.kind.Sync?
  }

  /** Picking by ID replaces exactly the inputs by the outputs. */
  lemma NextIs(parts: map<PartRef, Wrapper>, cur: seq<PartRef>, c: Change)
    requires ChangeOK(parts, c) && DistinctIds(parts, SetOf(cur)) && NoDup(cur) && NoDup(c.outs)
    requires c.inputs <= SetOf(cur) && SetOf(c.outs) !! SetOf(cur)
    ensures SetOf(NextSeq(parts, cur, c)) == SetOf(cur) - c.inputs + SetOf(c.outs) && NoDup(NextSeq(parts, cur, c))
    ensures SetOf(Kept(parts, cur, c)) == SetOf(cur) - c.inputs
    ensures MarkedBy(parts, cur, c) == if Marks(c) then c.inputs else {}
  {
    hide PointsOf, Refines;
    if c.kind.Flush? {
      SubstitutedSet(parts, cur, c.inputs, c.outs, c.flushed);
      WithoutIs(parts, cur, c.flushed.Keys);
      forall p | p in cur ensures p in c.inputs <==> IdOf(parts, p) in c.flushed {
        PairedInput(parts, SetOf(cur), c.inputs, c.outs, c.flushed, p);
      }
    } else {
      KeptIs(parts, cur, c);
      var kept := Kept(parts, cur, c);
      assert NoDup(kept + c.outs) by {
        forall i, j | 0 <= i < |kept| && 0 <= j < |c.outs| ensures kept[i] != c.outs[j] {
          assert kept[i] in SetOf(kept) && c.outs[j] in SetOf(c.outs);
        }
      }
    }
  }

  lemma KeptIs(parts: map<PartRef, Wrapper>, cur: seq<PartRef>, c: Change)
    requires !c.kind.Flush? && (c.kind.Write? ==> c.inputs == {})
    requires DistinctIds(parts, SetOf(cur)) && NoDup(cur) && c.inputs <= SetOf(cur)
    ensures NoDup(Kept(parts, cur, c)) && SetOf(Kept(parts, cur, c)) == SetOf(cur) - c.inputs
    ensures MarkedBy(parts, cur, c) == if Marks(c) then c.inputs else {}
  {
    WithoutIs(parts, cur, IdsOf(parts, c.inputs));
    forall p | p in cur ensures p in c.inputs <==> IdOf(parts, p) in IdsOf(parts, c.inputs) {
      if IdOf(parts, p) in IdsOf(parts, c.inputs) {
        var q :| q in c.inputs && IdOf(parts, q) == IdOf(parts, p);
        assert p in SetOf(cur) && q in SetOf(cur);
      }
    }
  }
}
