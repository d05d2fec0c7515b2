/** The writers, the receivers and the two loops keep the invariant. */
module TableWork {
  import opened Points
  import opened Parts
  import opened Table
  import opened TableSteps
  import opened TableRefs
  import opened TableInv
  import opened TableFrames

  // ---------- directories alone ----------

  lemma DirsKeep(s: State, dirs': map<nat, Dir>, curPartID': nat)
    requires Inv(s) && Disk(s.parts, s.refs, dirs', curPartID', s.offered) && FlushKept(s.dirs, dirs')
    requires forall who :: MergeKept(s.dirs, dirs', who) || !WorkOf(LoopOf(s, who)).Merging?
    requires forall d :: d in dirs' ==> d in s.dirs || d > s.curPartID
    requires forall d :: d in dirs' && dirs'[d].Deleting? ==> d in s.dirs && s.dirs[d].Deleting?
    ensures Inv(s.(dirs := dirs', curPartID := curPartID'))
  {
    hide Counted, PartsWF, DirsMatch, DirsWF, LoopOK, IntroOK, MemDirs, Removal, Epochs, Durable, View,
         Listed, SeqOf, Outs, FlushKept, MergeKept;
    assert LoopOf(s, Flusher) == s.flusher && LoopOf(s, Merger) == s.merger;
    LoopDirs(s.parts, CurParts(s), s.dirs, dirs', s.intro, Flusher, s.flusher);
    LoopDirs(s.parts, CurParts(s), s.dirs, dirs', s.intro, Merger, s.merger);
    MemsOpen(s);
    MemDirsDirs(s.parts, Mems(s), s.dirs, dirs', s.flusher, s.intro);
    DurableDirs(s.parts, CurParts(s), s.dirs, dirs', Listed(s.snps, s.gc));
  }

  /** Parts that are or will be current are open. */
  lemma MemsOpen(s: State)
    requires Counted(s.snaps, s.srefs, s.refs, Tokens(s), Extra(s))
    requires Disk(s.parts, s.refs, s.dirs, s.curPartID, s.offered)
    requires IntroOK(s.parts, s.snaps, CurParts(s), s.epoch, s.intro, s.flusher, s.merger)
    ensures Mems(s) <= s.refs.Keys <= s.parts.Keys
    ensures CurParts(s) <= Mems(s) && s.pending <= Mems(s)
    ensures forall q :: q in Mems(s) ==> 1 <= s.parts[q].id <= s.curPartID
  {
    hide Counted, PartsWF, DirsMatch, DirsWF, IntroOK, SetOf, Tokens, Outs;
    CurOpen(s);
    forall p | p in s.pending ensures p in Extra(s) {
      assert p in multiset(s.pending);
    }
    BuiltOutsOpen(s);
  }

  lemma BuiltOutsOpen(s: State)
    requires Counted(s.snaps, s.srefs, s.refs, Tokens(s), Extra(s))
    requires IntroOK(s.parts, s.snaps, CurParts(s), s.epoch, s.intro, s.flusher, s.merger)
    ensures BuiltOuts(s.intro) <= s.refs.Keys
  {
    hide ChangeOK, PartsCounted, LoopToken, CurParts;
    if s.intro.Built? {
      assert s.intro.next in Tokens(s);
      forall p | p in s.intro.change.outs ensures p in s.refs {
        assert p in SetOf(s.snaps[s.intro.next].parts);
      }
    }
  }

  lemma OpenDirKeeps(s: State, purpose: Purpose)
    requires Inv(s)
    ensures Inv(OpenDir(s, purpose))
  {
    hide Counted, PartsWF, IdsUnique, DirsMatch, LoopOK, IntroOK, MemDirs, Removal, Epochs, Durable, View,
         FlushKept, MergeKept, WFPart;
    DiskOpen(s.parts, s.refs, s.dirs, s.curPartID, s.offered, purpose);
    DirsKeep(s, s.dirs[s.curPartID + 1 := Writing(purpose)], s.curPartID + 1);
  }

  /** An aborted receipt and a finished removal: the directory disappears. */
  lemma ForgetKeeps(s: State, id: nat)
    requires Inv(s) && id in s.dirs && (s.dirs[id].Deleting? || s.dirs[id] == Writing(Receiving))
    ensures Inv(s.(dirs := s.dirs - {id}))
  {
    hide Counted, PartsWF, IdsUnique, DirsMatch, LoopOK, IntroOK, MemDirs, Removal, Epochs, Durable, View, WFPart;
    DiskOther(s.parts, s.refs, s.dirs, s.curPartID, s.offered, id, Receiving);
    DirsKeep(s, s.dirs - {id}, s.curPartID);
  }

  // ---------- work that changes no part ----------

  /** Only a waiting loop is bound to the change that has been built. */
  lemma IntroWork(
    parts: map<PartRef, Wrapper>, snaps: map<SnapRef, Snap>, cur: set<PartRef>, epoch: nat, s: State, who: Who, l: Loop)
    requires IntroOK(parts, snaps, cur, epoch, s.intro, s.flusher, s.merger) && !WorkOf(LoopOf(s, who)).Waiting?
    ensures IntroOK(parts, snaps, cur, epoch, s.intro, WithLoop(s, who, l).flusher, WithLoop(s, who, l).merger)
    ensures s.intro.Built? ==> Sender(s.intro.change) != Some(who)
  {
    hide ChangeOK, SetOf;
  }

  lemma WorkKeeps(s: State, who: Who, l: Loop)
    requires Inv(s) && LoopOf(s, who).Holding? && !LoopOf(s, who).work.Waiting?
    requires l.Holding? && l.snap == LoopOf(s, who).snap && Outs(l) == Outs(LoopOf(s, who))
    requires LoopOK(s.parts, CurParts(s), s.dirs, s.intro, who, l)
    requires MemDirs(s.parts, Mems(s), s.dirs, WithLoop(s, who, l).flusher, s.intro)
    ensures Inv(WithLoop(s, who, l))
  {
    hide Counted, Disk, LoopOK, IntroOK, MemDirs, Removal, Epochs, Durable, View, Listed, SetOf, Outs;
    IntroWork(s.parts, s.snaps, CurParts(s), s.epoch, s, who, l);
    assert Tokens(WithLoop(s, who, l)) == Tokens(s);
    assert Extra(WithLoop(s, who, l)) == Extra(s);
  }

  lemma FlushSendKeeps(s: State)
    requires Inv(s)
    requires WorkOf(s.flusher).FlushingParts? && WorkOf(s.flusher).writing.None? && WorkOf(s.flusher).inputs != {}
    ensures var w := s.flusher.work;
      Inv(WithWork(s, Flusher, Sent(Change(Flush, w.inputs, w.outs, w.flushed))))
  {
    hide *;
    Unpack(s);
    var l := Working(s.flusher, Sent(Change(Flush, WorkOf(s.flusher).inputs, WorkOf(s.flusher).outs, WorkOf(s.flusher).flushed)));
    FlushSentIs(s, l);
    WorkKeeps(s, Flusher, l);
  }

  lemma FlushSentIs(s: State, l: Loop)
    requires LoopOK(s.parts, CurParts(s), s.dirs, s.intro, Flusher, s.flusher)
    requires MemDirs(s.parts, Mems(s), s.dirs, s.flusher, s.intro)
    requires WorkOf(s.flusher).FlushingParts? && WorkOf(s.flusher).writing.None? && WorkOf(s.flusher).inputs != {}
    requires var w := WorkOf(s.flusher); l == Working(s.flusher, Sent(Change(Flush, w.inputs, w.outs, w.flushed)))
    ensures LoopOf(s, Flusher) == s.flusher && s.flusher.Holding? && s.flusher.work == WorkOf(s.flusher)
    ensures l.Holding? && l.snap == s.flusher.snap && Outs(l) == Outs(s.flusher)
    ensures WithLoop(s, Flusher, l) == s.(flusher := l)
    ensures WithWork(s, Flusher, l.work) == s.(flusher := l)
    ensures l.work == var w := s.flusher.work; Sent(Change(Flush, w.inputs, w.outs, w.flushed))
    ensures LoopOK(s.parts, CurParts(s), s.dirs, s.intro, Flusher, l)
    ensures MemDirs(s.parts, Mems(s), s.dirs, l, s.intro)
  {
    hide Paired, OfKind, CurParts, Mems, IdsOf;
    var w := s.flusher.work;
    PairedKnown(s.parts, w.inputs, w.outs, w.flushed);
    assert FlushOuts(l, s.intro) == FlushOuts(s.flusher, s.intro);
  }

  lemma PairedKnown(parts: map<PartRef, Wrapper>, inputs: set<PartRef>, outs: seq<PartRef>, flushed: map<nat, PartRef>)
    requires Paired(parts, inputs, outs, flushed)
    ensures inputs <= parts.Keys && (forall p :: p in outs ==> p in parts)
  {
  }

  lemma SyncSendKeeps(s: State, inputs: set<PartRef>)
    requires Inv(s) && s.merger.Holding? && s.merger.work.Nothing? && inputs != {} && inputs <= s.merger.todo
    ensures Inv(WithWork(s, Merger, Sent(Change(Sync, inputs, [], map[]))))
  {
    hide Counted, Disk, IntroOK, Removal, Epochs, Durable, View, Listed, SetOf, MemDirs;
    WorkKeeps(s, Merger, s.merger.(work := Sent(Change(Sync, inputs, [], map[]))));
  }

  lemma MergeBeginKeeps(s: State, who: Who, inputs: set<PartRef>)
    requires Inv(s) && LoopOf(s, who).Holding? && LoopOf(s, who).work.Nothing?
    requires inputs != {} && inputs <= LoopOf(s, who).todo
    ensures Inv(WithWork(OpenDir(s, ByLoop(who)), who, Merging(inputs, s.curPartID + 1)))
  {
    hide Inv;
    OpenDirKeeps(s, ByLoop(who));
    MergingKeeps(OpenDir(s, ByLoop(who)), who, inputs, s.curPartID + 1);
  }

  lemma MergingKeeps(s: State, who: Who, inputs: set<PartRef>, id: nat)
    requires Inv(s) && LoopOf(s, who).Holding? && LoopOf(s, who).work.Nothing?
    requires inputs != {} && inputs <= LoopOf(s, who).todo && WritesTo(s.dirs, id, ByLoop(who))
    ensures Inv(WithWork(s, who, Merging(inputs, id)))
  {
    hide Counted, Disk, IntroOK, MemDirs, Removal, Epochs, Durable, View, Listed, SetOf, OfKind;
    var l := LoopOf(s, who).(work := Merging(inputs, id));
    NoFlush(s.parts, Mems(s), s.dirs, s, who, l);
    WorkKeeps(s, who, l);
  }

  /** A loop that flushes nothing, before and after, is all the same to the directories of memory parts. */
  lemma NoFlush(
    parts: map<PartRef, Wrapper>, mems: set<PartRef>, dirs: map<nat, Dir>, s: State, who: Who, l: Loop)
    requires MemDirs(parts, mems, dirs, s.flusher, s.intro)
    requires var w := WorkOf(LoopOf(s, who)); w.Nothing? || w.Merging?
    requires var w := WorkOf(l); w.Nothing? || w.Merging? || (w.Sent? && !w.change.kind.Flush?)
    ensures MemDirs(parts, mems, dirs, WithLoop(s, who, l).flusher, s.intro)
  {
    hide IdsOf, SetOf;
    assert FlushOuts(WithLoop(s, who, l).flusher, s.intro) == FlushOuts(s.flusher, s.intro);
  }

  lemma MergeFailKeeps(s: State, who: Who)
    requires Inv(s) && WorkOf(LoopOf(s, who)).Merging?
    ensures Inv(MergeFails(s, who))
  {
    hide *;
    Unpack(s);
    EitherLoop(s, who);
    MergeWriting(s, who);
    var l, id := LoopOf(s, who), LoopOf(s, who).work.id;
    var l' := Holding(l.snap, {}, false, Nothing);
    GivenUp(s, who, l');
    NoFlush(s.parts, Mems(s), s.dirs, s, who, l');
    WorkKeeps(s, who, l');
    MergeFailsIs(s, who, l');
    AbandonKeeps(WithLoop(s, who, l'), who, id);
  }

  lemma GivenUp(s: State, who: Who, l': Loop)
    requires LoopOf(s, who).Holding? && LoopOf(s, who).work.Merging?
    requires l' == Holding(LoopOf(s, who).snap, {}, false, Nothing)
    ensures Outs(l') == Outs(LoopOf(s, who)) && WorkOf(l').Nothing? && WorkOf(LoopOf(s, who)).Merging?
    ensures LoopOK(s.parts, CurParts(s), s.dirs, s.intro, who, l')
  {
    hide OfKind, CurParts;
  }

  lemma MergeFailsIs(s: State, who: Who, l': Loop)
    requires LoopOf(s, who).Holding? && LoopOf(s, who).work.Merging?
    requires var id := LoopOf(s, who).work.id; id in s.dirs && s.dirs[id] == Writing(ByLoop(who))
    requires l' == Holding(LoopOf(s, who).snap, {}, false, Nothing)
    ensures var t, id := WithLoop(s, who, l'), LoopOf(s, who).work.id;
      && MergeFails(s, who) == t.(dirs := t.dirs[id := Writing(Abandoned)])
      && WorkOf(LoopOf(t, who)).Nothing? && WritesTo(t.dirs, id, ByLoop(who))
  {
  }

  lemma AbandonKeeps(s: State, who: Who, id: nat)
    requires Inv(s) && WorkOf(LoopOf(s, who)).Nothing? && WritesTo(s.dirs, id, ByLoop(who))
    ensures Inv(s.(dirs := s.dirs[id := Writing(Abandoned)]))
  {
    hide Counted, PartsWF, IdsUnique, DirsMatch, LoopOK, IntroOK, MemDirs, Removal, Epochs, Durable, View, WFPart;
    DiskOther(s.parts, s.refs, s.dirs, s.curPartID, s.offered, id, Abandoned);
    DirsKeep(s, s.dirs[id := Writing(Abandoned)], s.curPartID);
  }

  // ---------- flushing a part ----------

  /** A flushed part has the ID of the memory part it was flushed from, and no other's. */
  lemma PairedIds(
    parts: map<PartRef, Wrapper>, refs: map<PartRef, int>, curPartID: nat, inputs: set<PartRef>, outs: seq<PartRef>,
    flushed: map<nat, PartRef>, q: PartRef)
    requires Paired(parts, inputs, outs, flushed) && IdsUnique(parts, refs, curPartID) && inputs <= refs.Keys
    requires q in refs && q in parts && parts[q].mem && parts[q].id in IdsOf(parts, SetOf(outs))
    ensures q in inputs
  {
    var id := parts[q].id;
    var p :| p in SetOf(outs) && IdOf(parts, p) == id;
    assert id in IdsOf(parts, inputs);
    var q' :| q' in inputs && IdOf(parts, q') == id;
    assert q' == q;
  }

  ghost predicate CanFlush(flusher: Loop, q: PartRef) {
    && flusher.Holding? && q in flusher.todo
    && (flusher.work.Nothing?
        || (flusher.work.FlushingParts? && flusher.work.writing.None? && q !in flusher.work.inputs))
  }

  /** A memory part that is about to be flushed has no directory yet. */
  lemma FlushFresh(s: State, q: PartRef)
    requires Inv(s) && CanFlush(s.flusher, q)
    ensures q in CurParts(s) && q in s.refs && q in s.parts && s.parts[q].mem
    ensures 1 <= s.parts[q].id <= s.curPartID && s.parts[q].id !in s.dirs
  {
    hide Counted, Disk, Paired, ChangeOK, Removal, Epochs, Durable, View, SetOf, IdsOf;
    MemsOpen(s);
    FlushedBefore(s, q);
  }

  lemma FlushedBefore(s: State, q: PartRef)
    requires Inv(s) && CanFlush(s.flusher, q)
    ensures q in CurParts(s) && q in s.parts && s.parts[q].mem
    ensures s.parts[q].id !in IdsOf(s.parts, FlushOuts(s.flusher, s.intro))
  {
    hide Counted, PartsWF, DirsMatch, DirsWF, LoopOK, IntroOK, Paired, MemDirs, Removal, Epochs, Durable, View,
         IdsOf, SetOf, FlushOuts, FlushSoFar, CanFlush;
    MemsOpen(s);
    FlushState(s.parts, s.snaps, CurParts(s), s.dirs, s.epoch, s.intro, s.flusher, s.merger, q);
    var w := FlushSoFar(s.flusher);
    if s.parts[q].id in IdsOf(s.parts, SetOf(w.outs)) {
      PairedIds(s.parts, s.refs, s.curPartID, w.inputs, w.outs, w.flushed, q);
    }
  }

  lemma FlushState(
    parts: map<PartRef, Wrapper>, snaps: map<SnapRef, Snap>, cur: set<PartRef>, dirs: map<nat, Dir>, epoch: nat,
    intro: Intro, flusher: Loop, merger: Loop, q: PartRef)
    requires LoopOK(parts, cur, dirs, intro, Flusher, flusher)
    requires IntroOK(parts, snaps, cur, epoch, intro, flusher, merger) && CanFlush(flusher, q)
    ensures FlushSoFar(flusher).FlushingParts?
    ensures var w := FlushSoFar(flusher);
      && FlushOuts(flusher, intro) == SetOf(w.outs) && Paired(parts, w.inputs, w.outs, w.flushed)
      && w.inputs <= cur && q !in w.inputs && q in cur && q in parts && parts[q].mem
  {
    hide ChangeOK, IdsOf;
  }

  lemma FlushBeginKeeps(s: State, q: PartRef)
    requires Inv(s) && CanFlush(s.flusher, q)
    ensures Inv(BeginsFlush(s, q))
  {
    hide *;
    Unpack(s);
    FlushFresh(s, q);
    var id := s.parts[q].id;
    var dirs' := s.dirs[id := Writing(Flushing(q))];
    DiskOther(s.parts, s.refs, s.dirs, s.curPartID, s.offered, id, Flushing(q));
    NewWrite(s.dirs, id, Flushing(q));
    LoopDirs(s.parts, CurParts(s), s.dirs, dirs', s.intro, Merger, s.merger);
    BeginWork(s.parts, CurParts(s), s.dirs, s.intro, s.flusher, q);
    BeginsFlushIs(s, q);
    IntroWork(s.parts, s.snaps, CurParts(s), s.epoch, s, Flusher, BeginsFlush(s, q).flusher);
    BeginMems(s, q);
    DurableDirs(s.parts, CurParts(s), s.dirs, dirs', Listed(s.snps, s.gc));
    Pack(BeginsFlush(s, q));
  }

  lemma NewWrite(dirs: map<nat, Dir>, id: nat, purpose: Purpose)
    requires id !in dirs
    ensures var dirs' := dirs[id := Writing(purpose)];
      FlushKept(dirs, dirs') && MergeKept(dirs, dirs', Flusher) && MergeKept(dirs, dirs', Merger)
  {
  }

  lemma BeginsFlushIs(s: State, q: PartRef)
    requires CanFlush(s.flusher, q) && q in s.parts
    ensures FlushSoFar(s.flusher).FlushingParts? && s.flusher.Holding? && !WorkOf(s.flusher).Waiting?
    ensures LoopOf(s, Flusher) == s.flusher
    ensures var w, t := FlushSoFar(s.flusher), BeginsFlush(s, q);
      && t == s.(dirs := s.dirs[s.parts[q].id := Writing(Flushing(q))], flusher := t.flusher)
      && t.flusher == s.flusher.(work := FlushingParts(w.inputs, w.outs, w.flushed, Some(q)))
      && WithLoop(s, Flusher, t.flusher) == s.(flusher := t.flusher)
      && CurParts(t) == CurParts(s) && Mems(t) == Mems(s) && Tokens(t) == Tokens(s) && Extra(t) == Extra(s)
  {
    hide SetOf, SeqOf, TokensOf, ExtraOf;
    WorkTokens(s, Flusher, BeginsFlush(s, q).flusher);
  }

  /** A loop goes on holding its snapshot and what it has made. */
  lemma WorkTokens(s: State, who: Who, l: Loop)
    requires LoopOf(s, who).Holding? && l.Holding? && l.snap == LoopOf(s, who).snap && Outs(l) == Outs(LoopOf(s, who))
    ensures var t := WithLoop(s, who, l);
      && TokensOf(s.readers, s.cur, s.intro, t.flusher, t.merger) == Tokens(s)
      && ExtraOf(s.pending, t.flusher, t.merger) == Extra(s)
  {
    hide Outs;
  }

  lemma BeginWork(
    parts: map<PartRef, Wrapper>, cur: set<PartRef>, dirs: map<nat, Dir>, intro: Intro, flusher: Loop, q: PartRef)
    requires LoopOK(parts, cur, dirs, intro, Flusher, flusher) && CanFlush(flusher, q) && q in parts
    ensures var w := FlushSoFar(flusher);
      LoopOK(parts, cur, dirs[parts[q].id := Writing(Flushing(q))], intro, Flusher,
             flusher.(work := FlushingParts(w.inputs, w.outs, w.flushed, Some(q))))
  {
    hide OfKind, IdsOf;
  }

  lemma BeginMems(s: State, q: PartRef)
    requires Inv(s) && CanFlush(s.flusher, q) && q in s.parts && s.parts[q].id !in s.dirs && q in s.refs && s.parts[q].mem
    ensures var w := FlushSoFar(s.flusher);
      MemDirs(s.parts, Mems(s), s.dirs[s.parts[q].id := Writing(Flushing(q))],
              s.flusher.(work := FlushingParts(w.inputs, w.outs, w.flushed, Some(q))), s.intro)
  {
    hide Counted, PartsWF, DirsMatch, DirsWF, LoopOK, IntroOK, Removal, Epochs, Durable, View, Listed, SetOf, IdsOf;
    MemsOpen(s);
    var w := FlushSoFar(s.flusher);
    var l := s.flusher.(work := FlushingParts(w.inputs, w.outs, w.flushed, Some(q)));
    SameFlushOuts(s.flusher, s.intro, q);
    assert forall m :: m in Mems(s) && s.parts[m].mem && s.parts[m].id == s.parts[q].id ==> m == q;
  }

  lemma SameFlushOuts(flusher: Loop, intro: Intro, q: PartRef)
    requires CanFlush(flusher, q)
    ensures var w := FlushSoFar(flusher);
      FlushOuts(flusher.(work := FlushingParts(w.inputs, w.outs, w.flushed, Some(q))), intro) == FlushOuts(flusher, intro)
  {
  }

  // ---------- new wrappers ----------

  /** What survives the arrival of any new wrapper. */
  lemma GrowKeeps(s: State, p: PartRef, w: Wrapper, more: set<Point>)
    requires Inv(s) && p !in s.parts && (w.mem ==> w.id !in s.dirs)
    ensures p !in Extra(s) && p !in s.pending && CurParts(s) <= s.parts.Keys
    ensures var parts := s.parts[p := w]; var cur := CurParts(s);
      && Counted(s.snaps, s.srefs, s.refs[p := 1], Tokens(s), Extra(s) + multiset{p})
      && LoopOK(parts, cur, s.dirs, s.intro, Flusher, s.flusher)
      && LoopOK(parts, cur, s.dirs, s.intro, Merger, s.merger)
      && IntroOK(parts, s.snaps, cur, s.epoch, s.intro, s.flusher, s.merger)
      && MemDirs(parts, Mems(s) + {p}, s.dirs, s.flusher, s.intro)
      && Removal(parts, s.refs[p := 1], s.removable, cur, Extra(s) + multiset{p}, s.intro, Listed(s.snps, s.gc))
      && Durable(parts, cur, s.dirs, Listed(s.snps, s.gc))
      && View(parts, cur, s.offered + more, s.introduced, s.handedOff, s.flushedEver)
  {
    hide Counted, Disk, LoopOK, IntroOK, MemDirs, Removal, Epochs, Durable, View, Listed, SetOf, FlushOuts;
    CurOpen(s);
    MemsOpen(s);
    AddExtra(s.snaps, s.srefs, s.refs, Tokens(s), Extra(s), p);
    LoopGrows(s.parts, p, w, CurParts(s), s.dirs, s.intro, Flusher, s.flusher);
    LoopGrows(s.parts, p, w, CurParts(s), s.dirs, s.intro, Merger, s.merger);
    IntroGrows(s.parts, p, w, s.snaps, CurParts(s), s.epoch, s.intro, s.flusher, s.merger);
    FlushOutsKnown(s.parts, s.snaps, CurParts(s), s.dirs, s.epoch, s.intro, s.flusher, s.merger);
    MemDirsGrow(s.parts, p, w, Mems(s), s.dirs, s.flusher, s.intro);
    RemovalGrows(s.parts, p, w, s.refs, s.removable, CurParts(s), Extra(s), s.intro, Listed(s.snps, s.gc));
    DurableGrows(s.parts, p, w, CurParts(s), s.dirs, Listed(s.snps, s.gc));
    ViewGrows(s.parts, p, w, CurParts(s), s.offered, s.introduced, s.handedOff, s.flushedEver, more);
  }

  lemma FlushOutsKnown(
    parts: map<PartRef, Wrapper>, snaps: map<SnapRef, Snap>, cur: set<PartRef>, dirs: map<nat, Dir>, epoch: nat,
    intro: Intro, flusher: Loop, merger: Loop)
    requires LoopOK(parts, cur, dirs, intro, Flusher, flusher)
    requires IntroOK(parts, snaps, cur, epoch, intro, flusher, merger)
    ensures FlushOuts(flusher, intro) <= parts.Keys
  {
    hide IdsOf, OfKind, PointsOf;
  }

  lemma PrepareMemKeeps(s: State, p: PartRef, part: Part)
    requires Inv(s) && p !in s.parts && WFPart(part)
    ensures Inv(Prepares(s, p, part))
  {
    hide *;
    Unpack(s);
    NextIdFresh(s);
    GrowKeeps(s, p, Wrapper(s.curPartID + 1, true, part), PartPoints(part));
    DiskAddMem(s.parts, s.refs, s.dirs, s.curPartID, s.offered, p, part);
    PreparesIs(s, p, part);
    Pack(Prepares(s, p, part));
  }

  lemma NextIdFresh(s: State)
    requires Disk(s.parts, s.refs, s.dirs, s.curPartID, s.offered)
    ensures s.curPartID + 1 !in s.dirs
  {
  }

  lemma PreparesIs(s: State, p: PartRef, part: Part)
    requires p !in s.pending
    ensures var t := Prepares(s, p, part);
      && t == s.(parts := s.parts[p := Wrapper(s.curPartID + 1, true, part)], refs := s.refs[p := 1],
                 curPartID := s.curPartID + 1, pending := s.pending + {p}, offered := s.offered + PartPoints(part))
      && CurParts(t) == CurParts(s) && Tokens(t) == Tokens(s) && Extra(t) == Extra(s) + multiset{p}
      && Mems(t) == Mems(s) + {p}
  {
    hide SetOf, SeqOf, ExtraOf, TokensOf, PartPoints;
    PendingExtra(s.pending, p, s.flusher, s.merger);
    assert CurParts(s) + (s.pending + {p}) + BuiltOuts(s.intro) == Mems(s) + {p};
  }

  lemma PendingExtra(pending: set<PartRef>, p: PartRef, flusher: Loop, merger: Loop)
    requires p !in pending
    ensures ExtraOf(pending + {p}, flusher, merger) == ExtraOf(pending, flusher, merger) + multiset{p}
  {
    hide Outs;
    assert multiset(pending + {p}) == multiset(pending) + multiset{p};
  }

  /** A directory that is being written to becomes complete. */
  lemma Completed(dirs: map<nat, Dir>, id: nat, part: Part)
    requires id in dirs && dirs[id].Writing?
    ensures var dirs' := dirs[id := Complete(part)];
      && dirs'.Keys == dirs.Keys
      && (dirs[id].purpose.Flushing? || FlushKept(dirs, dirs'))
      && (dirs[id].purpose == ByLoop(Flusher) || MergeKept(dirs, dirs', Flusher))
      && (dirs[id].purpose == ByLoop(Merger) || MergeKept(dirs, dirs', Merger))
      && (forall d :: d in dirs' && dirs'[d].Deleting? ==> d in dirs && dirs[d].Deleting?)
  {
  }

  lemma ReceivesKeeps(s: State, id: nat, p: PartRef, part: Part)
    requires Inv(s) && p !in s.parts && WFPart(part) && WritesTo(s.dirs, id, Receiving)
    ensures Inv(Receives(s, id, p, part))
  {
    hide *;
    Unpack(s);
    WritesToIs(s.dirs, id, Receiving);
    var w, dirs', cur := Wrapper(id, false, part), s.dirs[id := Complete(part)], CurParts(s);
    var parts' := s.parts[p := w];
    GrowKeeps(s, p, w, PartPoints(part));
    DiskAddFile(s.parts, s.refs, s.dirs, s.curPartID, s.offered, p, id, part);
    Completed(s.dirs, id, part);
    LoopDirs(parts', cur, s.dirs, dirs', s.intro, Flusher, s.flusher);
    LoopDirs(parts', cur, s.dirs, dirs', s.intro, Merger, s.merger);
    MemDirsDirs(parts', Mems(s) + {p}, s.dirs, dirs', s.flusher, s.intro);
    DurableDirs(parts', cur, s.dirs, dirs', Listed(s.snps, s.gc));
    ReceivesIs(s, id, p, part);
    Pack(Receives(s, id, p, part));
  }

  lemma WritesToIs(dirs: map<nat, Dir>, id: nat, purpose: Purpose)
    requires WritesTo(dirs, id, purpose)
    ensures id in dirs && dirs[id] == Writing(purpose)
  {
  }

  lemma ReceivesIs(s: State, id: nat, p: PartRef, part: Part)
    requires p !in s.pending
    ensures var t := Receives(s, id, p, part);
      && t == s.(parts := s.parts[p := Wrapper(id, false, part)], refs := s.refs[p := 1],
                 dirs := s.dirs[id := Complete(part)], pending := s.pending + {p}, offered := s.offered + PartPoints(part))
      && CurParts(t) == CurParts(s) && Tokens(t) == Tokens(s) && Extra(t) == Extra(s) + multiset{p}
      && Mems(t) == Mems(s) + {p}
  {
    hide SetOf, SeqOf, ExtraOf, TokensOf, PartPoints;
    PendingExtra(s.pending, p, s.flusher, s.merger);
    assert CurParts(s) + (s.pending + {p}) + BuiltOuts(s.intro) == Mems(s) + {p};
  }

  // ---------- a merge ends ----------

  lemma MergeEndsKeeps(s: State, who: Who, p: PartRef, part: Part)
    requires Inv(s) && WorkOf(LoopOf(s, who)).Merging? && p !in s.parts && WFPart(part)
    requires Refines(PartPoints(part), PointsOf(s.parts, WorkOf(LoopOf(s, who)).inputs))
    ensures Inv(MergeEnds(s, who, p, part))
  {
    hide *;
    Unpack(s);
    EitherLoop(s, who);
    MergeWriting(s, who);
    var l, id := LoopOf(s, who), LoopOf(s, who).work.id;
    var w, dirs', cur := Wrapper(id, false, part), s.dirs[id := Complete(part)], CurParts(s);
    var parts' := s.parts[p := w];
    GrowKeeps(s, p, w, {});
    DiskAddFile(s.parts, s.refs, s.dirs, s.curPartID, s.offered, p, id, part);
    NothingNew(s, l.work.inputs, part);
    Completed(s.dirs, id, part);
    var l' := l.(work := Sent(Change(Merge(who), l.work.inputs, [p], map[])));
    WorkIs(l', Sent(Change(Merge(who), l.work.inputs, [p], map[])));
    MergedLoops(s, who, parts', dirs', l', p, part);
    IntroWork(parts', s.snaps, cur, s.epoch, s, who, l');
    FewerMems(parts', Mems(s), p, s.dirs, s.flusher, s.intro);
    MemDirsDirs(parts', Mems(s), s.dirs, dirs', s.flusher, s.intro);
    NoFlush(parts', Mems(s), dirs', s, who, l');
    DurableDirs(parts', cur, s.dirs, dirs', Listed(s.snps, s.gc));
    MergeEndsIs(s, who, p, part);
    Pack(MergeEnds(s, who, p, part));
  }

  lemma EitherLoop(s: State, who: Who)
    requires LoopOK(s.parts, CurParts(s), s.dirs, s.intro, Flusher, s.flusher)
    requires LoopOK(s.parts, CurParts(s), s.dirs, s.intro, Merger, s.merger)
    ensures LoopOK(s.parts, CurParts(s), s.dirs, s.intro, who, LoopOf(s, who))
  {
    hide LoopOK, CurParts;
  }

  lemma WorkIs(l: Loop, w: Work)
    requires l.Holding? && l.work == w
    ensures WorkOf(l) == w
  {
  }

  lemma MergeWriting(s: State, who: Who)
    requires LoopOK(s.parts, CurParts(s), s.dirs, s.intro, who, LoopOf(s, who)) && WorkOf(LoopOf(s, who)).Merging?
    ensures LoopOf(s, who).Holding? && LoopOf(s, who).work == WorkOf(LoopOf(s, who))
    ensures LoopOf(s, who).work.inputs != {} && LoopOf(s, who).work.inputs <= LoopOf(s, who).todo
    ensures var id := LoopOf(s, who).work.id; id in s.dirs && s.dirs[id] == Writing(ByLoop(who))
    ensures !WorkOf(LoopOf(s, who)).Waiting?
  {
    hide OfKind;
  }

  /** A merge makes no points up. */
  lemma NothingNew(s: State, inputs: set<PartRef>, part: Part)
    requires Disk(s.parts, s.refs, s.dirs, s.curPartID, s.offered)
    requires Refines(PartPoints(part), PointsOf(s.parts, inputs))
    ensures s.offered + PartPoints(part) == s.offered + {} == s.offered
  {
    hide PartPoints, WFPart, IdsUnique, DirsMatch, DirsWF, Dominates;
    forall x | x in PartPoints(part) ensures x in s.offered {
      assert x in PointsOf(s.parts, inputs);
    }
  }

  lemma MergedLoops(s: State, who: Who, parts': map<PartRef, Wrapper>, dirs': map<nat, Dir>, l': Loop, p: PartRef, part: Part)
    requires WorkOf(LoopOf(s, who)).Merging? && p !in s.parts && CurParts(s) <= s.parts.Keys
    requires LoopOK(s.parts, CurParts(s), s.dirs, s.intro, who, LoopOf(s, who))
    requires var l := LoopOf(s, who);
      && parts' == s.parts[p := Wrapper(l.work.id, false, part)] && dirs' == s.dirs[l.work.id := Complete(part)]
      && l' == l.(work := Sent(Change(Merge(who), l.work.inputs, [p], map[])))
      && Refines(PartPoints(part), PointsOf(s.parts, l.work.inputs))
    requires LoopOK(parts', CurParts(s), s.dirs, s.intro, Flusher, s.flusher)
    requires LoopOK(parts', CurParts(s), s.dirs, s.intro, Merger, s.merger)
    requires FlushKept(s.dirs, dirs') && (who.Merger? ==> MergeKept(s.dirs, dirs', Flusher))
    requires who.Flusher? ==> MergeKept(s.dirs, dirs', Merger)
    ensures LoopOK(parts', CurParts(s), dirs', s.intro, Flusher, WithLoop(s, who, l').flusher)
    ensures LoopOK(parts', CurParts(s), dirs', s.intro, Merger, WithLoop(s, who, l').merger)
  {
    hide FlushKept, MergeKept, PointsOf, Refines, LoopOK, SetOf;
    MergedWork(s.parts, CurParts(s), s.dirs, s.intro, who, LoopOf(s, who), p, part);
    match who
    case Flusher => LoopDirs(parts', CurParts(s), s.dirs, dirs', s.intro, Merger, s.merger);
    case Merger => LoopDirs(parts', CurParts(s), s.dirs, dirs', s.intro, Flusher, s.flusher);
  }

  lemma MergedWork(
    parts: map<PartRef, Wrapper>, cur: set<PartRef>, dirs: map<nat, Dir>, intro: Intro, who: Who, l: Loop, p: PartRef,
    part: Part)
    requires LoopOK(parts, cur, dirs, intro, who, l) && WorkOf(l).Merging? && p !in parts && cur <= parts.Keys
    requires Refines(PartPoints(part), PointsOf(parts, l.work.inputs))
    ensures LoopOK(parts[p := Wrapper(l.work.id, false, part)], cur, dirs[l.work.id := Complete(part)], intro, who,
                   l.(work := Sent(Change(Merge(who), l.work.inputs, [p], map[]))))
  {
    hide Refines, PointsOf, IdsOf;
    PointsGrow(parts, p, Wrapper(l.work.id, false, part), l.work.inputs);
    PointsGrow(parts, p, Wrapper(l.work.id, false, part), cur);
  }

  lemma FewerMems(
    parts: map<PartRef, Wrapper>, mems: set<PartRef>, p: PartRef, dirs: map<nat, Dir>, flusher: Loop, intro: Intro)
    requires MemDirs(parts, mems + {p}, dirs, flusher, intro)
    ensures MemDirs(parts, mems, dirs, flusher, intro)
  {
    hide IdsOf, FlushOuts;
  }

  lemma MergeEndsIs(s: State, who: Who, p: PartRef, part: Part)
    requires LoopOf(s, who).Holding? && LoopOf(s, who).work.Merging?
    ensures var l := LoopOf(s, who); var t := MergeEnds(s, who, p, part);
      var l' := l.(work := Sent(Change(Merge(who), l.work.inputs, [p], map[])));
      && t == s.(parts := s.parts[p := Wrapper(l.work.id, false, part)], refs := s.refs[p := 1],
                 dirs := s.dirs[l.work.id := Complete(part)], flusher := t.flusher, merger := t.merger)
      && t.flusher == WithLoop(s, who, l').flusher && t.merger == WithLoop(s, who, l').merger
      && CurParts(t) == CurParts(s) && Mems(t) == Mems(s) && Tokens(t) == Tokens(s) && Extra(t) == Extra(s) + multiset{p}
  {
    hide SetOf, SeqOf, ExtraOf, TokensOf;
    var l := LoopOf(s, who);
    OutTokens(s, who, l.(work := Sent(Change(Merge(who), l.work.inputs, [p], map[]))), p);
  }

  /** A loop goes on holding its snapshot and has made one more part. */
  lemma OutTokens(s: State, who: Who, l: Loop, p: PartRef)
    requires LoopOf(s, who).Holding? && l.Holding? && l.snap == LoopOf(s, who).snap
    requires Outs(l) == Outs(LoopOf(s, who)) + [p]
    ensures var t := WithLoop(s, who, l);
      && TokensOf(s.readers, s.cur, s.intro, t.flusher, t.merger) == Tokens(s)
      && ExtraOf(s.pending, t.flusher, t.merger) == Extra(s) + multiset{p}
  {
    hide Outs;
  }

  // ---------- a flush ends ----------

  lemma FlushEndKeeps(s: State, p: PartRef)
    requires Inv(s) && WorkOf(s.flusher).FlushingParts? && WorkOf(s.flusher).writing.Some? && p !in s.parts
    ensures Inv(EndsFlush(s, p))
  {
    hide *;
    Unpack(s);
    FlushWriting(s);
    var w := s.flusher.work;
    var q := w.writing.value;
    var id, part, cur := s.parts[q].id, s.parts[q].part, CurParts(s);
    var dirs', parts' := s.dirs[id := Complete(part)], s.parts[p := Wrapper(id, false, part)];
    GrowKeeps(s, p, Wrapper(id, false, part), {});
    SamePoints(s, q);
    DiskAddFile(s.parts, s.refs, s.dirs, s.curPartID, s.offered, p, id, part);
    Completed(s.dirs, id, part);
    EndsFlushIs(s, p);
    var l' := EndsFlush(s, p).flusher;
    FlushedWork(s, p);
    LoopDirs(parts', cur, s.dirs, dirs', s.intro, Merger, s.merger);
    IntroWork(parts', s.snaps, cur, s.epoch, s, Flusher, l');
    FlushedMems(s, p);
    DurableDirs(parts', cur, s.dirs, dirs', Listed(s.snps, s.gc));
    Pack(EndsFlush(s, p));
  }

  lemma FlushWriting(s: State)
    requires LoopOK(s.parts, CurParts(s), s.dirs, s.intro, Flusher, s.flusher)
    requires WorkOf(s.flusher).FlushingParts? && WorkOf(s.flusher).writing.Some?
    ensures s.flusher.Holding? && s.flusher.work == WorkOf(s.flusher) && LoopOf(s, Flusher) == s.flusher
    ensures !WorkOf(LoopOf(s, Flusher)).Waiting?
    ensures var q := s.flusher.work.writing.value;
      && q in CurParts(s) && q in s.parts && s.parts[q].mem && q !in s.flusher.work.inputs
      && s.parts[q].id in s.dirs && s.dirs[s.parts[q].id] == Writing(Flushing(q))
    ensures s.flusher.work.inputs <= CurParts(s)
    ensures Paired(s.parts, s.flusher.work.inputs, s.flusher.work.outs, s.flusher.work.flushed)
  {
    hide Paired;
  }

  lemma SamePoints(s: State, q: PartRef)
    requires Disk(s.parts, s.refs, s.dirs, s.curPartID, s.offered) && q in s.parts
    ensures s.offered + PartPoints(s.parts[q].part) == s.offered + {} == s.offered
    ensures WFPart(s.parts[q].part)
  {
    hide PartPoints, WFPart, IdsUnique, DirsMatch, DirsWF;
  }

  lemma EndsFlushIs(s: State, p: PartRef)
    requires s.flusher.Holding? && s.flusher.work.FlushingParts? && s.flusher.work.writing.Some?
    requires s.flusher.work.writing.value in s.parts
    ensures var w, t := s.flusher.work, EndsFlush(s, p); var q := s.parts[w.writing.value];
      && t == s.(parts := s.parts[p := Wrapper(q.id, false, q.part)], refs := s.refs[p := 1],
                 dirs := s.dirs[q.id := Complete(q.part)], flusher := t.flusher)
      && t.flusher == s.flusher.(work := FlushingParts(w.inputs + {w.writing.value}, w.outs + [p], w.flushed[q.id := p], None))
      && WithLoop(s, Flusher, t.flusher) == s.(flusher := t.flusher)
      && CurParts(t) == CurParts(s) && Mems(t) == Mems(s) && Tokens(t) == Tokens(s) && Extra(t) == Extra(s) + multiset{p}
  {
    hide SetOf, SeqOf, ExtraOf, TokensOf;
    OutTokens(s, Flusher, EndsFlush(s, p).flusher, p);
  }

  lemma FlushedWork(s: State, p: PartRef)
    requires Inv(s) && WorkOf(s.flusher).FlushingParts? && WorkOf(s.flusher).writing.Some? && p !in s.parts
    requires s.flusher.work.writing.value in s.parts
    ensures var q := s.parts[s.flusher.work.writing.value];
      LoopOK(s.parts[p := Wrapper(q.id, false, q.part)], CurParts(s), s.dirs[q.id := Complete(q.part)], s.intro, Flusher,
             EndsFlush(s, p).flusher)
  {
    hide Counted, PartsWF, DirsMatch, DirsWF, Paired, ChangeOK, IntroOK, MemDirs, Removal, Epochs, Durable, View, SetOf;
    MemsOpen(s);
    FlushWriting(s);
    EndsFlushIs(s, p);
    var w := s.flusher.work;
    var q := w.writing.value;
    PairedSnoc(s.parts, s.refs, s.curPartID, w.inputs, w.outs, w.flushed, q, p);
    PointsGrow(s.parts, p, Wrapper(s.parts[q].id, false, s.parts[q].part), CurParts(s));
  }

  /** One more memory part flushed. */
  lemma PairedSnoc(
    parts: map<PartRef, Wrapper>, refs: map<PartRef, int>, curPartID: nat, inputs: set<PartRef>, outs: seq<PartRef>,
    flushed: map<nat, PartRef>, q: PartRef, p: PartRef)
    requires Paired(parts, inputs, outs, flushed) && IdsUnique(parts, refs, curPartID) && inputs <= refs.Keys
    requires q in refs && q in parts && parts[q].mem && q !in inputs && p !in parts
    ensures Paired(parts[p := Wrapper(parts[q].id, false, parts[q].part)], inputs + {q}, outs + [p],
                   flushed[parts[q].id := p])
  {
    hide IdsOf;
    var id := parts[q].id;
    var parts' := parts[p := Wrapper(id, false, parts[q].part)];
    assert id !in IdsOf(parts, inputs) by { NotTheirId(parts, refs, curPartID, inputs, q); }
    assert id !in flushed;
    IdsSnoc(parts, parts', inputs, q);
  }

  lemma NotTheirId(parts: map<PartRef, Wrapper>, refs: map<PartRef, int>, curPartID: nat, inputs: set<PartRef>, q: PartRef)
    requires IdsUnique(parts, refs, curPartID) && inputs <= refs.Keys
    requires forall m :: m in inputs ==> m in parts && parts[m].mem
    requires q in refs && q in parts && parts[q].mem && q !in inputs
    ensures parts[q].id !in IdsOf(parts, inputs)
  {
  }

  lemma IdsSnoc(parts: map<PartRef, Wrapper>, parts': map<PartRef, Wrapper>, inputs: set<PartRef>, q: PartRef)
    requires inputs + {q} <= parts.Keys && forall m :: m in parts ==> m in parts' && parts'[m] == parts[m]
    ensures IdsOf(parts', inputs + {q}) == IdsOf(parts, inputs) + {parts[q].id}
  {
    forall m | m in inputs + {q} ensures IdOf(parts', m) == IdOf(parts, m) { }
  }

  lemma FlushedMems(s: State, p: PartRef)
    requires Inv(s) && WorkOf(s.flusher).FlushingParts? && WorkOf(s.flusher).writing.Some? && p !in s.parts
    requires s.flusher.work.writing.value in s.parts
    ensures var q := s.parts[s.flusher.work.writing.value];
      MemDirs(s.parts[p := Wrapper(q.id, false, q.part)], Mems(s), s.dirs[q.id := Complete(q.part)],
              EndsFlush(s, p).flusher, s.intro)
  {
    hide *;
    Unpack(s);
    MemsOpen(s);
    FlushWriting(s);
    EndsFlushIs(s, p);
    FlushOutsKnown(s.parts, s.snaps, CurParts(s), s.dirs, s.epoch, s.intro, s.flusher, s.merger);
    FlushedMem(s.parts, Mems(s), s.dirs, s.flusher, s.intro, p);
  }

  lemma FlushedMem(
    parts: map<PartRef, Wrapper>, mems: set<PartRef>, dirs: map<nat, Dir>, flusher: Loop, intro: Intro, p: PartRef)
    requires MemDirs(parts, mems, dirs, flusher, intro) && mems <= parts.Keys && p !in parts
    requires FlushOuts(flusher, intro) <= parts.Keys
    requires flusher.Holding? && flusher.work.FlushingParts? && flusher.work.writing.Some?
    requires flusher.work.writing.value in parts && parts[flusher.work.writing.value].id in dirs
    ensures var w := flusher.work; var q := parts[w.writing.value];
      MemDirs(parts[p := Wrapper(q.id, false, q.part)], mems, dirs[q.id := Complete(q.part)],
              flusher.(work := FlushingParts(w.inputs + {w.writing.value}, w.outs + [p], w.flushed[q.id := p], None)), intro)
  {
    hide IdsOf;
    var w := flusher.work;
    var q := parts[w.writing.value];
    var flusher' := flusher.(work := FlushingParts(w.inputs + {w.writing.value}, w.outs + [p], w.flushed[q.id := p], None));
    assert FlushOuts(flusher', intro) == FlushOuts(flusher, intro) + {p};
    NewId(parts, p, Wrapper(q.id, false, q.part), FlushOuts(flusher, intro));
  }

  lemma NewId(parts: map<PartRef, Wrapper>, p: PartRef, w: Wrapper, ps: set<PartRef>)
    requires p !in parts && ps <= parts.Keys
    ensures IdsOf(parts[p := w], ps + {p}) == IdsOf(parts, ps) + {w.id}
  {
    forall m | m in ps ensures IdOf(parts[p := w], m) == IdOf(parts, m) { }
    assert IdOf(parts[p := w], p) == w.id;
  }
}
