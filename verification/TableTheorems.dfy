/** What the invariant says of every reachable state of a table. */
module TableTheorems {
  import opened Points
  import opened Parts
  import opened Table
  import opened TableSteps
  import opened TableRefs
  import opened TableInv
  import opened TableFrames
  import opened TableWork
  import opened TableNext
  import opened TableBuild
  import opened TableReplace
  import opened TableCrash
  import opened TableRun

  // ---------- references ----------

  /** A part is open exactly as long as a held snapshot or its maker needs it. */
  lemma OpenIffNeeded(s: State, p: PartRef)
    requires Reachable(s)
    ensures p in s.refs <==> p in Extra(s) || exists h :: h in Tokens(s) && p in SeqOf(s.snaps, h)
    ensures p in s.refs ==> s.refs[p] > 0
  {
    ReachableInv(s);
    hide Reachable, Disk, LoopOK, IntroOK, MemDirs, Removal, Epochs, Durable, View, Extra, Tokens;
    if p in s.refs && p !in Extra(s) {
      assert |Holders(s.snaps, s.srefs.Keys, p)| > 0;
      var h :| h in Holders(s.snaps, s.srefs.Keys, p);
    }
  }

  /**
    The counters are exact: a snapshot counts its holds, and a part the open snapshots that hold it,
    plus one while it is a new wrapper that none holds yet.
   */
  lemma CountsAreExact(s: State)
    requires Reachable(s)
    ensures forall h :: h in s.srefs <==> h in Tokens(s)
    ensures forall h :: h in s.srefs ==> s.srefs[h] == Tokens(s)[h]
    ensures forall p :: p in s.refs ==> s.refs[p] == |Holders(s.snaps, s.srefs.Keys, p)| + Extra(s)[p]
  {
    ReachableInv(s);
    hide Reachable, Disk, LoopOK, IntroOK, MemDirs, Removal, Epochs, Durable, View, Extra, Tokens, Holders;
  }

  /** A reader can read every part of the snapshot it holds; no directory of it is being removed. */
  lemma HeldIsReadable(s: State, h: SnapRef, p: PartRef)
    requires Reachable(s) && h in Tokens(s) && p in SeqOf(s.snaps, h)
    ensures p in s.refs && p in s.parts && WFPart(s.parts[p].part)
    ensures !s.parts[p].mem ==> s.parts[p].id in s.dirs && s.dirs[s.parts[p].id] == Complete(s.parts[p].part)
  {
    ReachableInv(s);
    hide Reachable, LoopOK, IntroOK, MemDirs, Removal, Epochs, Durable, View, Extra, Tokens, WFPart, PartPoints;
  }

  ghost predicate NoCrash(steps: seq<Step>) {
    forall i :: 0 <= i < |steps| ==> !steps[i].Crash?
  }

  /** Nothing that a snapshot or a wrapper holds ever changes. */
  ghost predicate Preserves(s: State, t: State) {
    && (forall h :: h in s.snaps ==> h in t.snaps && t.snaps[h] == s.snaps[h])
    && (forall p :: p in s.parts ==> p in t.parts && t.parts[p] == s.parts[p])
  }

  lemma DropPreserves(s: State, h: SnapRef)
    ensures Drop(s, h).snaps == s.snaps && Drop(s, h).parts == s.parts
  {
    hide Unref, Doomed, RemoveDirs;
  }

  lemma MergeEndsPreserves(s: State, who: Who, p: PartRef, part: Part)
    requires p !in s.parts
    ensures Preserves(s, MergeEnds(s, who, p, part))
  {
  }

  lemma EndsFlushPreserves(s: State, p: PartRef)
    requires p !in s.parts
    ensures Preserves(s, EndsFlush(s, p))
  {
  }

  lemma MakingStepPreserves(s: State, step: Step)
    requires Enabled(s, step) && (step.MergeDone? || step.FlushEnd?)
    ensures Preserves(s, Next(s, step))
  {
    hide WFPart, PartPoints, PointsOf, Refines, Preserves, MergeEnds, EndsFlush;
    match step
    case MergeDone(who, p, part) => MergeEndsPreserves(s, who, p, part);
    case FlushEnd(p) => EndsFlushPreserves(s, p);
  }

  lemma LoopStepPreserves(s: State, step: Step)
    requires Enabled(s, step) && OfLoop(step) && !step.MergeDone? && !step.FlushEnd?
    ensures Preserves(s, Next(s, step))
  {
    hide Enabled, Drop, OfKind, CurParts, MergeEnds, EndsFlush, MergeFails, BeginsFlush, Acquires, Releases, WithWork, FlushSoFar;
    match step
    case LoopAcquire(who) => AcquiresPreserves(s, who);
    case MergeBegin(who, inputs) =>
      WorkPreserves(OpenDir(s, ByLoop(who)), who, Merging(inputs, s.curPartID + 1));
    case MergeFail(who) => FailsPreserves(s, who);
    case FlushBegin(q) => BeginsPreserves(s, q);
    case FlushSend =>
      var w := FlushSoFar(s.flusher);
      SoFarIs(s.flusher);
      WorkPreserves(s, Flusher, Sent(Change(Flush, w.inputs, w.outs, w.flushed)));
    case SyncSend(inputs) => WorkPreserves(s, Merger, Sent(Change(Sync, inputs, [], map[])));
    case LoopRelease(who) => ReleasesPreserves(s, who);
  }

  lemma SoFarIs(l: Loop)
    ensures FlushSoFar(l).FlushingParts?
  {
  }

  lemma AcquiresPreserves(s: State, who: Who)
    ensures Acquires(s, who).snaps == s.snaps && Acquires(s, who).parts == s.parts
  {
    hide OfKind, CurParts;
  }

  lemma WorkPreserves(s: State, who: Who, w: Work)
    ensures WithWork(s, who, w).snaps == s.snaps && WithWork(s, who, w).parts == s.parts
  {
  }

  lemma FailsPreserves(s: State, who: Who)
    ensures MergeFails(s, who).snaps == s.snaps && MergeFails(s, who).parts == s.parts
  {
  }

  lemma BeginsPreserves(s: State, q: PartRef)
    ensures BeginsFlush(s, q).snaps == s.snaps && BeginsFlush(s, q).parts == s.parts
  {
  }

  lemma ReleasesPreserves(s: State, who: Who)
    ensures Releases(s, who).snaps == s.snaps && Releases(s, who).parts == s.parts
  {
    hide Drop;
    if LoopOf(s, who).Holding? {
      DropPreserves(s, LoopOf(s, who).snap);
    }
  }

  lemma OtherStepPreserves(s: State, step: Step)
    requires Enabled(s, step) && !OfLoop(step) && !step.Crash? && !step.Replace?
    ensures Preserves(s, Next(s, step))
  {
    hide WFPart, PartPoints, Drop, SentBy, Kept, MarkedBy, NextSeq, Addref, HoldCur, Taken, TakenPending, Keep, Recovers,
         Replaces;
    match step
    case Release(h) => DropPreserves(s, h);
    case ReleasePrev => DropPreserves(s, s.intro.prev);
    case _ =>
  }

  lemma ReplacePreserves(s: State)
    requires s.intro.Built?
    ensures Preserves(s, Replaces(s, s.intro.next, s.intro.change))
  {
    hide Drop, Persists, Listing, Register, PointsOf, OfKind, SetOf, Resumed;
    if s.cur.Some? {
      DropPreserves(s, s.cur.value);
    }
  }

  lemma NextReplace(s: State)
    requires s.intro.Built?
    ensures Next(s, Replace) == Replaces(s, s.intro.next, s.intro.change)
  {
    hide Replaces;
  }

  lemma StepPreserves(s: State, step: Step)
    requires Enabled(s, step) && !step.Crash?
    ensures Preserves(s, Next(s, step))
  {
    hide Next, Replaces, Preserves;
    if step.MergeDone? || step.FlushEnd? {
      MakingStepPreserves(s, step);
    } else if OfLoop(step) {
      LoopStepPreserves(s, step);
    } else if step.Replace? {
      NextReplace(s);
      ReplacePreserves(s);
    } else {
      OtherStepPreserves(s, step);
    }
  }

  lemma {:induction false} RunPreserves(s: State, steps: seq<Step>, t: State)
    requires Run(s, steps, t) && NoCrash(steps)
    ensures Preserves(s, t)
    decreases |steps|
  {
    hide Enabled, Next;
    if steps != [] {
      StepPreserves(s, steps[0]);
      RunPreserves(Next(s, steps[0]), steps[1..], t);
    }
  }

  /** Snapshot isolation: while a reader holds a snapshot, whatever happens, it sees the same points in open parts. */
  lemma {:induction false} SnapshotIsolation(s: State, h: SnapRef, steps: seq<Step>, t: State)
    requires Reachable(s) && Run(s, steps, t) && NoCrash(steps) && h in Tokens(s) && h in Tokens(t)
    ensures SeqOf(t.snaps, h) == SeqOf(s.snaps, h)
    ensures PointsOf(t.parts, SetOf(SeqOf(t.snaps, h))) == PointsOf(s.parts, SetOf(SeqOf(s.snaps, h)))
    ensures forall p :: p in SeqOf(s.snaps, h) ==> p in t.refs
  {
    ReachableInv(s);
    RunKeeps(s, steps, t);
    RunPreserves(s, steps, t);
    hide Reachable, Run, LoopOK, IntroOK, MemDirs, Removal, Epochs, Durable, View, Extra, Tokens, WFPart, PartPoints,
         IdsUnique, DirsMatch, DirsWF, PartsCounted;
    SamePointsIn(s, t, SetOf(SeqOf(s.snaps, h)));
  }

  lemma SamePointsIn(s: State, t: State, ps: set<PartRef>)
    requires Preserves(s, t) && ps <= s.parts.Keys
    ensures PointsOf(t.parts, ps) == PointsOf(s.parts, ps)
  {
    hide PartPoints;
  }

  // ---------- what is visible ----------

  /** Nothing that was introduced is lost and nothing is made up, up to what was handed off. */
  lemma VisibleRefinesIntroduced(s: State)
    requires Reachable(s)
    ensures Refines(CurPoints(s) + s.handedOff, s.introduced) && s.introduced <= s.offered
  {
    ReachableInv(s);
    hide Reachable, Counted, Disk, LoopOK, IntroOK, MemDirs, Removal, Epochs, Durable, PointsOf, Refines, Dominates, CurParts;
  }

  /** On a node that hands nothing off, the current snapshot has the greatest version introduced for every key. */
  lemma VisibleVersionIsGreatest(s: State, sid: nat, ts: int, v: int)
    requires Reachable(s) && s.handedOff == {}
    ensures IsMaxVersion(CurPoints(s), sid, ts, v) <==> IsMaxVersion(s.introduced, sid, ts, v)
  {
    hide Reachable, Refines, IsMaxVersion, CurPoints;
    VisibleRefinesIntroduced(s);
    assert CurPoints(s) + s.handedOff == CurPoints(s);
    RefinesKeepsMaxVersion(CurPoints(s), s.introduced, sid, ts, v);
  }

  /** An introduction can only add to what is visible. */
  lemma ReplaceKeepsVisible(s: State)
    requires Reachable(s) && s.intro.Built?
    ensures Dominates(CurPoints(Next(s, Replace)) + Next(s, Replace).handedOff, CurPoints(s) + s.handedOff)
  {
    hide *;
    ReachableInv(s);
    var t := Next(s, Replace);
    ReplaceEnabled(s);
    StepKeeps(s, Replace);
    IntroducedGrows(s);
    ViewOf(s);
    ViewOf(t);
    DominatesGrows(CurPoints(t) + t.handedOff, t.introduced, CurPoints(t) + t.handedOff, CurPoints(s) + s.handedOff);
  }

  lemma ReplaceEnabled(s: State)
    requires s.intro.Built?
    ensures Enabled(s, Replace)
  {
  }

  lemma IntroducedGrows(s: State)
    requires s.intro.Built?
    ensures s.introduced <= Next(s, Replace).introduced
  {
    hide Next, PointsOf, OfKind, Persists, Listing, Register, Drop, SetOf;
    NextReplace(s);
  }

  lemma ViewOf(s: State)
    requires Inv(s)
    ensures CurPoints(s) + s.handedOff <= s.introduced && Dominates(CurPoints(s) + s.handedOff, s.introduced)
  {
    hide Counted, Disk, LoopOK, IntroOK, MemDirs, Removal, Epochs, Durable, PointsOf, Dominates, CurParts;
  }

  // ---------- directories and files ----------

  /** A part ID that is about to be used for a directory names none yet, for a merge, a receipt or a flush. */
  lemma DirectoryIsNew(s: State, q: PartRef)
    requires Reachable(s)
    ensures s.curPartID + 1 !in s.dirs
    ensures Enabled(s, FlushBegin(q)) ==> s.parts[q].id !in s.dirs
  {
    hide *;
    ReachableInv(s);
    Unpack(s);
    NextIdFresh(s);
    if Enabled(s, FlushBegin(q)) {
      FlushEnabled(s, q);
      FlushFresh(s, q);
    }
  }

  lemma FlushEnabled(s: State, q: PartRef)
    requires Enabled(s, FlushBegin(q))
    ensures CanFlush(s.flusher, q)
  {
  }

  /** The current snapshot exists whenever anything but a write is introduced. */
  lemma {:induction false} SnapshotExists(s: State, h: SnapRef, c: Change)
    requires Reachable(s) && Enabled(s, Build(h, c)) && !c.kind.Write?
    ensures s.cur.Some?
  {
    hide *;
    ReachableInv(s);
    BuildIsSent(s, h, c);
    SentIsReady(s, c);
    HasInputs(s, c);
  }

  lemma BuildIsSent(s: State, h: SnapRef, c: Change)
    requires Enabled(s, Build(h, c))
    ensures SentBy(s, c) && s.intro.Idle?
  {
  }

  lemma HasInputs(s: State, c: Change)
    requires Ready(s, c) && !c.kind.Write?
    ensures s.cur.Some?
  {
    hide PointsOf, Refines, Paired, Extra;
    assert c.inputs != {};
  }

  /** A persisted snapshot is newer than every file there is. */
  lemma PersistsNewest(s: State)
    requires Reachable(s) && s.intro.Built? && Persists(s.parts, s.intro.change)
    ensures var t := Next(s, Replace); IsNewest(t.gc.live, t.snps) && t.gc.live !in s.snps && t.gc.live > s.gc.live
  {
    hide *;
    ReachableInv(s);
    Unpack(s);
    ReplaceEnabled(s);
    StepKeeps(s, Replace);
    Unpack(Next(s, Replace));
    BuiltWork(s, s.intro.next, s.intro.change);
    LiveAfter(s);
    NewestOf(s.snps, s.gc, s.epoch);
    NewestOf(Next(s, Replace).snps, Next(s, Replace).gc, Next(s, Replace).epoch);
  }

  lemma LiveAfter(s: State)
    requires s.intro.Built? && Persists(s.parts, s.intro.change) && s.intro.next in s.snaps
    requires s.snaps[s.intro.next].epoch == s.epoch
    ensures Next(s, Replace).gc.live == s.epoch
  {
    hide Next, PointsOf, OfKind, Persists, Listing, Drop, SetOf, Resumed;
    NextReplace(s);
  }

  lemma NewestOf(snps: map<nat, seq<nat>>, gc: Gc, epoch: nat)
    requires Epochs(snps, gc, epoch)
    ensures epoch !in snps && gc.live < epoch && epoch > 0 && (gc.live > 0 ==> IsNewest(gc.live, snps))
  {
  }

  // ---------- crashes ----------

  /**
    After a crash every point of a file part that was current is back, together with at most other
    points that had been offered; everything ever persisted is there in a version at least as
    great, or was handed off; and no directory in the middle of its removal is opened.
   */
  lemma RestartIsDurable(s: State, clock: nat, tries: seq<Attempt>, looksValid: set<nat>, order: seq<nat>)
    requires Reachable(s) && Enabled(s, Crash(clock, tries, looksValid, order))
    ensures var t := Next(s, Crash(clock, tries, looksValid, order));
      && PointsOf(s.parts, OfKind(s.parts, CurParts(s), false)) <= CurPoints(t) <= s.offered
      && Dominates(CurPoints(t) + t.handedOff, s.flushedEver)
    ensures forall d :: d in order ==> d in s.dirs && s.dirs[d].Complete?
  {
    hide *;
    ReachableInv(s);
    var u := AfterAll(s, tries);
    CrashEnabled(s, clock, tries, looksValid, order);
    InvAlive(s);
    AttemptsKeep(s, tries);
    RestartOf(u, clock, looksValid, order);
    SameFiles(s, u);
  }

  lemma SameFiles(s: State, u: State)
    requires SameBut(s, u)
    ensures PointsOf(u.parts, OfKind(u.parts, CurParts(u), false)) == PointsOf(s.parts, OfKind(s.parts, CurParts(s), false))
    ensures u.offered == s.offered && u.flushedEver == s.flushedEver
  {
  }

  /** A restart from any disk that has what counts. */
  lemma RestartOf(u: State, clock: nat, looksValid: set<nat>, order: seq<nat>)
    requires Alive(u) || Bare(u)
    requires NoDup(order) && SetOf(order) == Opened(u, looksValid)
    ensures var t := Recovers(u, clock, looksValid, order);
      && PointsOf(u.parts, OfKind(u.parts, CurParts(u), false)) <= CurPoints(t) <= u.offered
      && Dominates(CurPoints(t) + t.handedOff, u.flushedEver)
    ensures forall d :: d in order ==> d in u.dirs && u.dirs[d].Complete?
  {
    hide *;
    OrderComplete(u, looksValid, order);
    RecoversKeeps(u, clock, looksValid, order);
    RecoveredView(u, clock, looksValid, order);
    forall x | x in PointsOf(u.parts, OfKind(u.parts, CurParts(u), false))
      ensures x in CurPoints(Recovers(u, clock, looksValid, order))
    {
      CurrentIsBack(u, clock, looksValid, order, x);
    }
  }

  lemma OrderComplete(u: State, looksValid: set<nat>, order: seq<nat>)
    requires Alive(u) || Bare(u)
    requires SetOf(order) == Opened(u, looksValid)
    ensures forall d :: d in order ==> d in u.dirs && u.dirs[d].Complete?
  {
    hide Alive, Opened;
    forall d | d in order ensures d in u.dirs && u.dirs[d].Complete? {
      InSet(order, d);
      if Alive(u) {
        OpensComplete(u, looksValid, d);
      } else {
        BareOpens(u, looksValid);
      }
    }
  }

  lemma BareOpens(u: State, looksValid: set<nat>)
    requires u.dirs == map[]
    ensures Opened(u, looksValid) == {}
  {
  }

  lemma {:induction false} CrashEnabled(s: State, clock: nat, tries: seq<Attempt>, looksValid: set<nat>, order: seq<nat>)
    requires Enabled(s, Crash(clock, tries, looksValid, order))
    ensures AllCutShort(s, tries) && NoDup(order) && SetOf(order) == Opened(AfterAll(s, tries), looksValid)
    ensures Next(s, Crash(clock, tries, looksValid, order)) == Recovers(AfterAll(s, tries), clock, looksValid, order)
    ensures s.epoch <= clock
  {
  }

  lemma RecoveredView(s: State, clock: nat, looksValid: set<nat>, order: seq<nat>)
    requires Inv(Recovers(s, clock, looksValid, order))
    ensures var t := Recovers(s, clock, looksValid, order);
      CurPoints(t) <= s.offered && Dominates(CurPoints(t) + t.handedOff, s.flushedEver)
  {
    hide Inv, CurPoints, Dominates, Recovers;
    RecoveryRemembers(s, clock, looksValid, order);
    FilesAreVisible(Recovers(s, clock, looksValid, order));
  }

  lemma RecoveryRemembers(s: State, clock: nat, looksValid: set<nat>, order: seq<nat>)
    ensures var t := Recovers(s, clock, looksValid, order); t.offered == s.offered && t.flushedEver == s.flushedEver
  {
    hide PointsOf, ValidDirs, IsNewest;
  }

  lemma FilesAreVisible(t: State)
    requires Inv(t)
    ensures CurPoints(t) <= t.offered && Dominates(CurPoints(t) + t.handedOff, t.flushedEver)
  {
    hide Counted, Disk, LoopOK, IntroOK, MemDirs, Removal, Epochs, Durable, Dominates, CurParts, PartPoints;
    var files := PointsOf(t.parts, OfKind(t.parts, CurParts(t), false));
    assert files <= CurPoints(t);
    DominatesGrows(files + t.handedOff, t.flushedEver, CurPoints(t) + t.handedOff, t.flushedEver);
  }

  lemma CurrentIsBack(s: State, clock: nat, looksValid: set<nat>, order: seq<nat>, x: Point)
    requires Alive(s) || Bare(s)
    requires SetOf(order) == Opened(s, looksValid)
    requires forall d :: d in order ==> d in s.dirs && s.dirs[d].Complete?
    requires x in PointsOf(s.parts, OfKind(s.parts, CurParts(s), false))
    ensures x in CurPoints(Recovers(s, clock, looksValid, order))
  {
    hide Alive, Opened, IsNewest, PartPoints, Dominates;
    var p :| p in OfKind(s.parts, CurParts(s), false) && x in PartPoints(s.parts[p].part);
    OpensCurrent(s, looksValid, p);
    var d := s.parts[p].id;
    assert d in ValidDirs(s.dirs, looksValid);
    assert d in order;
    var t := Recovers(s, clock, looksValid, order);
    assert t.parts[d].part == s.parts[p].part;
    assert CurSeq(t) == order;
  }

  // ---------- epochs ----------

  ghost predicate WritesFile(s: State, step: Step) {
    step.Replace? && s.intro.Built? && Persists(s.parts, s.intro.change)
  }

  ghost function FileEpoch(s: State): nat {
    if s.intro.Built? then EpochOf(s.snaps, s.intro.next) else 0
  }

  /** The epochs of the snapshot files that a run writes. */
  ghost function Written(s: State, steps: seq<Step>): seq<nat>
    decreases |steps|
  {
    if steps == [] then []
    else
      (if WritesFile(s, steps[0]) then [FileEpoch(s)] else []) + Written(Next(s, steps[0]), steps[1..])
  }

  ghost predicate RisingFrom(m: nat, es: seq<nat>)
    decreases |es|
  {
    es == [] || (m < es[0] && RisingFrom(es[0], es[1..]))
  }

  /** No file of an epoch above `m` has been written yet. */
  ghost predicate UpTo(s: State, m: nat) {
    m < s.epoch && (0 < s.gc.live ==> m <= s.gc.live)
  }

  lemma ReplaceEpochs(s: State)
    requires Inv(s) && s.intro.Built?
    ensures var t := Next(s, Replace);
      && FileEpoch(s) == s.epoch && t.epoch == s.epoch + 1
      && t.gc.live == if WritesFile(s, Replace) then s.epoch else s.gc.live
  {
    hide Counted, Disk, LoopOK, MemDirs, Removal, Epochs, Durable, View, Drop, Persists, PointsOf, Listing, Resumed, OfKind;
    DropPreservesFiles(s);
  }

  lemma DropPreservesFiles(s: State)
    ensures forall h :: Drop(s, h).gc == s.gc && Drop(s, h).snps == s.snps && Drop(s, h).epoch == s.epoch
  {
    hide Unref, Doomed, RemoveDirs;
  }

  lemma RecoverEpochs(s: State, clock: nat, looksValid: set<nat>, order: seq<nat>)
    requires Alive(s) || Bare(s)
    ensures var t := Recovers(s, clock, looksValid, order);
      || (t.epoch == clock + 1 && t.gc.live == 0)
      || (t.gc.live == s.gc.live && t.epoch == s.gc.live + 1 && 0 < s.gc.live)
  {
    hide View, DirsWF, Durable, OfKind, CurParts, PointsOf, Dominates;
    if Alive(s) {
      forall e | IsNewest(e, s.snps) ensures e == s.gc.live && 1 <= e {
        NewestIsLive(s.snps, s.gc, s.epoch, e);
      }
    } else {
      assert NothingToLoad(s, looksValid);
    }
  }

  lemma LoopEpochs(s: State, step: Step)
    requires OfLoop(step)
    ensures Next(s, step).epoch == s.epoch && Next(s, step).gc == s.gc && Next(s, step).snps == s.snps
  {
    hide WFPart, PartPoints, PointsOf, Acquires, MergeEnds, MergeFails, BeginsFlush, EndsFlush, Releases, WithWork;
    match step
    case LoopAcquire(who) => HoldEpochs(s, who);
    case MergeBegin(who, inputs) => WorkEpochs(OpenDir(s, ByLoop(who)), who, Merging(inputs, s.curPartID + 1));
    case MergeDone(who, p, part) => MergeEndsEpochs(s, who, p, part);
    case MergeFail(who) => MergeFailEpochs(s, who);
    case FlushBegin(q) => FlushEpochs(s, q);
    case FlushEnd(p) => FlushEpochs(s, p);
    case FlushSend =>
      var w := FlushSoFar(s.flusher);
      WorkEpochs(s, Flusher, Sent(Change(Flush, w.inputs, w.outs, w.flushed)));
    case SyncSend(inputs) => WorkEpochs(s, Merger, Sent(Change(Sync, inputs, [], map[])));
    case LoopRelease(who) => HoldEpochs(s, who);
  }

  lemma HoldEpochs(s: State, who: Who)
    ensures Acquires(s, who).epoch == s.epoch && Acquires(s, who).gc == s.gc && Acquires(s, who).snps == s.snps
    ensures Releases(s, who).epoch == s.epoch && Releases(s, who).gc == s.gc && Releases(s, who).snps == s.snps
  {
    hide Drop, OfKind, CurParts;
    DropPreservesFiles(s);
  }

  lemma WorkEpochs(s: State, who: Who, w: Work)
    ensures WithWork(s, who, w).epoch == s.epoch && WithWork(s, who, w).gc == s.gc && WithWork(s, who, w).snps == s.snps
  {
  }

  lemma MergeEndsEpochs(s: State, who: Who, p: PartRef, part: Part)
    ensures var t := MergeEnds(s, who, p, part); t.epoch == s.epoch && t.gc == s.gc && t.snps == s.snps
  {
  }

  lemma MergeFailEpochs(s: State, who: Who)
    ensures MergeFails(s, who).epoch == s.epoch && MergeFails(s, who).gc == s.gc && MergeFails(s, who).snps == s.snps
  {
  }

  lemma FlushEpochs(s: State, p: PartRef)
    ensures EndsFlush(s, p).epoch == s.epoch && EndsFlush(s, p).gc == s.gc && EndsFlush(s, p).snps == s.snps
    ensures BeginsFlush(s, p).epoch == s.epoch && BeginsFlush(s, p).gc == s.gc && BeginsFlush(s, p).snps == s.snps
  {
  }

  lemma OtherEpochs(s: State, step: Step)
    requires !OfLoop(step) && !step.Replace? && !step.Crash?
    ensures Next(s, step).epoch == s.epoch && Next(s, step).gc.live == s.gc.live
    ensures !step.Clean? ==> Next(s, step).gc == s.gc && Next(s, step).snps == s.snps
  {
    hide Next;
    if step.PrepareMem? || step.ReceiveBegin? || step.ReceiveAbort? || step.ReceiveFinish? || step.Build? {
      MakerEpochs(s, step);
    } else {
      HolderEpochs(s, step);
    }
  }

  lemma MakerEpochs(s: State, step: Step)
    requires step.PrepareMem? || step.ReceiveBegin? || step.ReceiveAbort? || step.ReceiveFinish? || step.Build?
    ensures Next(s, step).epoch == s.epoch && Next(s, step).gc == s.gc && Next(s, step).snps == s.snps
  {
    hide PartPoints, Kept, MarkedBy, NextSeq, Addref, HoldCur, Taken, TakenPending, OfKind, CurParts;
  }

  lemma HolderEpochs(s: State, step: Step)
    requires step.ReleasePrev? || step.Clean? || step.Acquire? || step.Release? || step.Removed?
    ensures Next(s, step).epoch == s.epoch && Next(s, step).gc.live == s.gc.live
    ensures !step.Clean? ==> Next(s, step).gc == s.gc && Next(s, step).snps == s.snps
  {
    hide Drop, Keep;
    match step
    case ReleasePrev => DropPreservesFiles(s);
    case Release(h) => DropPreservesFiles(s);
    case _ =>
  }

  lemma StepEpochs(s: State, step: Step, m: nat)
    requires Inv(s) && Enabled(s, step) && UpTo(s, m)
    ensures WritesFile(s, step) ==> m < FileEpoch(s) && UpTo(Next(s, step), FileEpoch(s))
    ensures !WritesFile(s, step) ==> UpTo(Next(s, step), m)
  {
    hide Inv, Next, WritesFile, FileEpoch, Enabled, Recovers, AfterAll;
    if step.Replace? {
      ReplaceBuilt(s);
      ReplaceEpochs(s);
    } else if step.Crash? {
      NoFile(s, step);
      CrashEnabled(s, step.clock, step.tries, step.looksValid, step.order);
      InvAlive(s);
      AttemptsKeep(s, step.tries);
      RecoverEpochs(AfterAll(s, step.tries), step.clock, step.looksValid, step.order);
    } else {
      NoFile(s, step);
      if OfLoop(step) { LoopEpochs(s, step); } else { OtherEpochs(s, step); }
    }
  }

  lemma ReplaceBuilt(s: State)
    requires Enabled(s, Replace)
    ensures s.intro.Built?
  {
  }

  lemma NoFile(s: State, step: Step)
    requires !step.Replace?
    ensures !WritesFile(s, step)
  {
  }

  /** Along every run, crashes included, each snapshot file is newer than all files written before it. */
  lemma {:induction false} FilesGetNewer(s: State, steps: seq<Step>, t: State, m: nat)
    requires Inv(s) && Run(s, steps, t) && UpTo(s, m)
    ensures RisingFrom(m, Written(s, steps))
    decreases |steps|
  {
    hide Inv, Next, WritesFile, FileEpoch, Enabled, UpTo;
    if steps != [] {
      var u := Next(s, steps[0]);
      StepEpochs(s, steps[0], m);
      StepKeeps(s, steps[0]);
      if WritesFile(s, steps[0]) {
        FilesGetNewer(u, steps[1..], t, FileEpoch(s));
        assert Written(s, steps)[1..] == Written(u, steps[1..]);
      } else {
        FilesGetNewer(u, steps[1..], t, m);
        assert Written(s, steps) == Written(u, steps[1..]);
      }
    }
  }

  lemma {:induction false} EpochsIncrease(liaison: bool, clock: nat, steps: seq<Step>, t: State)
    requires Run(Initial(liaison, clock), steps, t)
    ensures RisingFrom(clock, Written(Initial(liaison, clock), steps))
  {
    hide Inv, Run, Written;
    InitialHolds(liaison, clock);
    FilesGetNewer(Initial(liaison, clock), steps, t, clock);
  }
}
