/**
  The part directories of a table.  Every complete one belongs to an open part; so none is left behind once
  nobody needs its part.
 */
module TableSpace {
  import opened Points
  import opened Parts
  import opened Table
  import opened TableSteps
  import opened TableRefs
  import opened TableInv
  import opened TableWork
  import opened TableNext
  import opened TableBuild
  import opened TableReplace
  import opened TableView
  import opened TableCrash
  import opened TableRun
  import opened TableTheorems
  import opened TableCode

  // ---------- the invariant ----------

  ghost predicate FileOf(parts: map<PartRef, Wrapper>, refs: map<PartRef, int>, d: nat, p: PartRef) {
    p in refs && p in parts && !parts[p].mem && parts[p].id == d
  }

  /** Every complete directory has an open file part. */
  ghost predicate Owned(parts: map<PartRef, Wrapper>, refs: map<PartRef, int>, dirs: map<nat, Dir>) {
    forall d :: d in dirs && dirs[d].Complete? ==> exists p :: FileOf(parts, refs, d, p)
  }

  /** The parts that are current, will be, or are still with their makers. */
  ghost predicate InUse(s: State, p: PartRef) {
    p in CurParts(s) || p in Extra(s) || p in BuiltOuts(s.intro)
  }

  /** An open file part that is no longer in use is marked for removal; so is one that is about to leave. */
  ghost predicate Leaving(s: State) {
    && (forall p :: p in s.refs && p in s.parts && !s.parts[p].mem && !InUse(s, p) ==> p in s.removable)
    && (s.intro.Built? ==> forall p :: p in s.intro.change.inputs && p in s.parts && !s.parts[p].mem ==> p in s.removable)
  }

  ghost predicate NoneLeft(s: State) {
    Owned(s.parts, s.refs, s.dirs) && Leaving(s)
  }

  // ---------- frames ----------

  /** Steps that open no file part and close none. */
  lemma SameParts(s: State, t: State)
    requires NoneLeft(s) && t.parts == s.parts && t.refs.Keys == s.refs.Keys && s.removable <= t.removable
    requires forall d :: d in t.dirs && t.dirs[d].Complete? ==> d in s.dirs && s.dirs[d].Complete?
    requires t.intro == s.intro && forall p :: InUse(s, p) ==> InUse(t, p)
    ensures NoneLeft(t)
  {
    hide InUse;
    forall d | d in t.dirs && t.dirs[d].Complete? ensures exists p :: FileOf(t.parts, t.refs, d, p) {
      var p :| FileOf(s.parts, s.refs, d, p);
      assert FileOf(t.parts, t.refs, d, p);
    }
  }

  /** Steps that open one part, of which they are the maker. */
  lemma NewPart(s: State, t: State, p: PartRef, w: Wrapper)
    requires NoneLeft(s) && s.refs.Keys <= s.parts.Keys && p !in s.parts
    requires t.parts == s.parts[p := w] && t.refs == s.refs[p := 1] && s.removable == t.removable
    requires forall d :: d in t.dirs && t.dirs[d].Complete? ==> (d in s.dirs && s.dirs[d].Complete?) || (!w.mem && d == w.id)
    requires t.intro == s.intro && InUse(t, p) && forall q :: InUse(s, q) ==> InUse(t, q)
    requires s.intro.Built? ==> p !in s.intro.change.inputs
    ensures NoneLeft(t)
  {
    hide InUse;
    forall d | d in t.dirs && t.dirs[d].Complete? ensures exists q :: FileOf(t.parts, t.refs, d, q) {
      if d in s.dirs && s.dirs[d].Complete? {
        var q :| FileOf(s.parts, s.refs, d, q);
        assert FileOf(t.parts, t.refs, d, q);
      } else {
        assert FileOf(t.parts, t.refs, d, p);
      }
    }
  }

  /** Letting go of a snapshot: a part that is closed is not in use, so its directory is being removed. */
  lemma DropNoneLeft(s: State, h: SnapRef, t: State)
    requires NoneLeft(s) && Inv(t)
    requires t.parts == s.parts && t.refs == Drop(s, h).refs && t.dirs == Drop(s, h).dirs && t.removable == s.removable
    requires CurParts(t) == CurParts(s) && Extra(t) == Extra(s) && BuiltOuts(t.intro) == BuiltOuts(s.intro)
    requires t.intro.Built? ==> t.intro == s.intro
    ensures NoneLeft(t)
  {
    hide Inv, CurParts, Extra, BuiltOuts, Drop;
    UsedIsOpen(t);
    DropRefs(s, h);
    forall d | d in t.dirs && t.dirs[d].Complete? ensures exists p :: FileOf(t.parts, t.refs, d, p) {
      DropDir(s, h, d);
      var p :| FileOf(s.parts, s.refs, d, p);
      if p !in t.refs {
        assert !InUse(t, p) && p in s.removable;
        DropRemoves(s, h, p);
      }
      assert FileOf(t.parts, t.refs, d, p);
    }
    hide FileOf;
    forall p | p in t.refs && p in t.parts && !t.parts[p].mem && !InUse(t, p) ensures p in t.removable {
      assert p in s.refs && !InUse(s, p);
    }
  }

  lemma DropRefs(s: State, h: SnapRef)
    ensures Drop(s, h).refs.Keys <= s.refs.Keys
  {
    hide SeqOf, Doomed, RemoveDirs;
  }

  lemma DropDir(s: State, h: SnapRef, d: nat)
    requires d in Drop(s, h).dirs && Drop(s, h).dirs[d].Complete?
    ensures d in s.dirs && s.dirs[d].Complete?
  {
    hide SeqOf, Doomed, Unref;
  }

  /** A marked file part that loses its last reference has its directory removed. */
  lemma DropRemoves(s: State, h: SnapRef, p: PartRef)
    requires p in s.refs && p !in Drop(s, h).refs && p in s.parts && !s.parts[p].mem && p in s.removable
    ensures s.parts[p].id in Drop(s, h).dirs ==> Drop(s, h).dirs[s.parts[p].id].Deleting?
  {
    hide SeqOf;
    var ps := SeqOf(s.snaps, h);
    assert p in ps && s.refs[p] <= 1;
    assert s.parts[p].id in Doomed(s.parts, s.refs, s.removable, ps);
  }

  lemma UsedIsOpen(t: State)
    requires Inv(t)
    ensures forall p :: InUse(t, p) ==> p in t.refs
  {
    hide Disk, LoopOK, Paired, ChangeOK, MemDirs, Removal, Epochs, Durable, View, Counted, IntroOK, BuiltOuts, CurParts, Extra;
    CurOpen(t);
    MemsOpen(t);
  }

  // ---------- writers, receivers and the loops ----------

  lemma ExtraIff(s: State, p: PartRef)
    ensures p in Extra(s) <==> p in s.pending || p in Outs(s.flusher) || p in Outs(s.merger)
  {
    hide Outs;
    assert p in multiset(Outs(s.flusher)) <==> p in Outs(s.flusher);
    assert p in multiset(Outs(s.merger)) <==> p in Outs(s.merger);
  }

  /** No outputs are taken away. */
  lemma StillInUse(s: State, t: State)
    requires CurParts(s) <= CurParts(t) && s.pending <= t.pending && t.intro == s.intro
    requires forall p :: p in Outs(s.flusher) ==> p in Outs(t.flusher)
    requires forall p :: p in Outs(s.merger) ==> p in Outs(t.merger)
    ensures forall p :: InUse(s, p) ==> InUse(t, p)
  {
    hide Outs, Extra, BuiltOuts, CurParts;
    forall p | InUse(s, p) ensures InUse(t, p) {
      ExtraIff(s, p);
      ExtraIff(t, p);
    }
  }

  /** What the makers of new parts need to know. */
  lemma PartsKnown(s: State)
    requires Inv(s)
    ensures s.refs.Keys <= s.parts.Keys
    ensures s.intro.Built? ==> s.intro.change.inputs <= s.parts.Keys
  {
    hide *;
    Unpack(s);
    CurOpen(s);
    if s.intro.Built? {
      BuiltWork(s, s.intro.next, s.intro.change);
    }
  }

  lemma PrepareNoneLeft(s: State, p: PartRef, part: Part)
    requires Inv(s) && NoneLeft(s) && p !in s.parts
    ensures NoneLeft(Prepares(s, p, part))
  {
    hide Inv, NoneLeft, InUse, PartPoints, Outs, CurParts, BuiltOuts;
    PartsKnown(s);
    var t := Prepares(s, p, part);
    SameSnapshot(s, t);
    StillInUse(s, t);
    ExtraIff(t, p);
    ExtraInUse(t, p);
    NewPart(s, t, p, Wrapper(s.curPartID + 1, true, part));
  }

  lemma ExtraInUse(t: State, p: PartRef)
    requires p in Extra(t)
    ensures InUse(t, p)
  {
    hide Extra;
  }

  lemma SameSnapshot(s: State, t: State)
    requires t.cur == s.cur && t.snaps == s.snaps
    ensures CurParts(t) == CurParts(s)
  {
  }

  lemma ReceiveNoneLeft(s: State, id: nat, p: PartRef, part: Part)
    requires Inv(s) && NoneLeft(s) && p !in s.parts
    ensures NoneLeft(Receives(s, id, p, part))
  {
    hide Inv, NoneLeft, InUse, PartPoints, Outs, CurParts, BuiltOuts;
    PartsKnown(s);
    var t := Receives(s, id, p, part);
    SameSnapshot(s, t);
    StillInUse(s, t);
    ExtraIff(t, p);
    ExtraInUse(t, p);
    NewPart(s, t, p, Wrapper(id, false, part));
  }

  lemma MergeDoneNoneLeft(s: State, who: Who, p: PartRef, part: Part)
    requires Inv(s) && NoneLeft(s) && p !in s.parts && WorkOf(LoopOf(s, who)).Merging?
    ensures NoneLeft(MergeEnds(s, who, p, part))
  {
    hide Inv, NoneLeft, InUse, CurParts, BuiltOuts;
    PartsKnown(s);
    var t := MergeEnds(s, who, p, part);
    SameSnapshot(s, t);
    StillInUse(s, t);
    ExtraIff(t, p);
    ExtraInUse(t, p);
    NewPart(s, t, p, Wrapper(WorkOf(LoopOf(s, who)).id, false, part));
  }

  lemma FlushEndNoneLeft(s: State, p: PartRef)
    requires Inv(s) && NoneLeft(s) && Enabled(s, FlushEnd(p))
    ensures NoneLeft(EndsFlush(s, p))
  {
    hide Inv, NoneLeft, InUse, CurParts, BuiltOuts;
    PartsKnown(s);
    var t := EndsFlush(s, p);
    if WorkOf(s.flusher).writing.value in s.parts {
      SameSnapshot(s, t);
      StillInUse(s, t);
      ExtraIff(t, p);
      ExtraInUse(t, p);
      var q := s.parts[WorkOf(s.flusher).writing.value];
      NewPart(s, t, p, Wrapper(q.id, false, q.part));
    }
  }

  /** The other steps of the loops, but for letting go, open and close no part. */
  lemma LoopNoneLeft(s: State, step: Step)
    requires Inv(s) && NoneLeft(s) && Enabled(s, step) && OfLoop(step)
    requires !step.MergeDone? && !step.FlushEnd? && !step.LoopRelease?
    ensures NoneLeft(Next(s, step))
  {
    hide Inv, NoneLeft, Enabled, Next, InUse, CurParts, Outs;
    var t := Next(s, step);
    match step {
      case LoopAcquire(who) => AcquireFrame(s, who);
      case MergeBegin(who, inputs) => BeginFrame(s, who, inputs);
      case MergeFail(who) => FailFrame(s, who);
      case FlushBegin(q) => FlushFrame(s, q);
      case _ => SendFrame(s, step);
    }
    SameSnapshot(s, t);
    StillInUse(s, t);
    SameParts(s, t);
  }

  /** Nothing is opened or closed, and no outputs are taken away. */
  ghost predicate Untouched(s: State, t: State) {
    && t.parts == s.parts && t.refs == s.refs && t.removable == s.removable && t.cur == s.cur && t.snaps == s.snaps
    && t.pending == s.pending && t.intro == s.intro
    && (forall d :: d in t.dirs && t.dirs[d].Complete? ==> d in s.dirs && s.dirs[d].Complete?)
    && (forall p :: p in Outs(s.flusher) ==> p in Outs(t.flusher))
    && (forall p :: p in Outs(s.merger) ==> p in Outs(t.merger))
  }

  lemma AcquireFrame(s: State, who: Who)
    requires Enabled(s, LoopAcquire(who))
    ensures Untouched(s, Next(s, LoopAcquire(who)))
  {
    hide OfKind, CurParts;
    var t := Acquires(s, who);
    match who {
      case Flusher => assert t.merger == s.merger;
      case Merger => assert t.flusher == s.flusher;
    }
  }

  lemma BeginFrame(s: State, who: Who, inputs: set<PartRef>)
    requires Enabled(s, MergeBegin(who, inputs))
    ensures Untouched(s, Next(s, MergeBegin(who, inputs)))
  {
  }

  lemma FailFrame(s: State, who: Who)
    requires Enabled(s, MergeFail(who))
    ensures Untouched(s, Next(s, MergeFail(who)))
  {
  }

  lemma FlushFrame(s: State, q: PartRef)
    requires Enabled(s, FlushBegin(q))
    ensures Untouched(s, Next(s, FlushBegin(q)))
  {
  }

  lemma SendFrame(s: State, step: Step)
    requires Enabled(s, step) && (step.FlushSend? || step.SyncSend?)
    ensures Untouched(s, Next(s, step))
  {
  }

  // ---------- the introducer ----------

  lemma BuildNoneLeft(s: State, h: SnapRef, c: Change)
    requires Inv(s) && NoneLeft(s) && Enabled(s, Build(h, c))
    ensures NoneLeft(Builds(s, h, c))
  {
    hide *;
    BuildIsSent(s, h, c);
    Unpack(s);
    CurOpen(s);
    SentIsReady(s, c);
    BuildStep(s, h, c);
    BuildsIs(s, h, c);
    TakenTokens(s, h, c);
    CurIdsDistinct(s);
    ReadyIs(s, c);
    NextIs(s.parts, CurSeq(s), c);
    MarkedFiles(s, h, c);
    BuiltFrame(s, Builds(s, h, c), h, c, Kept(s.parts, CurSeq(s), c));
  }

  lemma ReadyIs(s: State, c: Change)
    requires Ready(s, c)
    ensures ChangeOK(s.parts, c) && c.inputs <= SetOf(CurSeq(s)) && SetOf(c.outs) !! SetOf(CurSeq(s)) && NoDup(c.outs)
    ensures SetOf(CurSeq(s)) == CurParts(s)
  {
    hide ChangeOK, Extra;
  }

  /** A change that does not mark its inputs takes memory parts only. */
  lemma MarkedFiles(s: State, h: SnapRef, c: Change)
    requires ChangeOK(s.parts, c)
    ensures !Marks(c) ==> forall p :: p in c.inputs ==> p in s.parts && s.parts[p].mem
  {
    hide Refines, PointsOf;
  }

  lemma BuiltFrame(s: State, t: State, h: SnapRef, c: Change, kept: seq<PartRef>)
    requires NoneLeft(s) && t.parts == s.parts && t.refs == Addref(s.refs, kept) && t.dirs == s.dirs
    requires t.intro == Built(h, c) && s.intro.Idle? && CurParts(t) == CurParts(s)
    requires Extra(t) == Extra(s) - multiset(c.outs)
    requires t.removable == s.removable + if Marks(c) then c.inputs else {}
    requires !Marks(c) ==> forall p :: p in c.inputs ==> p in s.parts && s.parts[p].mem
    ensures NoneLeft(t)
  {
    hide CurParts, Extra;
    assert t.refs.Keys == s.refs.Keys;
    forall d | d in t.dirs && t.dirs[d].Complete? ensures exists p :: FileOf(t.parts, t.refs, d, p) {
      var p :| FileOf(s.parts, s.refs, d, p);
      assert FileOf(t.parts, t.refs, d, p);
    }
    forall p | InUse(s, p) ensures InUse(t, p) {
      if p in Extra(s) && p !in Extra(t) {
        assert p in multiset(c.outs);
        assert p in c.outs;
      }
    }
  }

  lemma ReplaceNoneLeft(s: State)
    requires Inv(s) && NoneLeft(s) && s.intro.Built?
    ensures NoneLeft(Next(s, Replace))
  {
    hide *;
    var next, c := s.intro.next, s.intro.change;
    Unpack(s);
    BuiltWork(s, next, c);
    ReplaceStep(s, next, c);
    ReplaceClosesNothing(s, next, c);
    ReplacesIs(s, next, c);
    ResumedExtra(s, next, c);
    ReplacedFrame(s, Next(s, Replace), next, c);
  }

  lemma ReplacedFrame(s: State, t: State, next: SnapRef, c: Change)
    requires NoneLeft(s) && s.intro == Built(next, c) && t.parts == s.parts && t.refs == s.refs && t.dirs == s.dirs
    requires !t.intro.Built? && CurParts(t) == NextParts(CurParts(s), c) && Extra(t) == Extra(s) && t.removable == s.removable
    ensures NoneLeft(t)
  {
    hide CurParts, Extra, FileOf;
  }

  // ---------- letting go ----------

  lemma ReleaseNoneLeft(s: State, h: SnapRef, t: State)
    requires NoneLeft(s) && Inv(t)
    requires t == Drop(s, h).(readers := t.readers, intro := t.intro, flusher := t.flusher, merger := t.merger)
    requires Outs(t.flusher) == Outs(s.flusher) && Outs(t.merger) == Outs(s.merger)
    requires t.intro == s.intro || (s.intro.Replaced? && t.intro.Idle?)
    ensures NoneLeft(t)
  {
    hide Inv, NoneLeft, Outs, CurParts;
    DropPreserves(s, h);
    DropKeepsRest(s, h);
    SameSnapshot(s, t);
    DropNoneLeft(s, h, t);
  }

  lemma DropKeepsRest(s: State, h: SnapRef)
    ensures Drop(s, h) == s.(srefs := Drop(s, h).srefs, refs := Drop(s, h).refs, dirs := Drop(s, h).dirs)
  {
    hide Unref, Doomed, RemoveDirs, SeqOf;
  }

  lemma LetGoNoneLeft(s: State, step: Step)
    requires Inv(s) && NoneLeft(s) && Enabled(s, step) && (step.Release? || step.ReleasePrev? || step.LoopRelease?)
    ensures NoneLeft(Next(s, step))
  {
    hide Inv, NoneLeft, Drop;
    StepKeeps(s, step);
    var h := match step case Release(h) => h case ReleasePrev => s.intro.prev case LoopRelease(who) => LoopOf(s, who).snap;
    DropKeepsRest(s, h);
    ReleaseNoneLeft(s, h, Next(s, step));
  }

  // ---------- restart ----------

  lemma RecoverNoneLeft(s: State, clock: nat, looksValid: set<nat>, order: seq<nat>)
    ensures NoneLeft(Recovers(s, clock, looksValid, order))
  {
    hide PointsOf, IsNewest, ValidDirs;
    var t := Recovers(s, clock, looksValid, order);
    forall d | d in t.dirs && t.dirs[d].Complete? ensures exists p :: FileOf(t.parts, t.refs, d, p) {
      assert FileOf(t.parts, t.refs, d, d);
    }
    forall p | p in t.refs ensures p in CurParts(t) {
      assert p in order && CurSeq(t) == order;
    }
  }

  // ---------- every run ----------

  lemma OtherNoneLeft(s: State, step: Step)
    requires Inv(s) && NoneLeft(s) && Enabled(s, step)
    requires step.ReceiveBegin? || step.ReceiveAbort? || step.Clean? || step.Acquire? || step.Removed?
    ensures NoneLeft(Next(s, step))
  {
    hide Inv, NoneLeft, InUse, CurParts, BuiltOuts, Keep, Outs;
    var t := Next(s, step);
    SameSnapshot(s, t);
    StillInUse(s, t);
    SameParts(s, t);
  }

  lemma StepNoneLeft(s: State, step: Step)
    requires Inv(s) && NoneLeft(s) && Enabled(s, step)
    ensures NoneLeft(Next(s, step))
  {
    hide Inv, NoneLeft, WFPart, PartPoints, PointsOf, Refines, Prepares, Receives, OpenDir, Builds, Replaces, Drop, Cleans,
         Recovers, SentBy, Opened, SetOf, NoDup, AllCutShort, AfterAll, MergeEnds, EndsFlush, Acquires, Releases, WithWork;
    match step
    case PrepareMem(p, part) => PrepareNoneLeft(s, p, part);
    case ReceiveFinish(id, p, part) => ReceiveNoneLeft(s, id, p, part);
    case Build(h, c) => BuildNoneLeft(s, h, c);
    case Replace => ReplaceNoneLeft(s);
    case MergeDone(who, p, part) => MergeDoneNoneLeft(s, who, p, part);
    case FlushEnd(p) => FlushEndNoneLeft(s, p);
    case Crash(clock, tries, looksValid, order) => RecoverNoneLeft(AfterAll(s, tries), clock, looksValid, order);
    case _ =>
      if step.Release? || step.ReleasePrev? || step.LoopRelease? {
        LetGoNoneLeft(s, step);
      } else if OfLoop(step) {
        LoopNoneLeft(s, step);
      } else {
        OtherNoneLeft(s, step);
      }
  }

  lemma {:induction false} RunNoneLeft(s: State, steps: seq<Step>, t: State)
    requires Inv(s) && NoneLeft(s) && Run(s, steps, t)
    ensures NoneLeft(t)
    decreases |steps|
  {
    hide Inv, Enabled, Next, NoneLeft;
    if steps != [] {
      StepNoneLeft(s, steps[0]);
      StepKeeps(s, steps[0]);
      RunNoneLeft(Next(s, steps[0]), steps[1..], t);
    }
  }

  lemma ReachableNoneLeft(s: State)
    requires Reachable(s)
    ensures NoneLeft(s)
  {
    hide Inv, Run;
    var liaison, clock, steps :| Run(Initial(liaison, clock), steps, s);
    InitialHolds(liaison, clock);
    RunNoneLeft(Initial(liaison, clock), steps, s);
  }

  /**
    In every reachable state, a complete directory belongs to a file part that a held snapshot has or that its
    maker has yet to hand over, and holds just that part.
   */
  lemma NoDirectoryIsLeft(s: State, d: nat) returns (p: PartRef)
    requires Reachable(s) && d in s.dirs && s.dirs[d].Complete?
    ensures p in s.parts && s.parts[p] == Wrapper(d, false, s.dirs[d].part)
    ensures p in Extra(s) || exists h :: h in Tokens(s) && p in SeqOf(s.snaps, h)
  {
    ReachableNoneLeft(s);
    hide Reachable, Leaving, Extra, Tokens, SeqOf;
    p :| FileOf(s.parts, s.refs, d, p);
    OpenIffNeeded(s, p);
    OpenDirMatches(s, p);
  }

  lemma OpenDirMatches(s: State, p: PartRef)
    requires Reachable(s) && p in s.refs && p in s.parts && !s.parts[p].mem
    ensures s.parts[p].id in s.dirs && s.dirs[s.parts[p].id] == Complete(s.parts[p].part)
  {
    ReachableInv(s);
    hide Reachable, Counted, LoopOK, IntroOK, MemDirs, Removal, Epochs, Durable, View;
  }

  /** Nobody but the table itself holds a snapshot, and nobody is making a part. */
  ghost predicate Quiet(s: State) {
    s.readers == multiset{} && s.intro.Idle? && s.flusher.Resting? && s.merger.Resting? && s.pending == {}
  }

  /** Then the complete directories are exactly those of the current file parts. */
  lemma QuietDisk(s: State)
    requires Reachable(s) && Quiet(s)
    ensures forall d :: d in s.dirs && s.dirs[d].Complete? <==>
      exists p :: p in CurParts(s) && p in s.parts && !s.parts[p].mem && s.parts[p].id == d
  {
    hide Reachable;
    forall d | d in s.dirs && s.dirs[d].Complete?
      ensures exists p :: p in CurParts(s) && p in s.parts && !s.parts[p].mem && s.parts[p].id == d
    {
      var p := NoDirectoryIsLeft(s, d);
      QuietHolds(s, p);
    }
    forall p | p in CurParts(s) && p in s.parts && !s.parts[p].mem
      ensures s.parts[p].id in s.dirs && s.dirs[s.parts[p].id].Complete?
    {
      CurIsHeld(s, p);
      HeldIsReadable(s, s.cur.value, p);
    }
  }

  lemma CurIsHeld(s: State, p: PartRef)
    requires p in CurParts(s)
    ensures s.cur.Some? && s.cur.value in Tokens(s) && p in SeqOf(s.snaps, s.cur.value)
  {
  }

  lemma QuietHolds(s: State, p: PartRef)
    requires Quiet(s) && (p in Extra(s) || exists h :: h in Tokens(s) && p in SeqOf(s.snaps, h))
    ensures p in CurParts(s)
  {
  }
}
