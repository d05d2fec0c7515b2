/** Every run of a table, through any interleaving of its threads and any number of crashes. */
module TableRun {
  import opened Points
  import opened Parts
  import opened Table
  import opened TableSteps
  import opened TableRefs
  import opened TableInv
  import opened TableKeeps
  import opened TableWork
  import opened TableNext
  import opened TableBuild
  import opened TableView
  import opened TableCrash

  // ---------- every step keeps the invariant ----------

  ghost predicate OfLoop(step: Step) {
    step.LoopAcquire? || step.MergeBegin? || step.MergeDone? || step.MergeFail? || step.FlushBegin? || step.FlushEnd?
    || step.FlushSend? || step.SyncSend? || step.LoopRelease?
  }

  lemma LoopStepKeeps(s: State, step: Step)
    requires Inv(s) && Enabled(s, step) && OfLoop(step)
    ensures Inv(Next(s, step))
  {
    hide Inv, WFPart, PartPoints, PointsOf, Refines, Acquires, MergeEnds, MergeFails, BeginsFlush, EndsFlush, Releases,
         WithWork, OpenDir;
    match step
    case LoopAcquire(who) => LoopAcquireKeeps(s, who);
    case MergeBegin(who, inputs) => MergeBeginKeeps(s, who, inputs);
    case MergeDone(who, p, part) => MergeEndsKeeps(s, who, p, part);
    case MergeFail(who) => MergeFailKeeps(s, who);
    case FlushBegin(q) => FlushBeginKeeps(s, q);
    case FlushEnd(p) => FlushEndKeeps(s, p);
    case FlushSend => FlushSendKeeps(s);
    case SyncSend(inputs) => SyncSendKeeps(s, inputs);
    case LoopRelease(who) => LoopReleaseKeeps(s, who);
  }

  lemma OtherStepKeeps(s: State, step: Step)
    requires Inv(s) && Enabled(s, step) && !OfLoop(step)
    ensures Inv(Next(s, step))
  {
    hide Inv, WFPart, PartPoints, PointsOf, Prepares, Receives, OpenDir, Builds, Replaces, Drop, Cleans, Recovers,
         SentBy, Opened, SetOf, NoDup, AllCutShort, AfterAll;
    match step
    case PrepareMem(p, part) => PrepareMemKeeps(s, p, part);
    case ReceiveBegin => OpenDirKeeps(s, Receiving);
    case ReceiveAbort(id) => ForgetKeeps(s, id);
    case ReceiveFinish(id, p, part) => ReceivesKeeps(s, id, p, part);
    case Build(h, c) => BuildKeeps(s, h, c);
    case Replace => ReplaceKeeps(s, s.intro.next, s.intro.change);
    case ReleasePrev => ReleasePrevKeeps(s);
    case Clean(failed) => CleanKeeps(s, failed);
    case Acquire => AcquireKeeps(s);
    case Release(h) => ReleaseKeeps(s, h);
    case Removed(id) => ForgetKeeps(s, id);
    case Crash(clock, tries, looksValid, order) => CrashKeeps(s, clock, tries, looksValid, order);
  }

  lemma StepKeeps(s: State, step: Step)
    requires Inv(s) && Enabled(s, step)
    ensures Inv(Next(s, step))
  {
    hide Inv, Enabled, Next;
    if OfLoop(step) {
      LoopStepKeeps(s, step);
    } else {
      OtherStepKeeps(s, step);
    }
  }

  lemma InitialHolds(liaison: bool, clock: nat)
    ensures Inv(Initial(liaison, clock))
  {
    hide View, Dominates, Refines, PointsOf;
    var t := Initial(liaison, clock);
    assert CurParts(t) == {} && Mems(t) == {};
    NothingCounted();
    assert Dominates({} + t.handedOff, t.flushedEver) by { SubsetDominates({} + t.handedOff, t.flushedEver); }
    EmptyView(t);
  }

  lemma {:induction false} RunKeeps(s: State, steps: seq<Step>, t: State)
    requires Inv(s) && Run(s, steps, t)
    ensures Inv(t)
    decreases |steps|
  {
    hide Inv, Enabled, Next;
    if steps != [] {
      StepKeeps(s, steps[0]);
      RunKeeps(Next(s, steps[0]), steps[1..], t);
    }
  }

  lemma ReachableInv(s: State)
    requires Reachable(s)
    ensures Inv(s)
  {
    hide Inv, Run, Initial;
    var liaison, clock, steps :| Run(Initial(liaison, clock), steps, s);
    InitialHolds(liaison, clock);
    RunKeeps(Initial(liaison, clock), steps, s);
  }

  // ---------- longer runs ----------

  lemma {:induction false} RunConcat(s: State, a: seq<Step>, t: State, b: seq<Step>, u: State)
    requires Run(s, a, t) && Run(t, b, u)
    ensures Run(s, a + b, u)
    decreases |a|
  {
    hide Enabled, Next;
    if a == [] {
      assert a + b == b;
    } else {
      RunConcat(Next(s, a[0]), a[1..], t, b, u);
      assert (a + b)[1..] == a[1..] + b;
    }
  }

  lemma {:induction false} ReachableRun(s: State, steps: seq<Step>, t: State)
    requires Reachable(s) && Run(s, steps, t)
    ensures Reachable(t)
  {
    hide Run;
    var liaison, clock, before :| Run(Initial(liaison, clock), before, s);
    RunConcat(Initial(liaison, clock), before, s, steps, t);
  }

  lemma {:induction false} ReachableStep(s: State, step: Step)
    requires Reachable(s) && Enabled(s, step)
    ensures Run(s, [step], Next(s, step)) && Reachable(Next(s, step))
  {
    hide Enabled, Next, Reachable;
    ReachableRun(s, [step], Next(s, step));
  }

  /** One more step. */
  lemma {:induction false} RunStep(s: State, steps: seq<Step>, t: State, step: Step)
    requires Reachable(s) && Run(s, steps, t) && Enabled(t, step)
    ensures Run(s, steps + [step], Next(t, step)) && Reachable(Next(t, step))
  {
    hide *;
    ReachableRun(s, steps, t);
    ReachableStep(t, step);
    RunConcat(s, steps, t, [step], Next(t, step));
  }
}
