/**
  The columns of all parts of a table, over whole runs.  If every part that is prepared or received has
  columns of a lasting set for each series, and every finished merge has columns that arise from its
  inputs, then so has every part there ever is, and any of them can be merged.
 */
module TableSchemas {
  import opened Points
  import opened Schemas
  import opened Joins
  import opened FamilyOrder
  import opened Parts
  import opened MergeSchemas
  import opened Table
  import opened TableSteps

  ghost predicate PartWithin(part: Part, ks: nat -> iset<Schema>) {
    forall b :: b in Flat(part.primaries) ==> b.schema in ks(b.bm.sid)
  }

  ghost predicate PartsWithin(parts: map<PartRef, Wrapper>, ks: nat -> iset<Schema>) {
    forall p :: p in parts ==> PartWithin(parts[p].part, ks)
  }

  ghost predicate DirsWithin(dirs: map<nat, Dir>, ks: nat -> iset<Schema>) {
    forall d :: d in dirs && dirs[d].Complete? ==> PartWithin(dirs[d].part, ks)
  }

  /** Every part, in memory and on disk, has columns of these sets. */
  ghost predicate AllWithin(s: State, ks: nat -> iset<Schema>) {
    PartsWithin(s.parts, ks) && DirsWithin(s.dirs, ks)
  }

  /** The columns of the blocks of one series in some parts, as a merge reads them. */
  ghost function ReadFrom(parts: map<PartRef, Wrapper>, inputs: set<PartRef>, sid: nat): iset<Schema> {
    iset p, b | p in inputs && p in parts && b in Flat(parts[p].part.primaries) && b.bm.sid == sid :: AsRead(b.schema)
  }

  /** The columns of a merged part arise from those of its inputs. */
  ghost predicate MergedFrom(part: Part, parts: map<PartRef, Wrapper>, inputs: set<PartRef>) {
    forall b :: b in Flat(part.primaries) ==> Made(b.schema, ReadFrom(parts, inputs, b.bm.sid))
  }

  ghost predicate AllLasting(ks: nat -> iset<Schema>) {
    forall sid :: Lasting(ks(sid))
  }

  /** What enters the table has columns of these sets, and merges are merges. */
  ghost predicate Honest(s: State, step: Step, ks: nat -> iset<Schema>) {
    match step
    case PrepareMem(_, part) => PartWithin(part, ks)
    case ReceiveFinish(_, _, part) => PartWithin(part, ks)
    case MergeDone(who, _, part) =>
      WorkOf(LoopOf(s, who)).Merging? ==> MergedFrom(part, s.parts, WorkOf(LoopOf(s, who)).inputs)
    case _ => true
  }

  ghost predicate HonestRun(s: State, steps: seq<Step>, ks: nat -> iset<Schema>)
    decreases |steps|
  {
    steps == [] || (Honest(s, steps[0], ks) && HonestRun(Next(s, steps[0]), steps[1..], ks))
  }

  // ---------- one step ----------

  lemma MergedWithin(part: Part, parts: map<PartRef, Wrapper>, inputs: set<PartRef>, ks: nat -> iset<Schema>)
    requires AllLasting(ks) && PartsWithin(parts, ks) && MergedFrom(part, parts, inputs)
    ensures PartWithin(part, ks)
  {
    hide Carries, AsRead, Flat;
    forall b | b in Flat(part.primaries) ensures b.schema in ks(b.bm.sid) {
      var sid := b.bm.sid;
      var read := iset x | x in ks(sid) :: AsRead(x);
      assert Lasting(ks(sid));
      forall x | x in ReadFrom(parts, inputs, sid) ensures x in read {
        var p, c :| p in inputs && p in parts && c in Flat(parts[p].part.primaries) && c.bm.sid == sid && AsRead(c.schema) == x;
        assert PartWithin(parts[p].part, ks);
      }
      CarriesFewer(ks(sid), read, ReadFrom(parts, inputs, sid));
    }
  }

  lemma AddFileWithin(s: State, p: PartRef, id: nat, part: Part, ks: nat -> iset<Schema>)
    requires AllWithin(s, ks) && PartWithin(part, ks)
    ensures AllWithin(AddFile(s, p, id, part), ks)
  {
    hide PartWithin;
  }

  lemma DropWithin(s: State, h: SnapRef, ks: nat -> iset<Schema>)
    requires AllWithin(s, ks)
    ensures AllWithin(Drop(s, h), ks)
  {
    hide PartWithin, Unref, Doomed;
  }

  lemma {:induction false} AttemptsWithin(s: State, tries: seq<Attempt>, ks: nat -> iset<Schema>)
    requires AllCutShort(s, tries) && DirsWithin(s.dirs, ks)
    ensures DirsWithin(AfterAll(s, tries).dirs, ks)
    decreases |tries|
  {
    hide PartWithin, Opened, NothingToLoad;
    if tries != [] {
      AttemptsWithin(TableSteps.After(s, tries[0]), tries[1..], ks);
    }
  }

  lemma RecoversWithin(s: State, clock: nat, looksValid: set<nat>, order: seq<nat>, ks: nat -> iset<Schema>)
    requires DirsWithin(s.dirs, ks)
    ensures AllWithin(Recovers(s, clock, looksValid, order), ks)
  {
    hide PartWithin, NothingToLoad, IsNewest, PointsOf;
  }

  lemma MakingWithin(s: State, step: Step, ks: nat -> iset<Schema>)
    requires AllLasting(ks) && AllWithin(s, ks) && Enabled(s, step) && Honest(s, step, ks)
    requires step.PrepareMem? || step.ReceiveFinish? || step.MergeDone? || step.FlushEnd?
    ensures AllWithin(Next(s, step), ks)
  {
    hide PartWithin, PartsWithin, DirsWithin, MergedFrom, AllLasting, WFPart, PartPoints, PointsOf, Refines, AddFile;
    match step
    case PrepareMem(p, part) => PreparesWithin(s, p, part, ks);
    case ReceiveFinish(id, p, part) => AddFileWithin(s, p, id, part, ks);
    case MergeDone(who, p, part) =>
      var w := WorkOf(LoopOf(s, who));
      MergedWithin(part, s.parts, w.inputs, ks);
      AddFileWithin(s, p, w.id, part, ks);
      LoopWithin(AddFile(s, p, w.id, part), who, Sent(Change(Kind.Merge(who), w.inputs, [p], map[])), ks);
    case FlushEnd(p) =>
      var w := FlushSoFar(s.flusher);
      if w.writing.Some? && w.writing.value in s.parts {
        var q := s.parts[w.writing.value];
        KnownWithin(s, w.writing.value, ks);
        AddFileWithin(s, p, q.id, q.part, ks);
      }
  }

  lemma PreparesWithin(s: State, p: PartRef, part: Part, ks: nat -> iset<Schema>)
    requires AllWithin(s, ks) && PartWithin(part, ks)
    ensures AllWithin(Prepares(s, p, part), ks)
  {
    hide PartWithin, PartPoints;
  }

  lemma LoopWithin(s: State, who: Who, w: Work, ks: nat -> iset<Schema>)
    requires AllWithin(s, ks)
    ensures AllWithin(WithWork(s, who, w), ks)
  {
    hide PartWithin;
  }

  lemma KnownWithin(s: State, q: PartRef, ks: nat -> iset<Schema>)
    requires AllWithin(s, ks) && q in s.parts
    ensures PartWithin(s.parts[q].part, ks)
  {
  }

  lemma LettingGoWithin(s: State, step: Step, ks: nat -> iset<Schema>)
    requires AllWithin(s, ks) && (step.Replace? || step.ReleasePrev? || step.Release? || step.LoopRelease?)
    ensures AllWithin(Next(s, step), ks)
  {
    hide PartWithin, PartsWithin, DirsWithin, Drop, Persists, PointsOf, OfKind, Listing, Register, Resumed;
    match step
    case Replace => if s.cur.Some? { DropWithin(s, s.cur.value, ks); }
    case ReleasePrev => if s.intro.Replaced? { DropWithin(s, s.intro.prev, ks); }
    case Release(h) => DropWithin(s, h, ks);
    case LoopRelease(who) => if LoopOf(s, who).Holding? { DropWithin(s, LoopOf(s, who).snap, ks); }
  }

  /** No part is new, and no directory is newly complete. */
  ghost predicate NothingMade(s: State, t: State) {
    t.parts == s.parts && forall d :: d in t.dirs && t.dirs[d].Complete? ==> d in s.dirs && s.dirs[d] == t.dirs[d]
  }

  lemma SameWithin(s: State, t: State, ks: nat -> iset<Schema>)
    requires AllWithin(s, ks) && NothingMade(s, t)
    ensures AllWithin(t, ks)
  {
    hide PartWithin;
  }

  ghost predicate OfLoop(step: Step) {
    step.LoopAcquire? || step.MergeBegin? || step.MergeFail? || step.FlushBegin? || step.FlushSend? || step.SyncSend?
  }

  lemma LoopMakesNothing(s: State, step: Step)
    requires OfLoop(step)
    ensures NothingMade(s, Next(s, step))
  {
    hide NothingMade, Acquires, MergeFails, BeginsFlush, WithWork, OpenDir, FlushSoFar;
    match step
    case LoopAcquire(who) => AcquireMakesNothing(s, who);
    case MergeBegin(who, inputs) =>
      OpenDirMakesNothing(s, ByLoop(who));
      WorkMakesNothing(s, OpenDir(s, ByLoop(who)), who, Merging(inputs, s.curPartID + 1));
    case MergeFail(who) => FailMakesNothing(s, who);
    case FlushBegin(q) => FlushMakesNothing(s, q);
    case FlushSend => SendMakesNothing(s);
    case SyncSend(inputs) =>
      OpenDirMakesNothing(s, Receiving);
      WorkMakesNothing(s, s, Merger, Sent(Change(Sync, inputs, [], map[])));
  }

  lemma AcquireMakesNothing(s: State, who: Who)
    ensures NothingMade(s, Acquires(s, who))
  {
    hide OfKind, CurParts;
  }

  lemma OpenDirMakesNothing(s: State, purpose: Purpose)
    ensures NothingMade(s, OpenDir(s, purpose)) && NothingMade(s, s)
  {
  }

  lemma WorkMakesNothing(s: State, t: State, who: Who, w: Work)
    requires NothingMade(s, t)
    ensures NothingMade(s, WithWork(t, who, w))
  {
  }

  lemma FailMakesNothing(s: State, who: Who)
    ensures NothingMade(s, MergeFails(s, who))
  {
  }

  lemma FlushMakesNothing(s: State, q: PartRef)
    ensures NothingMade(s, BeginsFlush(s, q))
  {
  }

  lemma SendMakesNothing(s: State)
    ensures NothingMade(s, Next(s, FlushSend))
  {
    hide NothingMade, WithWork;
    OpenDirMakesNothing(s, Receiving);
    var w := FlushSoFar(s.flusher);
    WorkMakesNothing(s, s, Flusher, Sent(Change(Flush, w.inputs, w.outs, w.flushed)));
  }

  lemma OtherMakesNothing(s: State, step: Step)
    requires step.ReceiveBegin? || step.ReceiveAbort? || step.Build? || step.Clean? || step.Acquire? || step.Removed?
    ensures NothingMade(s, Next(s, step))
  {
    hide Kept, MarkedBy, NextSeq, Addref, HoldCur, Taken, TakenPending, Keep, OfKind, CurParts;
  }

  lemma StepWithin(s: State, step: Step, ks: nat -> iset<Schema>)
    requires AllLasting(ks) && AllWithin(s, ks) && Enabled(s, step) && Honest(s, step, ks)
    ensures AllWithin(Next(s, step), ks)
  {
    hide PartsWithin, DirsWithin, AllLasting, Honest, Recovers, Drop, NothingMade;
    if step.PrepareMem? || step.ReceiveFinish? || step.MergeDone? || step.FlushEnd? {
      MakingWithin(s, step, ks);
    } else if step.Replace? || step.ReleasePrev? || step.Release? || step.LoopRelease? {
      LettingGoWithin(s, step, ks);
    } else if step.Crash? {
      AttemptsWithin(s, step.tries, ks);
      RecoversWithin(AfterAll(s, step.tries), step.clock, step.looksValid, step.order, ks);
    } else {
      if OfLoop(step) { LoopMakesNothing(s, step); } else { OtherMakesNothing(s, step); }
      SameWithin(s, Next(s, step), ks);
    }
  }

  // ---------- runs ----------

  lemma {:induction false} RunWithin(s: State, steps: seq<Step>, t: State, ks: nat -> iset<Schema>)
    requires AllLasting(ks) && AllWithin(s, ks) && Run(s, steps, t) && HonestRun(s, steps, ks)
    ensures AllWithin(t, ks)
    decreases |steps|
  {
    hide AllLasting, AllWithin, Enabled, Next, Honest;
    if steps != [] {
      StepWithin(s, steps[0], ks);
      RunWithin(Next(s, steps[0]), steps[1..], t, ks);
    }
  }

  /** Reachable by a run in which whatever enters the table has columns of these sets. */
  ghost predicate ReachableWithin(s: State, ks: nat -> iset<Schema>) {
    AllLasting(ks) && exists liaison, clock, steps ::
      Run(Initial(liaison, clock), steps, s) && HonestRun(Initial(liaison, clock), steps, ks)
  }

  /** In every such state all parts, on disk too, have columns of these sets; crashes and merges of merges included. */
  lemma AllPartsWithin(s: State, ks: nat -> iset<Schema>)
    requires ReachableWithin(s, ks)
    ensures AllWithin(s, ks) && Reachable(s)
  {
    hide AllLasting, Run, HonestRun, Initial;
    var liaison, clock, steps :| Run(Initial(liaison, clock), steps, s) && HonestRun(Initial(liaison, clock), steps, ks);
    InitialWithin(liaison, clock, ks);
    RunWithin(Initial(liaison, clock), steps, s, ks);
  }

  lemma InitialWithin(liaison: bool, clock: nat, ks: nat -> iset<Schema>)
    ensures AllWithin(Initial(liaison, clock), ks)
  {
  }
}
