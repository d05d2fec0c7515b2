/**
  The snapshot files of a table.  Cleaning deletes exactly the files that newer ones have replaced since the
  table was opened; those that a restart finds beside the newest one are never deleted while it is open.
 */
module TableFiles {
  import opened Points
  import opened Parts
  import opened Table
  import opened TableSteps
  import opened TableRefs
  import opened TableInv
  import opened TableRun
  import opened TableCrash
  import opened TableReplace
  import opened TableTheorems

  /** The files that no cleaning deletes: neither the newest one nor up for deletion. */
  ghost function Stray(s: State): set<nat> {
    set e | e in s.snps && e != s.gc.live && e !in s.gc.deletable
  }

  /** The newest file, if there is any. */
  ghost function Newest(s: State): set<nat> {
    set e | e in s.snps && e == s.gc.live
  }

  // ---------- one cleaning ----------

  lemma {:induction false} KeepIs(es: seq<nat>, failed: set<nat>, e: nat)
    ensures multiset(Keep(es, failed))[e] == if e in failed then multiset(es)[e] else 0
  {
    if es != [] {
      KeepIs(es[1..], failed, e);
      assert es == [es[0]] + es[1..];
    }
  }

  lemma {:induction false} KeptIn(es: seq<nat>, failed: set<nat>)
    ensures forall e :: e in Keep(es, failed) <==> e in es && e in failed
    ensures NoDup(es) ==> NoDup(Keep(es, failed))
  {
    if es != [] {
      KeptIn(es[1..], failed);
      assert forall e :: e in es <==> e == es[0] || e in es[1..];
      var rest := Keep(es[1..], failed);
      if NoDup(es) {
        assert NoDup(es[1..]);
        assert es[0] !in rest;
        assert forall i :: 0 <= i < |rest| ==> rest[i] in rest;
      }
    }
  }

  /**
    A cleaning deletes the files up for deletion, but for those that cannot be deleted now, which stay up
    for deletion; no other file is touched, and nothing but files.
   */
  lemma CleanIs(s: State, failed: set<nat>)
    ensures var t := Next(s, Clean(failed));
      && (forall e :: e in t.snps <==> e in s.snps && (e in s.gc.deletable ==> e in failed))
      && (forall e :: e in t.snps ==> t.snps[e] == s.snps[e])
      && (forall e :: multiset(t.gc.deletable)[e] == if e in failed then multiset(s.gc.deletable)[e] else 0)
      && t.gc.live == s.gc.live && t == s.(snps := t.snps, gc := t.gc)
  {
    hide Keep;
    forall e {
      KeepIs(s.gc.deletable, failed, e);
    }
  }

  // ---------- every run ----------

  /** What is up for deletion are older files, each named once. */
  ghost predicate FilesOK(s: State) {
    NoDup(s.gc.deletable) && forall e :: e in s.gc.deletable ==> e in s.snps
  }

  lemma CleanFiles(s: State, failed: set<nat>)
    requires Inv(s) && FilesOK(s)
    ensures FilesOK(Next(s, Clean(failed))) && Stray(Next(s, Clean(failed))) == Stray(s)
  {
    hide Inv, Keep;
    KeptIn(s.gc.deletable, failed);
  }

  /** A persisted file is new, and the newest one before it is up for deletion from then on. */
  lemma ReplaceFiles(s: State)
    requires Inv(s) && FilesOK(s) && s.intro.Built?
    ensures FilesOK(Next(s, Replace)) && Stray(Next(s, Replace)) == Stray(s)
    ensures Persists(s.parts, s.intro.change) ==>
      var t := Next(s, Replace);
      && t.snps == s.snps[s.epoch := Listing(s.parts, SeqOf(s.snaps, s.intro.next))] && t.gc.live == s.epoch
      && t.gc.deletable == if s.gc.live > 0 then s.gc.deletable + [s.gc.live] else s.gc.deletable
    ensures !Persists(s.parts, s.intro.change) ==> Next(s, Replace).snps == s.snps && Next(s, Replace).gc == s.gc
  {
    hide *;
    Unpack(s);
    BuiltWork(s, s.intro.next, s.intro.change);
    ReplaceWrites(s);
    if Persists(s.parts, s.intro.change) {
      NewFile(s, Next(s, Replace));
    } else {
      SameFilesLeft(s, Next(s, Replace));
    }
  }

  lemma ReplaceWrites(s: State)
    requires s.intro.Built? && s.intro.next in s.snaps && s.snaps[s.intro.next].epoch == s.epoch
    ensures var t := Next(s, Replace);
      if Persists(s.parts, s.intro.change) then
        && t.snps == s.snps[s.epoch := Listing(s.parts, SeqOf(s.snaps, s.intro.next))]
        && t.gc == Gc(s.epoch, if s.gc.live > 0 then s.gc.deletable + [s.gc.live] else s.gc.deletable)
      else t.snps == s.snps && t.gc == s.gc
  {
    hide Next, PointsOf, OfKind, Persists, Listing, Drop, SetOf, Resumed;
    NextReplace(s);
  }

  lemma NewFile(s: State, t: State)
    requires Epochs(s.snps, s.gc, s.epoch) && FilesOK(s) && t.snps.Keys == s.snps.Keys + {s.epoch}
    requires t.gc == Gc(s.epoch, if s.gc.live > 0 then s.gc.deletable + [s.gc.live] else s.gc.deletable)
    ensures FilesOK(t) && Stray(t) == Stray(s)
  {
    if s.gc.live > 0 {
      assert forall e :: e in t.gc.deletable <==> e in s.gc.deletable || e == s.gc.live;
      assert forall i :: 0 <= i < |s.gc.deletable| ==> s.gc.deletable[i] in s.gc.deletable;
    }
  }

  lemma SameFilesLeft(s: State, t: State)
    requires t.snps == s.snps && t.gc == s.gc
    ensures Stray(t) == Stray(s) && FilesOK(t) == FilesOK(s)
  {
  }

  lemma StepFiles(s: State, step: Step)
    requires Inv(s) && FilesOK(s) && Enabled(s, step)
    ensures FilesOK(Next(s, step)) && (!step.Crash? ==> Stray(Next(s, step)) == Stray(s))
  {
    hide *;
    match step
    case Replace =>
      ReplaceBuilt(s);
      ReplaceFiles(s);
    case Clean(failed) => CleanFiles(s, failed);
    case Crash(clock, tries, looksValid, order) =>
      CrashEnabled(s, clock, tries, looksValid, order);
      NothingDeletable(AfterAll(s, tries), clock, looksValid, order);
    case _ =>
      if OfLoop(step) { LoopEpochs(s, step); } else { OtherEpochs(s, step); }
      SameFilesLeft(s, Next(s, step));
  }

  /** After a restart nothing is up for deletion. */
  lemma NothingDeletable(s: State, clock: nat, looksValid: set<nat>, order: seq<nat>)
    ensures FilesOK(Recovers(s, clock, looksValid, order)) && Recovers(s, clock, looksValid, order).gc.deletable == []
  {
    hide PointsOf, ValidDirs, IsNewest;
  }

  lemma {:induction false} RunFiles(s: State, steps: seq<Step>, t: State)
    requires Inv(s) && FilesOK(s) && Run(s, steps, t)
    ensures FilesOK(t) && (NoCrash(steps) ==> Stray(t) == Stray(s))
    decreases |steps|
  {
    hide Inv, Enabled, Next, FilesOK, Stray;
    if steps != [] {
      StepFiles(s, steps[0]);
      StepKeeps(s, steps[0]);
      RunFiles(Next(s, steps[0]), steps[1..], t);
    }
  }

  lemma ReachableFiles(s: State)
    requires Reachable(s)
    ensures FilesOK(s)
  {
    hide Inv, Run;
    var liaison, clock, steps :| Run(Initial(liaison, clock), steps, s);
    InitialHolds(liaison, clock);
    RunFiles(Initial(liaison, clock), steps, s);
  }

  /**
    In every reachable state, a cleaning that can delete every file leaves the newest file and the stray ones,
    and nothing is up for deletion any more.
   */
  lemma CleanLeaves(s: State)
    requires Reachable(s)
    ensures var t := Next(s, Clean({}));
      t.snps.Keys == Newest(s) + Stray(s) && Newest(s) !! Stray(s) && |Newest(s)| <= 1 && t.gc.deletable == []
  {
    hide *;
    ReachableInv(s);
    LiveNotDeletable(s);
    CleanAll(s);
  }

  lemma CleanAll(s: State)
    requires s.gc.live !in s.gc.deletable
    ensures var t := Next(s, Clean({}));
      t.snps.Keys == Newest(s) + Stray(s) && Newest(s) !! Stray(s) && |Newest(s)| <= 1 && t.gc.deletable == []
  {
    hide Next;
    var t := Next(s, Clean({}));
    CleanIs(s, {});
    NoneIn(t.gc.deletable);
    OneAtMost(Newest(s), s.gc.live);
  }

  lemma NoneIn(es: seq<nat>)
    requires forall e :: multiset(es)[e] == 0
    ensures es == []
  {
    assert multiset(es) == multiset{} && |multiset(es)| == |es|;
  }

  lemma LiveNotDeletable(s: State)
    requires Inv(s)
    ensures s.gc.live !in s.gc.deletable
  {
    hide Counted, Disk, LoopOK, IntroOK, MemDirs, Removal, Durable, View;
  }

  lemma OneAtMost(a: set<nat>, x: nat)
    requires a <= {x}
    ensures |a| <= 1
  {
    if a != {} {
      assert a == {x};
    }
  }

  /** As long as a table started on an empty directory runs, cleaning leaves the newest file alone. */
  lemma {:induction false} NothingStray(liaison: bool, clock: nat, steps: seq<Step>, s: State)
    requires Run(Initial(liaison, clock), steps, s) && NoCrash(steps)
    ensures Stray(s) == {} && Next(s, Clean({})).snps.Keys == Newest(s)
  {
    hide Inv, Run;
    InitialHolds(liaison, clock);
    RunFiles(Initial(liaison, clock), steps, s);
    assert Reachable(s);
    CleanLeaves(s);
  }

  /** What a restart that loads something leaves: every file it found, of which all but the newest are stray. */
  lemma {:induction false} RestartLeaves(s: State, clock: nat, tries: seq<Attempt>, looksValid: set<nat>, order: seq<nat>)
    requires Enabled(s, Crash(clock, tries, looksValid, order))
    ensures var u, t := AfterAll(s, tries), Next(s, Crash(clock, tries, looksValid, order));
      if NothingToLoad(u, looksValid) then t.snps == map[]
      else t.snps == u.snps && IsNewest(t.gc.live, t.snps) && Stray(t) == u.snps.Keys - {t.gc.live}
  {
    hide Enabled, Next, AfterAll, AllCutShort, ValidDirs, PointsOf;
    CrashEnabled(s, clock, tries, looksValid, order);
  }

  /**
    They stay: until the next restart no cleaning deletes them.  Cleaning leaves the newest file alone if and
    only if the restart found no other.
   */
  lemma {:induction false} StrayStays(s: State, steps: seq<Step>, t: State)
    requires Reachable(s) && Run(s, steps, t) && NoCrash(steps)
    ensures Stray(s) <= t.snps.Keys
    ensures Next(t, Clean({})).snps.Keys == Newest(t) <==> Stray(s) == {}
  {
    hide Inv, Run;
    ReachableInv(s);
    ReachableFiles(s);
    RunFiles(s, steps, t);
    ReachableRun(s, steps, t);
    CleanLeaves(t);
  }
}
