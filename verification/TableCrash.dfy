/**
  The snapshot files and the restart: cleaning never deletes the newest snapshot file, and a restart
  opens complete directories only and brings back everything that was ever persisted.
 */
module TableCrash {
  import opened Points
  import opened Parts
  import opened Table
  import opened TableSteps
  import opened TableRefs
  import opened TableInv
  import opened TableView

  // ---------- garbage collection of snapshot files ----------

  lemma {:induction false} KeepLess(es: seq<nat>, failed: set<nat>)
    ensures forall e :: e in Keep(es, failed) ==> e in es
  {
    if es != [] {
      KeepLess(es[1..], failed);
    }
  }

  /** The newest snapshot file is never deleted. */
  lemma {:induction false} CleanKeepsNewest(snps: map<nat, seq<nat>>, gc: Gc, epoch: nat, failed: set<nat>)
    requires Epochs(snps, gc, epoch)
    ensures var snps' := snps - (set e | e in gc.deletable && e !in failed);
      var gc' := gc.(deletable := Keep(gc.deletable, failed));
      Epochs(snps', gc', epoch) && Listed(snps', gc') == Listed(snps, gc)
  {
    hide SetOf;
    KeepLess(gc.deletable, failed);
    var snps' := snps - (set e | e in gc.deletable && e !in failed);
    if gc.live == 0 {
      assert snps' == map[];
    }
  }

  /**
    Registering an epoch and then cleaning deletes the file of that epoch exactly when the epoch was live
    or up for deletion already, as after a second registration, and the file can be deleted.
   */
  lemma CleanDeletesLiveIff(snps: map<nat, seq<nat>>, gc: Gc, epoch: nat, failed: set<nat>)
    requires epoch in snps
    ensures var g := Register(gc, epoch);
      epoch !in snps - (set e | e in g.deletable && e !in failed)
      <==> (epoch in gc.deletable || (gc.live > 0 && gc.live == epoch)) && epoch !in failed
  {
    if gc.live > 0 {
      assert (gc.deletable + [gc.live])[|gc.deletable|] == gc.live;
    }
  }

  lemma CleanKeeps(s: State, failed: set<nat>)
    requires Inv(s)
    ensures Inv(Cleans(s, failed))
  {
    hide Counted, Disk, LoopOK, IntroOK, MemDirs, Removal, Epochs, Durable, View, Listed, SetOf, Keep;
    CleanKeepsNewest(s.snps, s.gc, s.epoch, failed);
  }

  // ---------- restart ----------

  lemma NewestIsLive(snps: map<nat, seq<nat>>, gc: Gc, epoch: nat, e: nat)
    requires Epochs(snps, gc, epoch) && IsNewest(e, snps)
    ensures e == gc.live && 1 <= e < epoch && SetOf(snps[e]) == Listed(snps, gc)
  {
  }

  /** What a restart needs of the state it finds: the disk, what was current, and what had been persisted. */
  ghost predicate Alive(s: State) {
    && DirsWF(s.dirs, s.curPartID, s.offered)
    && (forall p :: p in OfKind(s.parts, CurParts(s), false) ==>
          s.parts[p].id in s.dirs && s.dirs[s.parts[p].id] == Complete(s.parts[p].part))
    && Epochs(s.snps, s.gc, s.epoch)
    && Durable(s.parts, CurParts(s), s.dirs, Listed(s.snps, s.gc))
    && View(s.parts, CurParts(s), s.offered, s.introduced, s.handedOff, s.flushedEver)
  }

  /** The disk is empty, and nothing that was persisted is missing from what was handed off. */
  ghost predicate Bare(s: State) {
    && s.dirs == map[] && OfKind(s.parts, CurParts(s), false) == {}
    && Dominates({} + s.handedOff, s.flushedEver) && s.handedOff <= s.offered && s.flushedEver <= s.offered
  }

  lemma InvAlive(s: State)
    requires Inv(s)
    ensures Alive(s)
  {
    hide Counted, DirsWF, LoopOK, IntroOK, MemDirs, Removal, View, CurParts, Epochs, Durable;
    CurOpen(s);
  }

  /** Every directory that is opened is complete: none is in the middle of its removal. */
  lemma OpensComplete(s: State, looksValid: set<nat>, d: nat)
    requires Alive(s) && d in Opened(s, looksValid)
    ensures d in s.dirs && s.dirs[d].Complete? && d in Listed(s.snps, s.gc)
  {
    hide DirsWF, View, Listed, SetOf, IdsOf, OfKind, CurParts;
    var e :| IsNewest(e, s.snps) && d in s.snps[e];
    NewestIsLive(s.snps, s.gc, s.epoch, e);
    assert d in SetOf(s.snps[e]) by { InSet(s.snps[e], d); }
  }

  lemma InSet<T>(s: seq<T>, x: T)
    requires x in s
    ensures x in SetOf(s)
  {
  }

  /** The file parts of the current snapshot are all opened. */
  lemma OpensCurrent(s: State, looksValid: set<nat>, p: PartRef)
    requires Alive(s) && p in CurParts(s) && p in s.parts && !s.parts[p].mem
    ensures s.parts[p].id in Opened(s, looksValid)
    ensures s.parts[p].id in s.dirs && s.dirs[s.parts[p].id] == Complete(s.parts[p].part)
    ensures IsNewest(s.gc.live, s.snps)
  {
    hide DirsWF, View, CurParts;
    assert p in OfKind(s.parts, CurParts(s), false);
    assert IdOf(s.parts, p) in IdsOf(s.parts, OfKind(s.parts, CurParts(s), false));
  }

  /** What was persisted is in the directories that are opened, or was handed off. */
  lemma PersistedIsOpened(s: State, looksValid: set<nat>, points: set<Point>)
    requires Alive(s)
    requires forall d :: d in Opened(s, looksValid) && d in s.dirs && s.dirs[d].Complete? ==>
      PartPoints(s.dirs[d].part) <= points
    ensures Dominates(points + s.handedOff, s.flushedEver)
  {
    hide DirsWF, Epochs, Durable, Dominates, Refines, CurParts, Opened, PartPoints;
    var files := PointsOf(s.parts, OfKind(s.parts, CurParts(s), false));
    forall x | x in files ensures x in points {
      var p :| p in OfKind(s.parts, CurParts(s), false) && x in PartPoints(s.parts[p].part);
      OpensCurrent(s, looksValid, p);
      assert PartPoints(s.dirs[s.parts[p].id].part) <= points;
    }
    DominatesGrows(files + s.handedOff, s.flushedEver, points + s.handedOff, s.flushedEver);
  }

  lemma NothingOpened(s: State, looksValid: set<nat>)
    requires NothingToLoad(s, looksValid)
    ensures Opened(s, looksValid) == {}
  {
  }

  /** With nothing to load, nothing that was persisted is missing. */
  lemma NothingMissing(s: State, looksValid: set<nat>)
    requires Alive(s) && NothingToLoad(s, looksValid)
    ensures OfKind(s.parts, CurParts(s), false) == {}
    ensures Dominates({} + s.handedOff, s.flushedEver) && s.handedOff <= s.offered && s.flushedEver <= s.offered
  {
    hide Opened, Alive, NothingToLoad, Dominates, Refines, CurParts;
    NothingOpened(s, looksValid);
    PersistedIsOpened(s, looksValid, {});
    AliveView(s);
    HandedOffOffered(s);
    if p :| p in OfKind(s.parts, CurParts(s), false) {
      OpensCurrent(s, looksValid, p);
      assert false;
    }
  }

  lemma AliveView(s: State)
    requires Alive(s)
    ensures View(s.parts, CurParts(s), s.offered, s.introduced, s.handedOff, s.flushedEver)
    ensures Epochs(s.snps, s.gc, s.epoch) && DirsWF(s.dirs, s.curPartID, s.offered)
  {
  }

  lemma HandedOffOffered(s: State)
    requires View(s.parts, CurParts(s), s.offered, s.introduced, s.handedOff, s.flushedEver)
    ensures s.handedOff <= s.offered && s.flushedEver <= s.offered
  {
    hide Dominates, PointsOf, CurParts;
  }

  lemma EmptyIs(s: State, clock: nat)
    requires Dominates({} + s.handedOff, s.flushedEver) && s.handedOff <= s.offered && s.flushedEver <= s.offered
    ensures Inv(Empty(s, clock))
  {
    hide View, Refines, Dominates, PointsOf;
    var t := Empty(s, clock);
    assert CurParts(t) == {} && Mems(t) == {};
    NothingCounted();
    EmptyView(t);
  }

  lemma NothingCounted()
    ensures Counted(map[], map[], map[], multiset{}, multiset{})
  {
  }

  lemma EmptyView(t: State)
    requires t.parts == map[] && t.introduced == t.handedOff
    requires Dominates({} + t.handedOff, t.flushedEver) && t.handedOff <= t.offered && t.flushedEver <= t.offered
    ensures View(t.parts, {}, t.offered, t.introduced, t.handedOff, t.flushedEver)
  {
    hide Dominates, Refines;
    assert PointsOf(t.parts, {}) == {} && OfKind(t.parts, {}, false) == {};
    assert {} + t.handedOff == t.handedOff;
    RefinesReflexive(t.handedOff);
  }

  lemma LoadedKeeps(s: State, e: nat, looksValid: set<nat>, order: seq<nat>)
    requires Alive(s) && IsNewest(e, s.snps) && NoDup(order) && SetOf(order) == Opened(s, looksValid)
    ensures Inv(Loaded(s, e, order))
  {
    hide *;
    AliveView(s);
    NewestIsLive(s.snps, s.gc, s.epoch, e);
    forall d | d in order ensures d in s.dirs && s.dirs[d].Complete? && d in Listed(s.snps, s.gc) {
      InSet(order, d);
      OpensComplete(s, looksValid, d);
    }
    LoadedIs(s, e, order);
    LoadedCounted(s, e, order);
    LoadedDisk(s, e, order);
    LoadedFiles(s, e, order);
    LoadedPoints(s, e, order);
    forall d | d in Opened(s, looksValid) && d in s.dirs && s.dirs[d].Complete?
      ensures PartPoints(s.dirs[d].part) <= PointsOf(Loaded(s, e, order).parts, SetOf(order))
    {
      LoadedPart(s, e, order, d);
    }
    PersistedIsOpened(s, looksValid, PointsOf(Loaded(s, e, order).parts, SetOf(order)));
    HandedOffOffered(s);
    LoadedView(s, e, order);
    Pack(Loaded(s, e, order));
  }

  ghost predicate AllComplete(s: State, order: seq<nat>) {
    forall d :: d in order ==> d in s.dirs && s.dirs[d].Complete?
  }

  lemma LoadedIs(s: State, e: nat, order: seq<nat>)
    requires forall d :: d in order ==> d in s.dirs && s.dirs[d].Complete?
    ensures AllComplete(s, order)
    ensures var t := Loaded(s, e, order);
      && CurParts(t) == SetOf(order) && Mems(t) == SetOf(order)
      && LoopOK(t.parts, CurParts(t), t.dirs, t.intro, Flusher, t.flusher)
      && LoopOK(t.parts, CurParts(t), t.dirs, t.intro, Merger, t.merger)
      && IntroOK(t.parts, t.snaps, CurParts(t), t.epoch, t.intro, t.flusher, t.merger)
      && MemDirs(t.parts, Mems(t), t.dirs, t.flusher, t.intro)
      && Removal(t.parts, t.refs, t.removable, CurParts(t), Extra(t), t.intro, Listed(t.snps, t.gc))
      && t.snps == s.snps && t.gc == Gc(e, []) && t.epoch == e + 1
  {
    hide PointsOf, Listed;
  }

  lemma LoadedCounted(s: State, e: nat, order: seq<nat>)
    requires AllComplete(s, order) && NoDup(order)
    ensures var t := Loaded(s, e, order); Counted(t.snaps, t.srefs, t.refs, Tokens(t), Extra(t))
  {
    hide PointsOf, Counted;
    var t := Loaded(s, e, order);
    assert Extra(t) == multiset{};
    assert Tokens(t) == if order == [] then multiset{} else multiset{0};
    if order != [] {
      OneSnapCounted(order, e, t.refs);
    } else {
      assert t.refs == map[];
      NothingCounted();
    }
  }

  lemma OneSnapCounted(order: seq<nat>, e: nat, refs: map<PartRef, int>)
    requires NoDup(order) && (forall d :: d in refs <==> d in order) && (forall d :: d in refs ==> refs[d] == 1)
    ensures Counted(map[0 := Snap(order, e)], map[0 := 1], refs, multiset{0}, multiset{})
  {
    var snaps, srefs: map<SnapRef, int> := map[0 := Snap(order, e)], map[0 := 1];
    assert srefs.Keys == {0};
    forall d | d in order ensures Holders(snaps, srefs.Keys, d) == {0} { }
  }

  lemma LoadedDisk(s: State, e: nat, order: seq<nat>)
    requires AllComplete(s, order) && DirsWF(s.dirs, s.curPartID, s.offered)
    ensures var t := Loaded(s, e, order); Disk(t.parts, t.refs, t.dirs, t.curPartID, t.offered)
  {
    hide WFPart, PartPoints, PointsOf;
  }

  lemma LoadedFiles(s: State, e: nat, order: seq<nat>)
    requires AllComplete(s, order) && Epochs(s.snps, s.gc, s.epoch) && e == s.gc.live && 1 <= e && IsNewest(e, s.snps)
    requires forall d :: d in order ==> d in Listed(s.snps, s.gc)
    ensures var t := Loaded(s, e, order);
      Epochs(t.snps, t.gc, t.epoch) && Durable(t.parts, SetOf(order), t.dirs, Listed(t.snps, t.gc))
  {
    hide PointsOf;
    var t := Loaded(s, e, order);
    forall d | d in IdsOf(t.parts, OfKind(t.parts, SetOf(order), false)) ensures d in Listed(t.snps, t.gc) {
      var p :| p in OfKind(t.parts, SetOf(order), false) && IdOf(t.parts, p) == d;
    }
  }

  lemma LoadedPart(s: State, e: nat, order: seq<nat>, d: nat)
    requires AllComplete(s, order) && d in SetOf(order) && d in s.dirs && s.dirs[d].Complete?
    ensures PartPoints(s.dirs[d].part) <= PointsOf(Loaded(s, e, order).parts, SetOf(order))
  {
    hide PartPoints;
    var parts := Loaded(s, e, order).parts;
    assert parts[d].part == s.dirs[d].part;
  }

  lemma LoadedPoints(s: State, e: nat, order: seq<nat>)
    requires AllComplete(s, order) && DirsWF(s.dirs, s.curPartID, s.offered)
    ensures PointsOf(Loaded(s, e, order).parts, SetOf(order)) <= s.offered
  {
    hide PartPoints, WFPart;
  }

  lemma LoadedView(s: State, e: nat, order: seq<nat>)
    requires AllComplete(s, order)
    requires PointsOf(Loaded(s, e, order).parts, SetOf(order)) <= s.offered
    requires Dominates(PointsOf(Loaded(s, e, order).parts, SetOf(order)) + s.handedOff, s.flushedEver)
    requires s.handedOff <= s.offered && s.flushedEver <= s.offered
    ensures var t := Loaded(s, e, order);
      View(t.parts, SetOf(order), t.offered, t.introduced, t.handedOff, t.flushedEver)
  {
    hide PointsOf, Dominates, Refines;
    var t := Loaded(s, e, order);
    assert OfKind(t.parts, SetOf(order), false) == SetOf(order);
    RefinesReflexive(PointsOf(t.parts, SetOf(order)) + s.handedOff);
    assert PointsOf(t.parts, SetOf(order)) + s.handedOff == s.handedOff + PointsOf(t.parts, SetOf(order));
  }

  // ---------- attempts to start that die ----------

  /** The directories that count are untouched: listed ones are as they were, or were never complete. */
  lemma ListedStay(s: State, t: Attempt, d: nat)
    requires Alive(s) && CutShort(s, t) && d in Listed(s.snps, s.gc) && d in t.dirs
    ensures t.dirs[d] == s.dirs[d] && !t.dirs[d].Deleting?
  {
    hide DirsWF, View, CurParts, OfKind, IdsOf;
    if s.dirs[d].Complete? {
      assert IsNewest(s.gc.live, s.snps) && d in s.snps[s.gc.live];
      assert d in ValidDirs(s.dirs, t.looksValid);
      assert d in Opened(s, t.looksValid);
    }
  }

  lemma AttemptKeepsDirs(s: State, t: Attempt)
    requires Alive(s) && CutShort(s, t)
    ensures DirsWF(t.dirs, s.curPartID, s.offered) && Durable(s.parts, CurParts(s), t.dirs, Listed(s.snps, s.gc))
    ensures forall p :: p in OfKind(s.parts, CurParts(s), false) ==>
      s.parts[p].id in t.dirs && t.dirs[s.parts[p].id] == Complete(s.parts[p].part)
  {
    hide Opened, View, CurParts, WFPart, PartPoints, Epochs, Listed, NothingToLoad;
    forall d | d in Listed(s.snps, s.gc) && d in t.dirs ensures !t.dirs[d].Deleting? {
      ListedStay(s, t, d);
    }
    forall p | p in OfKind(s.parts, CurParts(s), false)
      ensures s.parts[p].id in t.dirs && t.dirs[s.parts[p].id] == Complete(s.parts[p].part)
    {
      OpensCurrent(s, t.looksValid, p);
    }
  }

  /** An attempt that dies leaves a disk that a restart can use as well. */
  lemma AttemptKeeps(s: State, t: Attempt)
    requires Alive(s) || Bare(s)
    requires CutShort(s, t)
    ensures Alive(After(s, t)) || Bare(After(s, t))
  {
    hide Opened, View, DirsWF, Epochs, Durable, OfKind, Listed, NothingToLoad, Dominates, CurParts;
    var s' := After(s, t);
    SameMemory(s, t);
    if Alive(s) {
      if t.snps == s.snps {
        AttemptKeepsDirs(s, t);
      } else {
        NothingMissing(s, t.looksValid);
      }
    } else {
      assert t.dirs == map[];
    }
  }

  lemma SameMemory(s: State, t: Attempt)
    ensures CurParts(After(s, t)) == CurParts(s) && SameBut(s, After(s, t))
  {
  }

  /** Nothing but the disk differs. */
  ghost predicate SameBut(s: State, t: State) {
    && t.parts == s.parts && CurParts(t) == CurParts(s) && t.gc == s.gc && t.epoch == s.epoch && t.offered == s.offered
    && t.introduced == s.introduced && t.handedOff == s.handedOff && t.flushedEver == s.flushedEver
  }

  lemma {:induction false} AttemptsKeep(s: State, tries: seq<Attempt>)
    requires Alive(s) || Bare(s)
    requires AllCutShort(s, tries)
    ensures var t := AfterAll(s, tries);
      && (Alive(t) || Bare(t)) && SameBut(s, t)
      && forall d :: d in t.dirs ==> d in s.dirs && (t.dirs[d] == s.dirs[d] || t.dirs[d].Deleting?)
    decreases |tries|
  {
    hide Alive, Bare, Opened, NothingToLoad, CurParts;
    if tries != [] {
      AttemptKeeps(s, tries[0]);
      SameMemory(s, tries[0]);
      AttemptsKeep(After(s, tries[0]), tries[1..]);
    }
  }

  // ---------- crashes ----------

  lemma RecoversKeeps(s: State, clock: nat, looksValid: set<nat>, order: seq<nat>)
    requires Alive(s) || Bare(s)
    requires NoDup(order) && SetOf(order) == Opened(s, looksValid)
    ensures Inv(Recovers(s, clock, looksValid, order))
  {
    hide Inv, Alive, SetOf, Opened, IsNewest, Empty, Loaded, Dominates, OfKind, CurParts;
    if NothingToLoad(s, looksValid) {
      if Alive(s) {
        NothingMissing(s, looksValid);
      }
      EmptyIs(s, clock);
    } else {
      forall e | IsNewest(e, s.snps) ensures Inv(Loaded(s, e, order)) {
        LoadedKeeps(s, e, looksValid, order);
      }
    }
  }

  lemma {:induction false} CrashKeeps(s: State, clock: nat, tries: seq<Attempt>, looksValid: set<nat>, order: seq<nat>)
    requires Inv(s) && AllCutShort(s, tries) && NoDup(order) && SetOf(order) == Opened(AfterAll(s, tries), looksValid)
    ensures Inv(Recovers(AfterAll(s, tries), clock, looksValid, order))
  {
    hide *;
    InvAlive(s);
    AttemptsKeep(s, tries);
    RecoversKeeps(AfterAll(s, tries), clock, looksValid, order);
  }
}
