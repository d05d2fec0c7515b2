/**
  What the threads of a table can bring about.  From any reachable state in which they have what they need, no
  guard stands in the way: a write becomes visible, a flush or a merge durable, a hand-off complete.
 */
module TableProgress {
  import opened Points
  import opened Parts
  import opened Table
  import opened TableSteps
  import opened TableRefs
  import opened TableInv
  import opened TableRun
  import opened TableKeeps
  import opened TableWork
  import opened TableBuild
  import opened TableReplace
  import opened TableView
  import opened TableCrash
  import opened TableTheorems
  import opened TableCode
  import opened TableFiles
  import opened TableSpace

  // ---------- introductions ----------

  /** What an introduction of `c` as snapshot `h` leaves alone and what it brings. */
  ghost predicate Introduced(s: State, c: Change, t: State) {
    && CurParts(t) == CurParts(s) - c.inputs + SetOf(c.outs) && t.parts == s.parts && t.dirs == s.dirs
    && t.epoch == s.epoch + 1 && t.intro == AfterIntro(s.cur) && t.curPartID == s.curPartID
    && t.cur.Some?
    && (Persists(s.parts, c) ==>
          && t.gc.live == s.epoch && t.snps == s.snps[s.epoch := Listing(s.parts, CurSeq(t))])
    && (!Persists(s.parts, c) ==> t.snps == s.snps && t.gc == s.gc)
    && t.introduced == (if c.kind.Write? then s.introduced + PointsOf(s.parts, SetOf(c.outs)) else s.introduced)
    && t.handedOff == (if c.kind.Sync? then s.handedOff + PointsOf(s.parts, c.inputs) else s.handedOff)
    && t.flushedEver == s.flushedEver +
         (if Persists(s.parts, c) then PointsOf(t.parts, OfKind(t.parts, CurParts(t), false)) else {})
    && LoopGoesOn(c, Flusher, s.flusher, t.flusher) && LoopGoesOn(c, Merger, s.merger, t.merger)
  }

  /** The sender goes on with the parts it has not used up, and flushes no more; the other loop is left alone. */
  ghost predicate LoopGoesOn(c: Change, who: Who, l: Loop, l': Loop) {
    if Sender(c) == Some(who) then l.Holding? ==> l' == Holding(l.snap, l.todo - c.inputs, false, Nothing) else l' == l
  }

  lemma GoesOn(c: Change, who: Who, l: Loop)
    ensures LoopGoesOn(c, who, l, Resumed(Taken(l, who, c), who, c))
  {
  }

  /** Whatever has been sent can be introduced, and then the snapshot has the outputs in place of the inputs. */
  lemma SentIsIntroduced(s: State, h: SnapRef, c: Change) returns (t: State)
    requires Reachable(s) && s.intro.Idle? && h !in s.snaps && SentBy(s, c)
    ensures Run(s, [Build(h, c), Replace], t) && Reachable(t) && Introduced(s, c, t)
    ensures t.snaps.Keys == s.snaps.Keys + {h}
  {
    hide *;
    ReachableInv(s);
    BuildEnabled(s, h, c);
    var s1 := Next(s, Build(h, c));
    t := Next(s1, Replace);
    IntroFacts(s, h, c);
    BuildStep(s, h, c);
    ReplaceStep(s1, h, c);
    ReachableStep(s, Build(h, c));
    RunStep(s, [Build(h, c)], s1, Replace);
    assert [Build(h, c)] + [Replace] == [Build(h, c), Replace];
    Unpack(s1);
    BuiltWork(s1, h, c);
    ReplaceClosesNothing(s1, h, c);
    ReplacesIs(s1, h, c);
    Unpack(s);
    CurOpen(s);
    BuildsIs(s, h, c);
    NextPartsIs(CurParts(s), c);
    ReplaceWrites(s1);
    History(s1, h, c);
    CurIs(t, h);
    GoesOn(c, Flusher, s.flusher);
    GoesOn(c, Merger, s.merger);
    IsIntroduced(s, c, t);
  }

  lemma BuildEnabled(s: State, h: SnapRef, c: Change)
    requires s.intro.Idle? && h !in s.snaps && SentBy(s, c)
    ensures Enabled(s, Build(h, c))
  {
    hide SentBy;
  }

  lemma NextPartsIs(cur: set<PartRef>, c: Change)
    ensures NextParts(cur, c) == cur - c.inputs + SetOf(c.outs)
  {
  }

  /** What replacing the snapshot adds to what is known to be introduced and handed off. */
  lemma History(s: State, h: SnapRef, c: Change)
    ensures var t := Replaces(s, h, c);
      && t.introduced == (if c.kind.Write? then s.introduced + PointsOf(s.parts, SetOf(c.outs)) else s.introduced)
      && t.handedOff == (if c.kind.Sync? then s.handedOff + PointsOf(s.parts, c.inputs) else s.handedOff)
      && t.flushedEver == s.flushedEver +
           (if Persists(s.parts, c) then PointsOf(s.parts, OfKind(s.parts, SetOf(SeqOf(s.snaps, h)), false)) else {})
  {
    hide Persists, Listing, Register, PointsOf, OfKind, SetOf, Resumed, SeqOf, Unref, Doomed, RemoveDirs;
  }

  lemma CurIs(t: State, h: SnapRef)
    requires t.cur == Some(h)
    ensures CurSeq(t) == SeqOf(t.snaps, h)
  {
  }

  lemma IsIntroduced(s: State, c: Change, t: State)
    requires CurParts(t) == CurParts(s) - c.inputs + SetOf(c.outs) && t.parts == s.parts && t.dirs == s.dirs
    requires t.epoch == s.epoch + 1 && t.intro == AfterIntro(s.cur) && t.curPartID == s.curPartID && t.cur.Some?
    requires Persists(s.parts, c) ==> t.gc.live == s.epoch && t.snps == s.snps[s.epoch := Listing(s.parts, CurSeq(t))]
    requires !Persists(s.parts, c) ==> t.snps == s.snps && t.gc == s.gc
    requires t.introduced == (if c.kind.Write? then s.introduced + PointsOf(s.parts, SetOf(c.outs)) else s.introduced)
    requires t.handedOff == (if c.kind.Sync? then s.handedOff + PointsOf(s.parts, c.inputs) else s.handedOff)
    requires t.flushedEver == s.flushedEver +
      (if Persists(s.parts, c) then PointsOf(t.parts, OfKind(t.parts, CurParts(t), false)) else {})
    requires LoopGoesOn(c, Flusher, s.flusher, t.flusher) && LoopGoesOn(c, Merger, s.merger, t.merger)
    ensures Introduced(s, c, t)
  {
    hide CurParts, SetOf, Persists, Listing, PointsOf, OfKind, AfterIntro, LoopGoesOn;
  }

  lemma {:induction false} ListingAt(parts: map<PartRef, Wrapper>, ps: seq<PartRef>)
    ensures |Listing(parts, ps)| == |ps| && forall i :: 0 <= i < |ps| ==> Listing(parts, ps)[i] == IdOf(parts, ps[i])
  {
    if ps != [] {
      ListingAt(parts, ps[1..]);
    }
  }

  /**
    Every introduction writes a snapshot file, which names the parts of the new snapshot in order, but for that
    of a memory part, which writes none.
   */
  lemma PersistedIff(s: State)
    requires Reachable(s) && s.intro.Built?
    ensures var c, t := s.intro.change, Next(s, Replace);
      if c.kind.Write? && exists p :: c.outs == [p] && p in s.parts && s.parts[p].mem then t.snps == s.snps
      else
        && t.snps.Keys == s.snps.Keys + {s.epoch} && (forall e :: e in s.snps ==> t.snps[e] == s.snps[e])
        && |t.snps[s.epoch]| == |CurSeq(t)|
        && forall i :: 0 <= i < |CurSeq(t)| ==> t.snps[s.epoch][i] == IdOf(t.parts, CurSeq(t)[i])
  {
    hide *;
    ReachableInv(s);
    Unpack(s);
    BuiltWork(s, s.intro.next, s.intro.change);
    ReplaceWrites(s);
    ReplaceStep(s, s.intro.next, s.intro.change);
    ReplaceClosesNothing(s, s.intro.next, s.intro.change);
    ReplacesIs(s, s.intro.next, s.intro.change);
    CurIs(Next(s, Replace), s.intro.next);
    ListingAt(s.parts, SeqOf(s.snaps, s.intro.next));
    WriteIsOne(s.parts, s.intro.change);
    LiveOf(s);
  }

  lemma WriteIsOne(parts: map<PartRef, Wrapper>, c: Change)
    requires ChangeOK(parts, c)
    ensures Persists(parts, c) <==> !(c.kind.Write? && exists p :: c.outs == [p] && p in parts && parts[p].mem)
  {
    hide Paired, Refines, PointsOf;
    if c.kind.Write? {
      assert c.outs == [c.outs[0]];
    }
  }

  lemma LiveOf(s: State)
    requires Epochs(s.snps, s.gc, s.epoch)
    ensures s.epoch !in s.snps
  {
  }

  // ---------- holding and letting go ----------

  /** A reader that acquires holds the current snapshot and sees its points. */
  lemma AcquireSees(s: State, h: SnapRef)
    requires s.cur == Some(h)
    ensures Enabled(s, Acquire)
    ensures var t := Next(s, Acquire);
      && t.readers == s.readers + multiset{h} && CurParts(t) == CurParts(s)
      && PointsOf(t.parts, SetOf(SeqOf(t.snaps, h))) == CurPoints(s)
    ensures h in Tokens(Next(s, Acquire))
  {
    hide PointsOf, SetOf, SeqOf, TokensOf;
    var t := Next(s, Acquire);
    ReaderToken(t.readers, t.cur, t.intro, t.flusher, t.merger, h);
  }

  lemma ReaderToken(readers: multiset<SnapRef>, cur: Option<SnapRef>, intro: Intro, f: Loop, m: Loop, h: SnapRef)
    requires h in readers
    ensures h in TokensOf(readers, cur, intro, f, m)
  {
    hide IntroTokens, LoopToken, Opt;
  }

  /** A loop that acquires has all memory parts, or all file parts, of the current snapshot before it. */
  lemma LoopAcquireSees(s: State, who: Who, h: SnapRef)
    requires LoopOf(s, who).Resting? && s.cur == Some(h)
    ensures Enabled(s, LoopAcquire(who))
    ensures var l := LoopOf(Next(s, LoopAcquire(who)), who);
      && l.Holding? && l.snap == h && l.whole && l.work.Nothing?
      && forall p :: p in l.todo <==> p in CurParts(s) && p in s.parts && (s.parts[p].mem <==> who == Flusher)
  {
    hide CurParts;
  }

  /** One hold on `h` less, and the same parts in use. */
  ghost predicate GivesBack(s: State, h: SnapRef, t: State) {
    Tokens(s) == Tokens(t) + multiset{h} && CurParts(t) == CurParts(s) && Extra(t) == Extra(s)
  }

  /** A reader, the introducer and the loops can let go of what they hold. */
  lemma ReleaseGivesBack(s: State, h: SnapRef)
    requires h in s.readers
    ensures Enabled(s, Release(h)) && GivesBack(s, h, Next(s, Release(h)))
  {
    hide CurParts, Drop, ExtraOf, IntroTokens, LoopToken, Opt;
    DropKeepsRest(s, h);
    SameCur(s, Next(s, Release(h)));
  }

  lemma PrevGivesBack(s: State, h: SnapRef)
    requires s.intro == Replaced(h)
    ensures Enabled(s, ReleasePrev) && GivesBack(s, h, Next(s, ReleasePrev)) && Next(s, ReleasePrev).intro.Idle?
  {
    hide CurParts, Drop, ExtraOf, LoopToken, Opt;
    DropKeepsRest(s, h);
    SameCur(s, Next(s, ReleasePrev));
  }

  lemma LoopReleaseGivesBack(s: State, who: Who, h: SnapRef)
    requires LoopOf(s, who).Holding? && LoopOf(s, who).work.Nothing? && LoopOf(s, who).snap == h
    ensures Enabled(s, LoopRelease(who)) && GivesBack(s, h, Next(s, LoopRelease(who)))
    ensures LoopOf(Next(s, LoopRelease(who)), who).Resting?
  {
    hide CurParts, Drop, TokensOf, ExtraOf;
    DropKeepsRest(s, h);
    SameCur(s, Next(s, LoopRelease(who)));
    LoopTokens(s, who);
    LoopExtra(s, who);
  }

  lemma LoopExtra(s: State, who: Who)
    requires LoopOf(s, who).Holding? && LoopOf(s, who).work.Nothing?
    ensures Extra(WithLoop(s, who, Resting)) == Extra(s)
  {
  }

  // ---------- what is durable ----------

  /** A current file part: its ID is in the newest file, its directory is complete, and any restart brings it back. */
  ghost predicate Lasts(s: State, p: PartRef) {
    && p in CurParts(s) && p in s.parts && !s.parts[p].mem
    && s.parts[p].id in s.dirs && s.dirs[s.parts[p].id] == Complete(s.parts[p].part)
    && IsNewest(s.gc.live, s.snps) && s.parts[p].id in s.snps[s.gc.live]
    && forall clock, tries, looksValid, order :: Enabled(s, Crash(clock, tries, looksValid, order)) ==>
         PartPoints(s.parts[p].part) <= CurPoints(Next(s, Crash(clock, tries, looksValid, order)))
  }

  /** Every current file part lasts. */
  lemma FilesLast(s: State, p: PartRef)
    requires Reachable(s) && p in CurParts(s) && p in s.parts && !s.parts[p].mem
    ensures Lasts(s, p)
  {
    hide *;
    ReachableInv(s);
    Unpack(s);
    OnDisk(s, p);
    forall clock, tries, looksValid, order | Enabled(s, Crash(clock, tries, looksValid, order))
      ensures PartPoints(s.parts[p].part) <= CurPoints(Next(s, Crash(clock, tries, looksValid, order)))
    {
      RestartIsDurable(s, clock, tries, looksValid, order);
      PartOf(s.parts, CurParts(s), p);
    }
    LastsIs(s, p);
  }

  lemma OnDisk(s: State, p: PartRef)
    requires Inv(s) && p in CurParts(s) && p in s.parts && !s.parts[p].mem
    ensures s.parts[p].id in s.dirs && s.dirs[s.parts[p].id] == Complete(s.parts[p].part)
    ensures IsNewest(s.gc.live, s.snps) && s.parts[p].id in s.snps[s.gc.live]
  {
    hide Counted, PartsWF, IdsUnique, DirsWF, LoopOK, IntroOK, MemDirs, Removal, View, CurParts;
    CurOpen(s);
    assert p in OfKind(s.parts, CurParts(s), false);
    assert s.parts[p].id in IdsOf(s.parts, OfKind(s.parts, CurParts(s), false));
  }

  lemma PartOf(parts: map<PartRef, Wrapper>, cur: set<PartRef>, p: PartRef)
    requires p in cur && p in parts && !parts[p].mem
    ensures PartPoints(parts[p].part) <= PointsOf(parts, OfKind(parts, cur, false))
  {
    hide PartPoints;
  }

  lemma LastsIs(s: State, p: PartRef)
    requires p in CurParts(s) && p in s.parts && !s.parts[p].mem
    requires s.parts[p].id in s.dirs && s.dirs[s.parts[p].id] == Complete(s.parts[p].part)
    requires IsNewest(s.gc.live, s.snps) && s.parts[p].id in s.snps[s.gc.live]
    requires forall clock, tries, looksValid, order :: Enabled(s, Crash(clock, tries, looksValid, order)) ==>
      PartPoints(s.parts[p].part) <= CurPoints(Next(s, Crash(clock, tries, looksValid, order)))
    ensures Lasts(s, p)
  {
    hide CurParts, IsNewest, Enabled, Next, CurPoints, PartPoints;
  }

  // ---------- flushing ----------

  /** A part counts rows exactly when it holds points. */
  lemma {:induction false} CountsItsPoints(part: Part)
    requires WFPart(part)
    ensures part.meta.totalCount >= 1 <==> PartPoints(part) != {}
  {
    hide Flat, WFIndex, Ordered, ExactRange;
    var bs := Flat(part.primaries);
    if bs != [] {
      assert bs[0] in bs && ExactBlock(bs[0]);
      assert bs[0].rows[0] in bs[0].rows;
      assert bs[0].rows[0] in BlockPoints(bs);
    }
  }

  /** The flusher can begin to flush a part of its snapshot, one after another, exactly when the part holds points. */
  lemma FlushCanBegin(s: State, q: PartRef)
    requires Reachable(s) && s.flusher.Holding? && s.flusher.whole && q in s.flusher.todo
    requires s.flusher.work.Nothing? ||
      (s.flusher.work.FlushingParts? && s.flusher.work.writing.None? && q !in s.flusher.work.inputs)
    ensures q in s.parts && (Enabled(s, FlushBegin(q)) <==> PartPoints(s.parts[q].part) != {})
  {
    hide Inv, WFPart, PartPoints;
    ReachableInv(s);
    FlushFresh(s, q);
    WrapperWF(s, q);
    CountsItsPoints(s.parts[q].part);
  }

  lemma WrapperWF(s: State, q: PartRef)
    requires Inv(s) && q in s.parts
    ensures WFPart(s.parts[q].part)
  {
    hide Counted, IdsUnique, DirsMatch, DirsWF, LoopOK, IntroOK, MemDirs, Removal, Epochs, Durable, View, WFPart, PartPoints;
  }

  /** The flusher holds its snapshot, has merged nothing, and is not in the middle of a part. */
  ghost predicate MayFlush(l: Loop) {
    l.Holding? && l.whole && (l.work.Nothing? || (l.work.FlushingParts? && l.work.writing.None?))
  }

  /** The memory parts `qs`, none flushed yet, with points, and names `ps` for the file parts to come. */
  ghost predicate ToFlush(s: State, qs: seq<PartRef>, ps: seq<PartRef>) {
    && |ps| == |qs| && NoDup(qs) && NoDup(ps) && s.flusher.Holding?
    && (forall q :: q in qs ==> q in s.flusher.todo && q !in FlushSoFar(s.flusher).inputs)
    && (forall q :: q in qs ==> q in s.parts && PartPoints(s.parts[q].part) != {})
    && (forall p :: p in ps ==> p !in s.parts)
  }

  /** One part after another. */
  function FlushSteps(qs: seq<PartRef>, ps: seq<PartRef>): seq<Step>
    requires |qs| == |ps|
  {
    if qs == [] then []
    else
      var n := |qs| - 1;
      FlushSteps(qs[..n], ps[..n]) + [FlushBegin(qs[n]), FlushEnd(ps[n])]
  }

  /** The parts have been flushed under their IDs, and nothing else has changed that an introduction needs. */
  ghost predicate Flushed(s: State, qs: seq<PartRef>, ps: seq<PartRef>, t: State)
    requires |ps| == |qs|
  {
    && t.parts.Keys == s.parts.Keys + SetOf(ps) && (forall p :: p in s.parts ==> t.parts[p] == s.parts[p])
    && (forall i :: 0 <= i < |qs| ==>
          qs[i] in s.parts && t.parts[ps[i]] == Wrapper(s.parts[qs[i]].id, false, s.parts[qs[i]].part))
    && t.snaps == s.snaps && t.intro == s.intro && t.cur == s.cur
    && MayFlush(t.flusher) && s.flusher.Holding? && t.flusher.todo == s.flusher.todo
    && (qs != [] ==> t.flusher.work.FlushingParts?)
    && FlushSoFar(t.flusher).inputs == FlushSoFar(s.flusher).inputs + SetOf(qs)
    && FlushSoFar(t.flusher).outs == FlushSoFar(s.flusher).outs + ps
  }

  lemma FlushNothing(s: State)
    requires MayFlush(s.flusher)
    ensures Flushed(s, [], [], s)
  {
    assert FlushSoFar(s.flusher).outs + [] == FlushSoFar(s.flusher).outs;
  }

  lemma FlushOne(s: State, q: PartRef, p: PartRef) returns (t: State)
    requires Reachable(s) && MayFlush(s.flusher) && Enabled(s, FlushBegin(q)) && p !in s.parts
    ensures Run(s, [FlushBegin(q), FlushEnd(p)], t) && Reachable(t) && Flushed(s, [q], [p], t)
  {
    hide Reachable, Run, WFPart, PartPoints;
    var s1 := Next(s, FlushBegin(q));
    t := Next(s1, FlushEnd(p));
    ReachableStep(s, FlushBegin(q));
    RunStep(s, [FlushBegin(q)], s1, FlushEnd(p));
    assert [FlushBegin(q)] + [FlushEnd(p)] == [FlushBegin(q), FlushEnd(p)];
    SetOfOne(q);
    SetOfOne(p);
  }

  lemma {:induction false} FlushEach(s: State, qs: seq<PartRef>, ps: seq<PartRef>) returns (t: State)
    requires Reachable(s) && MayFlush(s.flusher) && ToFlush(s, qs, ps)
    ensures Run(s, FlushSteps(qs, ps), t) && Reachable(t) && Flushed(s, qs, ps, t)
    decreases |qs|
  {
    hide *;
    SizesAgree(s, qs, ps);
    if qs == [] {
      t := s;
      NoSteps(s, qs, ps);
      FlushNothing(s);
    } else {
      var n := |qs| - 1;
      ButLast(s, qs, ps);
      var u := FlushEach(s, qs[..n], ps[..n]);
      LastToFlush(s, qs, ps, u);
      FlushCanBegin(u, qs[n]);
      FlushedMay(s, qs[..n], ps[..n], u);
      t := FlushOne(u, qs[n], ps[n]);
      RunConcat(s, FlushSteps(qs[..n], ps[..n]), u, [FlushBegin(qs[n]), FlushEnd(ps[n])], t);
      NoSteps(s, qs, ps);
      FlushedMore(s, qs, ps, u, t);
    }
  }

  lemma SizesAgree(s: State, qs: seq<PartRef>, ps: seq<PartRef>)
    requires ToFlush(s, qs, ps)
    ensures |ps| == |qs|
  {
  }

  lemma {:induction false} NoSteps(s: State, qs: seq<PartRef>, ps: seq<PartRef>)
    requires |qs| == |ps|
    ensures qs == [] ==> ps == [] && FlushSteps(qs, ps) == [] && Run(s, [], s)
    ensures qs != [] ==>
      var n := |qs| - 1; FlushSteps(qs, ps) == FlushSteps(qs[..n], ps[..n]) + [FlushBegin(qs[n]), FlushEnd(ps[n])]
  {
  }

  lemma ButLast(s: State, qs: seq<PartRef>, ps: seq<PartRef>)
    requires ToFlush(s, qs, ps) && qs != []
    ensures ToFlush(s, qs[..|qs| - 1], ps[..|ps| - 1])
  {
    hide PartPoints, FlushSoFar;
  }

  lemma FlushedMay(s: State, qs: seq<PartRef>, ps: seq<PartRef>, u: State)
    requires |ps| == |qs| && Flushed(s, qs, ps, u)
    ensures MayFlush(u.flusher)
  {
  }

  /** The last part is still to be flushed. */
  lemma LastToFlush(s: State, qs: seq<PartRef>, ps: seq<PartRef>, u: State)
    requires ToFlush(s, qs, ps) && qs != [] && Flushed(s, qs[..|qs| - 1], ps[..|ps| - 1], u)
    ensures var q, p := qs[|qs| - 1], ps[|ps| - 1];
      && u.flusher.Holding? && u.flusher.whole && q in u.flusher.todo && p !in u.parts
      && (u.flusher.work.Nothing? ||
          (u.flusher.work.FlushingParts? && u.flusher.work.writing.None? && q !in u.flusher.work.inputs))
      && q in u.parts && q in s.parts && PartPoints(u.parts[q].part) != {}
  {
    hide PartPoints;
    var n := |qs| - 1;
    assert qs[n] in qs && ps[n] in ps && qs[n] !in SetOf(qs[..n]) && ps[n] !in SetOf(ps[..n]);
  }

  lemma SnocSet(ps: seq<PartRef>)
    requires ps != []
    ensures var n := |ps| - 1; ps == ps[..n] + [ps[n]] && SetOf(ps) == SetOf(ps[..n]) + SetOf([ps[n]])
  {
    var n := |ps| - 1;
    assert ps == ps[..n] + [ps[n]];
  }

  lemma FlushedMore(s: State, qs: seq<PartRef>, ps: seq<PartRef>, u: State, t: State)
    requires |ps| == |qs| && qs != [] && Flushed(s, qs[..|qs| - 1], ps[..|ps| - 1], u)
    requires Flushed(u, [qs[|qs| - 1]], [ps[|ps| - 1]], t) && qs[|qs| - 1] in s.parts
    ensures Flushed(s, qs, ps, t)
  {
    hide FlushSoFar, MayFlush, SetOf;
    var n := |qs| - 1;
    SoFarIs(s.flusher);
    SoFarIs(u.flusher);
    SoFarIs(t.flusher);
    InSet(ps, ps[n]);
    InSet([ps[n]], ps[n]);
    SnocSet(qs);
    SnocSet(ps);
    assert FlushSoFar(s.flusher).outs + ps[..n] + [ps[n]] == FlushSoFar(s.flusher).outs + ps;
    forall i | 0 <= i < n
      ensures qs[i] in s.parts && ps[i] in t.parts
      ensures t.parts[ps[i]] == Wrapper(s.parts[qs[i]].id, false, s.parts[qs[i]].part)
    {
      assert qs[..n][i] == qs[i] && ps[..n][i] == ps[i];
      InSet(ps[..n], ps[i]);
    }
  }

  lemma SameCur(s: State, t: State)
    requires t.snaps == s.snaps && t.cur == s.cur
    ensures CurParts(t) == CurParts(s)
  {
  }

  lemma FlushIsSent(s: State, qs: seq<PartRef>, ps: seq<PartRef>, u: State) returns (t: State, c: Change)
    requires |ps| == |qs| && qs != [] && Flushed(s, qs, ps, u) && WorkOf(s.flusher).Nothing? && Reachable(u)
    ensures Run(u, [FlushSend], t) && Reachable(t) && SentBy(t, c) && c.kind == Flush && c.inputs == SetOf(qs) && c.outs == ps
    ensures t.parts == u.parts && t.snaps == s.snaps && t.intro == s.intro && CurParts(t) == CurParts(s)
  {
    hide Reachable, Run, CurParts;
    assert qs[0] in SetOf(qs);
    t := Next(u, FlushSend);
    ReachableStep(u, FlushSend);
    SameCur(s, t);
    c := t.flusher.work.change;
  }

  /**
    A flusher that holds a snapshot can flush the memory parts of it that hold points, all of them or any: once
    the introducer is free, file parts of the same IDs and content take their place, and last.
   */
  lemma FlushMakesDurable(s: State, qs: seq<PartRef>, ps: seq<PartRef>, h: SnapRef) returns (t: State, c: Change)
    requires Reachable(s) && s.flusher.Holding? && s.flusher.whole && s.flusher.work.Nothing? && s.intro.Idle?
    requires |ps| == |qs| && qs != [] && NoDup(qs) && NoDup(ps) && h !in s.snaps
    requires forall q :: q in qs ==> q in s.flusher.todo && q in s.parts && PartPoints(s.parts[q].part) != {}
    requires forall p :: p in ps ==> p !in s.parts
    ensures Run(s, FlushSteps(qs, ps) + [FlushSend, Build(h, c), Replace], t)
    ensures CurParts(t) == CurParts(s) - SetOf(qs) + SetOf(ps)
    ensures forall i :: 0 <= i < |qs| ==>
      && ps[i] in t.parts && t.parts[ps[i]] == Wrapper(s.parts[qs[i]].id, false, s.parts[qs[i]].part) && Lasts(t, ps[i])
  {
    hide *;
    IsToFlush(s, qs, ps);
    var u := FlushEach(s, qs, ps);
    var v;
    NoWorkYet(s);
    v, c := FlushIsSent(s, qs, ps, u);
    t := SentIsIntroduced(v, h, c);
    RunConcat(u, [FlushSend], v, [Build(h, c), Replace], t);
    assert [FlushSend] + [Build(h, c), Replace] == [FlushSend, Build(h, c), Replace];
    RunConcat(s, FlushSteps(qs, ps), u, [FlushSend, Build(h, c), Replace], t);
    IntroducedMeans(v, c, t);
    forall i | 0 <= i < |qs| ensures
      && ps[i] in t.parts && t.parts[ps[i]] == Wrapper(s.parts[qs[i]].id, false, s.parts[qs[i]].part) && Lasts(t, ps[i])
    {
      FlushedAt(s, qs, ps, u, i);
      FilesLast(t, ps[i]);
    }
  }

  lemma NoWorkYet(s: State)
    requires s.flusher.Holding? && s.flusher.work.Nothing?
    ensures WorkOf(s.flusher).Nothing?
  {
  }

  lemma IsToFlush(s: State, qs: seq<PartRef>, ps: seq<PartRef>)
    requires s.flusher.Holding? && s.flusher.whole && s.flusher.work.Nothing?
    requires |ps| == |qs| && NoDup(qs) && NoDup(ps) && forall p :: p in ps ==> p !in s.parts
    requires forall q :: q in qs ==> q in s.flusher.todo && q in s.parts && PartPoints(s.parts[q].part) != {}
    ensures MayFlush(s.flusher) && ToFlush(s, qs, ps)
  {
    hide PartPoints;
  }

  lemma FlushedAt(s: State, qs: seq<PartRef>, ps: seq<PartRef>, u: State, i: nat)
    requires |ps| == |qs| && Flushed(s, qs, ps, u) && i < |qs|
    ensures ps[i] in SetOf(ps) && qs[i] in s.parts && ps[i] in u.parts
    ensures u.parts[ps[i]] == Wrapper(s.parts[qs[i]].id, false, s.parts[qs[i]].part)
  {
  }

  lemma IntroducedMeans(s: State, c: Change, t: State)
    requires Introduced(s, c, t)
    ensures CurParts(t) == CurParts(s) - c.inputs + SetOf(c.outs) && t.parts == s.parts
  {
    hide CurParts, SetOf, Persists, Listing, PointsOf, OfKind;
  }

  // ---------- merging and handing off ----------

  lemma MergeSteps(s: State, who: Who, inputs: set<PartRef>, p: PartRef, part: Part) returns (t: State)
    requires Reachable(s) && LoopOf(s, who).Holding? && LoopOf(s, who).work.Nothing? && (who.Merger? ==> !s.liaison)
    requires inputs <= LoopOf(s, who).todo && |inputs| >= 2 && p !in s.parts
    requires WFPart(part) && Refines(PartPoints(part), PointsOf(s.parts, inputs))
    ensures Run(s, [MergeBegin(who, inputs), MergeDone(who, p, part)], t) && Reachable(t)
    ensures SentBy(t, Change(Merge(who), inputs, [p], map[]))
    ensures t.parts == s.parts[p := Wrapper(s.curPartID + 1, false, part)]
    ensures t.snaps == s.snaps && t.intro == s.intro && CurParts(t) == CurParts(s)
  {
    hide Reachable, CurParts, Run, Inv, WFPart, PartPoints, PointsOf, Refines;
    var s1 := Next(s, MergeBegin(who, inputs));
    t := Next(s1, MergeDone(who, p, part));
    ReachableStep(s, MergeBegin(who, inputs));
    RunStep(s, [MergeBegin(who, inputs)], s1, MergeDone(who, p, part));
    assert [MergeBegin(who, inputs)] + [MergeDone(who, p, part)] == [MergeBegin(who, inputs), MergeDone(who, p, part)];
    SameCur(s, t);
  }

  /**
    A loop that holds a snapshot can merge any two or more parts of it that it has not merged yet; once the
    introducer is free, the part it makes takes their place and lasts.
   */
  lemma MergeMakesDurable(s: State, who: Who, inputs: set<PartRef>, p: PartRef, part: Part, h: SnapRef) returns (t: State)
    requires Reachable(s) && LoopOf(s, who).Holding? && LoopOf(s, who).work.Nothing? && (who.Merger? ==> !s.liaison)
    requires inputs <= LoopOf(s, who).todo && |inputs| >= 2 && s.intro.Idle? && p !in s.parts && h !in s.snaps
    requires WFPart(part) && Refines(PartPoints(part), PointsOf(s.parts, inputs))
    ensures Run(s, [MergeBegin(who, inputs), MergeDone(who, p, part), Build(h, Change(Merge(who), inputs, [p], map[])),
                    Replace], t)
    ensures CurParts(t) == CurParts(s) - inputs + {p}
    ensures p in t.parts && t.parts[p] == Wrapper(s.curPartID + 1, false, part) && Lasts(t, p)
  {
    hide *;
    var u := MergeSteps(s, who, inputs, p, part);
    var c := Change(Merge(who), inputs, [p], map[]);
    t := SentIsIntroduced(u, h, c);
    var a, b := [MergeBegin(who, inputs), MergeDone(who, p, part)], [Build(h, c), Replace];
    RunConcat(s, a, u, b, t);
    assert a + b == [MergeBegin(who, inputs), MergeDone(who, p, part), Build(h, c), Replace];
    IntroducedMeans(u, c, t);
    SetOfOne(p);
    FilesLast(t, p);
  }

  lemma SetOfOne(p: PartRef)
    ensures SetOf([p]) == {p}
  {
  }

  lemma SyncSteps(s: State, inputs: set<PartRef>) returns (t: State)
    requires Reachable(s) && s.liaison && s.merger.Holding? && s.merger.work.Nothing?
    requires inputs != {} && inputs <= s.merger.todo
    ensures Run(s, [SyncSend(inputs)], t) && Reachable(t) && SentBy(t, Change(Sync, inputs, [], map[]))
    ensures t.parts == s.parts && t.snaps == s.snaps && t.intro == s.intro && t.cur == s.cur && t.handedOff == s.handedOff
  {
    hide Reachable, Run;
    t := Next(s, SyncSend(inputs));
    ReachableStep(s, SyncSend(inputs));
  }

  /** On a liaison, parts that have been handed off leave the snapshot, and nothing else does. */
  lemma SyncHandsOff(s: State, inputs: set<PartRef>, h: SnapRef) returns (t: State)
    requires Reachable(s) && s.liaison && s.merger.Holding? && s.merger.work.Nothing?
    requires inputs != {} && inputs <= s.merger.todo && s.intro.Idle? && h !in s.snaps
    ensures Run(s, [SyncSend(inputs), Build(h, Change(Sync, inputs, [], map[])), Replace], t)
    ensures CurParts(t) == CurParts(s) - inputs && t.handedOff == s.handedOff + PointsOf(s.parts, inputs)
  {
    hide *;
    var u := SyncSteps(s, inputs);
    var c := Change(Sync, inputs, [], map[]);
    t := SentIsIntroduced(u, h, c);
    RunConcat(s, [SyncSend(inputs)], u, [Build(h, c), Replace], t);
    assert [SyncSend(inputs)] + [Build(h, c), Replace] == [SyncSend(inputs), Build(h, c), Replace];
    SameCur(s, u);
    HandedOff(u, c, t);
  }

  lemma HandedOff(s: State, c: Change, t: State)
    requires Introduced(s, c, t) && c.kind.Sync? && c.outs == []
    ensures CurParts(t) == CurParts(s) - c.inputs && t.handedOff == s.handedOff + PointsOf(s.parts, c.inputs)
  {
    hide CurParts, Persists, Listing, PointsOf, OfKind;
    assert SetOf(c.outs) == {};
  }

  /** A merge that fails gives up its snapshot's parts, and its directory is left unfinished. */
  lemma MergeGivesUp(s: State, who: Who)
    requires WorkOf(LoopOf(s, who)).Merging?
    ensures var l, t := LoopOf(s, who), Next(s, MergeFail(who));
      && Enabled(s, MergeFail(who)) && LoopOf(t, who) == Holding(l.snap, {}, false, Nothing) && Enabled(t, LoopRelease(who))
      && CurParts(t) == CurParts(s) && t.parts == s.parts && l.work.id in t.dirs && t.dirs[l.work.id].Writing?
  {
    hide CurParts;
    SameCur(s, Next(s, MergeFail(who)));
  }

  /** A directory whose receipt is aborted, or whose removal completes, is gone, and no other is. */
  lemma DirectoryGoes(s: State, id: nat, step: Step)
    requires step == ReceiveAbort(id) || step == Removed(id)
    requires id in s.dirs && if step.Removed? then s.dirs[id].Deleting? else s.dirs[id] == Writing(Receiving)
    ensures Enabled(s, step) && Next(s, step).dirs.Keys == s.dirs.Keys - {id}
    ensures forall d :: d in s.dirs && d != id ==> Next(s, step).dirs[d] == s.dirs[d]
  {
  }

  // ---------- writing and receiving ----------

  /** A write becomes visible with its introduction, which is not persisted: readers see exactly its points besides. */
  lemma WriteBecomesVisible(s: State, p: PartRef, part: Part, h: SnapRef) returns (t: State)
    requires Reachable(s) && s.intro.Idle? && p !in s.parts && WFPart(part) && h !in s.snaps
    ensures Run(s, [PrepareMem(p, part), Build(h, WriteChange(p)), Replace], t)
    ensures CurParts(t) == CurParts(s) + {p} && p in t.parts && t.parts[p] == Wrapper(s.curPartID + 1, true, part)
    ensures CurPoints(t) == CurPoints(s) + PartPoints(part) && t.introduced == s.introduced + PartPoints(part)
    ensures t.snps == s.snps
  {
    hide *;
    PrepareEnabled(s, p, part);
    var u := Next(s, PrepareMem(p, part));
    ReachableStep(s, PrepareMem(p, part));
    PreparedIs(s, p, part);
    t := SentIsIntroduced(u, h, WriteChange(p));
    RunConcat(s, [PrepareMem(p, part)], u, [Build(h, WriteChange(p)), Replace], t);
    assert [PrepareMem(p, part)] + [Build(h, WriteChange(p)), Replace]
        == [PrepareMem(p, part), Build(h, WriteChange(p)), Replace];
    WriteIntroduced(u, p, t);
    ReachableInv(s);
    Unpack(s);
    CurOpen(s);
    PointsAdded(s, t, p, part);
  }

  lemma PrepareEnabled(s: State, p: PartRef, part: Part)
    requires p !in s.parts && WFPart(part)
    ensures Enabled(s, PrepareMem(p, part))
  {
    hide WFPart;
  }

  lemma PreparedIs(s: State, p: PartRef, part: Part)
    ensures var u := Next(s, PrepareMem(p, part));
      && u.parts == s.parts[p := Wrapper(s.curPartID + 1, true, part)] && u.snaps == s.snaps && u.intro == s.intro
      && CurParts(u) == CurParts(s) && u.introduced == s.introduced && SentBy(u, WriteChange(p)) && u.snps == s.snps
  {
    hide PartPoints;
  }

  lemma WriteIntroduced(u: State, p: PartRef, t: State)
    requires Introduced(u, WriteChange(p), t) && p in u.parts
    ensures CurParts(t) == CurParts(u) + {p} && t.parts == u.parts && t.dirs == u.dirs
    ensures t.introduced == u.introduced + PartPoints(u.parts[p].part)
    ensures !u.parts[p].mem ==> t.gc.live == u.epoch && t.snps == u.snps[u.epoch := Listing(u.parts, CurSeq(t))]
    ensures u.parts[p].mem ==> t.snps == u.snps
    ensures t.epoch == u.epoch + 1 && t.intro == AfterIntro(u.cur)
  {
    hide CurParts, Listing, PartPoints;
    SetOfOne(p);
    PointsOfOne(u.parts, p);
  }

  lemma PointsAdded(s: State, t: State, p: PartRef, part: Part)
    requires CurParts(t) == CurParts(s) + {p} && t.parts == s.parts[p := Wrapper(s.curPartID + 1, true, part)]
    requires p !in s.parts && CurParts(s) <= s.parts.Keys
    ensures CurPoints(t) == CurPoints(s) + PartPoints(part)
  {
    hide CurParts, PartPoints;
    assert forall q :: q in CurParts(s) ==> q in s.parts && t.parts[q] == s.parts[q];
    PointsUnion(t.parts, CurParts(s), {p});
    PointsOfOne(t.parts, p);
    assert PointsOf(t.parts, CurParts(s)) == PointsOf(s.parts, CurParts(s));
  }

  lemma ReceiveSteps(s: State, p: PartRef, part: Part) returns (t: State)
    requires Reachable(s) && p !in s.parts && WFPart(part)
    ensures Run(s, [ReceiveBegin, ReceiveFinish(s.curPartID + 1, p, part)], t) && Reachable(t) && SentBy(t, WriteChange(p))
    ensures t.parts == s.parts[p := Wrapper(s.curPartID + 1, false, part)] && t.snaps == s.snaps && t.intro == s.intro
    ensures t.cur == s.cur && t.epoch == s.epoch && t.snps == s.snps && t.gc == s.gc
  {
    hide Reachable, Run, WFPart, PartPoints;
    var s1 := Next(s, ReceiveBegin);
    t := Next(s1, ReceiveFinish(s.curPartID + 1, p, part));
    ReachableStep(s, ReceiveBegin);
    RunStep(s, [ReceiveBegin], s1, ReceiveFinish(s.curPartID + 1, p, part));
    assert [ReceiveBegin] + [ReceiveFinish(s.curPartID + 1, p, part)]
        == [ReceiveBegin, ReceiveFinish(s.curPartID + 1, p, part)];
  }

  /** A part that a table receives is persisted with its introduction. */
  lemma ReceivedLasts(s: State, p: PartRef, part: Part, h: SnapRef) returns (t: State)
    requires Reachable(s) && s.intro.Idle? && p !in s.parts && WFPart(part) && h !in s.snaps
    ensures Run(s, [ReceiveBegin, ReceiveFinish(s.curPartID + 1, p, part), Build(h, WriteChange(p)), Replace], t)
    ensures Reachable(t) && CurParts(t) == CurParts(s) + {p}
    ensures p in t.parts && t.parts[p] == Wrapper(s.curPartID + 1, false, part) && Lasts(t, p)
    ensures t.snps.Keys == s.snps.Keys + {s.epoch} && t.gc.live == s.epoch && t.epoch == s.epoch + 1
    ensures t.parts.Keys == s.parts.Keys + {p} && t.snaps.Keys == s.snaps.Keys + {h} && t.intro == AfterIntro(s.cur)
  {
    hide *;
    var u := ReceiveSteps(s, p, part);
    t := SentIsIntroduced(u, h, WriteChange(p));
    var a, b := [ReceiveBegin, ReceiveFinish(s.curPartID + 1, p, part)], [Build(h, WriteChange(p)), Replace];
    RunConcat(s, a, u, b, t);
    assert a + b == [ReceiveBegin, ReceiveFinish(s.curPartID + 1, p, part), Build(h, WriteChange(p)), Replace];
    SameCur(s, u);
    WriteIntroduced(u, p, t);
    FilesLast(t, p);
  }

  // ---------- a file that no cleaning deletes ----------

  /** A restart can happen in any state: the directories can be listed in some order. */
  lemma CrashEnabledSometime(s: State, clock: nat, looksValid: set<nat>) returns (order: seq<nat>)
    requires s.epoch <= clock
    ensures Enabled(s, Crash(clock, [], looksValid, order))
  {
    hide Opened;
    order := Enumerated(Opened(s, looksValid));
  }

  lemma {:induction false} Enumerated(ids: set<nat>) returns (order: seq<nat>)
    ensures NoDup(order) && SetOf(order) == ids
  {
    if ids == {} {
      order := [];
    } else {
      var d :| d in ids;
      var rest := Enumerated(ids - {d});
      assert forall x :: x in rest <==> x in SetOf(rest);
      order := [d] + rest;
    }
  }

  /** The restart finds the directories that are there. */
  lemma SomethingToLoad(s: State, p: PartRef, looksValid: set<nat>)
    requires Lasts(s, p)
    ensures !NothingToLoad(s, looksValid)
  {
    hide Enabled, Next, CurPoints, PartPoints, CurParts, IsNewest;
    assert s.parts[p].id in ValidDirs(s.dirs, looksValid);
  }

  /**
    Two parts are received, and the table restarts before it cleans: the first snapshot file is left, and no
    cleaning ever deletes it.
   */
  lemma FileIsLeft(part: Part) returns (s: State)
    requires WFPart(part)
    ensures Reachable(s) && 1 in Stray(s) && s.gc.live == 2
    ensures forall steps, t :: Run(s, steps, t) && NoCrash(steps) ==> 1 in t.snps
  {
    hide *;
    var s0 := Initial(false, 0);
    EmptyTable(s0);
    var s1 := ReceivedLasts(s0, 0, part, 0);
    NoneBefore(s0);
    var s2 := ReceivedLasts(s1, 1, part, 1);
    var order := CrashEnabledSometime(s2, s2.epoch, {});
    var crash := Crash(s2.epoch, [], {}, order);
    s := Next(s2, crash);
    ReachableStep(s2, crash);
    SomethingToLoad(s2, 1, {});
    RestartLeaves(s2, s2.epoch, [], {}, order);
    NoAttempts(s2);
    OnlyNewest(s, s2);
    forall steps, t | Run(s, steps, t) && NoCrash(steps) ensures 1 in t.snps {
      StrayStays(s, steps, t);
    }
  }

  lemma EmptyTable(s: State)
    requires s == Initial(false, 0)
    ensures Reachable(s) && s.parts == map[] && s.snaps == map[] && s.intro.Idle? && s.cur.None? && s.epoch == 1
    ensures s.snps == map[]
  {
    assert Run(Initial(false, 0), [], s);
  }

  lemma NoneBefore(s: State)
    requires s.cur.None?
    ensures AfterIntro(s.cur).Idle?
  {
  }

  lemma {:induction false} NoAttempts(s: State)
    ensures AfterAll(s, []) == s
  {
  }

  lemma OnlyNewest(s: State, s2: State)
    requires s.snps == s2.snps && s2.snps.Keys == {1, 2} && IsNewest(s.gc.live, s.snps)
    requires Stray(s) == s2.snps.Keys - {s.gc.live}
    ensures s.gc.live == 2 && 1 in Stray(s)
  {
    assert 2 in s.snps && 1 in s2.snps.Keys;
  }
}
