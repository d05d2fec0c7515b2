/** Building the next snapshot keeps the invariant. */
module TableBuild {
  import Collections
  import opened Points
  import opened Parts
  import opened Table
  import opened TableSteps
  import opened TableRefs
  import opened TableInv
  import opened TableFrames
  import opened TableWork
  import opened TableNext

  // ---------- what a change that has been sent satisfies ----------

  lemma OnceEach<T>(s: seq<T>)
    requires forall x :: multiset(s)[x] <= 1
    ensures NoDup(s)
  {
    forall i, j | 0 <= i < j < |s| ensures s[i] != s[j] {
      if s[i] == s[j] {
        Collections.Twice(s, i, j);
      }
    }
  }

  ghost predicate Ready(s: State, c: Change) {
    && ChangeOK(s.parts, c) && c.inputs <= CurParts(s) && SetOf(c.outs) !! CurParts(s) && NoDup(c.outs)
    && multiset(c.outs) <= Extra(s)
  }

  lemma SentIsReady(s: State, c: Change)
    requires Inv(s) && SentBy(s, c)
    ensures Ready(s, c)
  {
    hide Counted, Disk, ChangeOK, IntroOK, MemDirs, Removal, Epochs, Durable, View;
    CurOpen(s);
    SentOuts(s, c);
    if Sender(c).None? {
      WriteIsOK(s, c);
    } else {
      EitherLoop(s, Sender(c).value);
      assert OfKind(s.parts, CurParts(s), Sender(c).value.Flusher?) <= CurParts(s);
    }
    OutsOnce(s, c);
  }

  lemma SentOuts(s: State, c: Change)
    requires SentBy(s, c)
    ensures multiset(c.outs) <= Extra(s)
  {
    match Sender(c)
    case None =>
      var p :| p in s.pending && c == WriteChange(p);
      assert multiset(c.outs) == multiset{p} <= multiset(s.pending);
    case Some(who) =>
      assert Outs(LoopOf(s, who)) == c.outs;
  }

  lemma WriteIsOK(s: State, c: Change)
    requires Disk(s.parts, s.refs, s.dirs, s.curPartID, s.offered)
    requires SentBy(s, c) && Sender(c).None? && (forall p :: p in Extra(s) ==> p in s.refs)
    ensures ChangeOK(s.parts, c) && c.inputs == {}
  {
    hide IdsUnique, DirsMatch, DirsWF, Outs, WFPart, PartPoints;
    var p :| p in s.pending && c == WriteChange(p);
    ExtraOuts(s, p);
  }

  lemma OutsOnce(s: State, c: Change)
    requires multiset(c.outs) <= Extra(s) && (forall p :: p in Extra(s) ==> p !in CurParts(s) && Extra(s)[p] == 1)
    ensures SetOf(c.outs) !! CurParts(s) && NoDup(c.outs)
  {
    hide Extra, CurParts;
    OutsAreExtra(Extra(s), c.outs);
    forall x ensures multiset(c.outs)[x] <= 1 {
      if x in multiset(c.outs) { assert x in Extra(s); }
    }
    OnceEach(c.outs);
  }

  // ---------- building ----------

  lemma BuildCounts(s: State, h: SnapRef, c: Change)
    requires Counted(s.snaps, s.srefs, s.refs, Tokens(s), Extra(s))
    requires Disk(s.parts, s.refs, s.dirs, s.curPartID, s.offered)
    requires h !in s.snaps && Ready(s, c) && DistinctIds(s.parts, CurParts(s))
    ensures Counted(s.snaps[h := Snap(NextSeq(s.parts, CurSeq(s), c), s.epoch)], HoldCur(s.srefs, s.cur)[h := 1],
                    Addref(s.refs, Kept(s.parts, CurSeq(s), c)), Tokens(s) + Opt(s.cur) + multiset{h},
                    Extra(s) - multiset(c.outs))
  {
    hide Counted, Disk, ChangeOK, NextSeq, Kept, TokensOf, ExtraOf, DistinctIds;
    CurOpen(s);
    NextIs(s.parts, CurSeq(s), c);
    if s.cur.Some? {
      AddToken(s.snaps, s.srefs, s.refs, Tokens(s), Extra(s), s.cur.value);
    } else {
      assert Tokens(s) + Opt(s.cur) == Tokens(s);
    }
    var next, kept := NextSeq(s.parts, CurSeq(s), c), Kept(s.parts, CurSeq(s), c);
    KeptOrOut(next, kept, c.outs, CurParts(s), c.inputs);
    OpenSnap(s.snaps, HoldCur(s.srefs, s.cur), s.refs, Tokens(s) + Opt(s.cur), Extra(s), h, Snap(next, s.epoch), kept, c.outs);
  }

  lemma KeptOrOut(next: seq<PartRef>, kept: seq<PartRef>, outs: seq<PartRef>, cur: set<PartRef>, inputs: set<PartRef>)
    requires SetOf(next) == cur - inputs + SetOf(outs) && SetOf(kept) == cur - inputs
    ensures forall p :: p in next <==> p in kept || p in outs
    ensures forall p :: p in kept ==> p in cur
  {
    forall p ensures p in next <==> p in kept || p in outs {
      assert p in next <==> p in SetOf(next);
      assert p in kept <==> p in SetOf(kept);
      assert p in outs <==> p in SetOf(outs);
    }
    forall p | p in kept ensures p in cur {
      assert p in SetOf(kept);
    }
  }

  lemma TakenTokens(s: State, h: SnapRef, c: Change)
    requires s.intro.Idle? && SentBy(s, c)
    ensures var f, m := Taken(s.flusher, Flusher, c), Taken(s.merger, Merger, c);
      && TokensOf(s.readers, s.cur, Built(h, c), f, m) == Tokens(s) + Opt(s.cur) + multiset{h}
      && ExtraOf(TakenPending(s.pending, c), f, m) == Extra(s) - multiset(c.outs)
  {
    hide ExtraOf, SetOf;
    TakenExtra(s, c);
  }

  lemma TakenExtra(s: State, c: Change)
    requires SentBy(s, c)
    ensures ExtraOf(TakenPending(s.pending, c), Taken(s.flusher, Flusher, c), Taken(s.merger, Merger, c))
         == Extra(s) - multiset(c.outs)
  {
    match Sender(c)
    case None =>
      var p :| p in s.pending && c == WriteChange(p);
      TakenFromPending(s.pending, p, s.flusher, s.merger);
    case Some(who) =>
      hide ExtraOf, SetOf;
      TakenFromLoop(s.pending, s.flusher, s.merger, who, c);
  }

  lemma TakenFromPending(pending: set<PartRef>, p: PartRef, flusher: Loop, merger: Loop)
    requires p in pending
    ensures ExtraOf(pending - SetOf([p]), flusher, merger) == ExtraOf(pending, flusher, merger) - multiset([p])
  {
    hide Outs;
    assert SetOf([p]) == {p};
    assert multiset(pending - {p}) == multiset(pending) - multiset{p};
  }

  lemma TakenFromLoop(pending: set<PartRef>, flusher: Loop, merger: Loop, who: Who, c: Change)
    requires WorkOf(if who.Flusher? then flusher else merger) == Sent(c) && Sender(c) == Some(who)
    ensures ExtraOf(pending, Taken(flusher, Flusher, c), Taken(merger, Merger, c))
         == ExtraOf(pending, flusher, merger) - multiset(c.outs)
  {
    assert Outs(Taken(flusher, Flusher, c)) == if who.Flusher? then [] else Outs(flusher);
    assert Outs(Taken(merger, Merger, c)) == if who.Merger? then [] else Outs(merger);
  }

  lemma TakenLoop(
    parts: map<PartRef, Wrapper>, cur: set<PartRef>, dirs: map<nat, Dir>, who: Who, l: Loop, h: SnapRef, c: Change)
    requires LoopOK(parts, cur, dirs, Idle, who, l)
    requires Sender(c) == Some(who) ==> WorkOf(l) == Sent(c)
    ensures LoopOK(parts, cur, dirs, Built(h, c), who, Taken(l, who, c))
    ensures Sender(c) == Some(who) ==> WorkOf(Taken(l, who, c)) == Waiting
  {
    hide Paired, ChangeOK, OfKind;
  }

  lemma BuiltIntro(s: State, h: SnapRef, c: Change)
    requires Ready(s, c) && h !in s.snaps && DistinctIds(s.parts, CurParts(s)) && NoDup(CurSeq(s))
    requires Sender(c) == Some(Flusher) ==> WorkOf(Taken(s.flusher, Flusher, c)) == Waiting
    requires Sender(c) == Some(Merger) ==> WorkOf(Taken(s.merger, Merger, c)) == Waiting
    ensures IntroOK(s.parts, s.snaps[h := Snap(NextSeq(s.parts, CurSeq(s), c), s.epoch)], CurParts(s), s.epoch, Built(h, c),
                    Taken(s.flusher, Flusher, c), Taken(s.merger, Merger, c))
  {
    hide ChangeOK, DistinctIds, NextSeq, Kept, Taken;
    NextIs(s.parts, CurSeq(s), c);
  }

  lemma BuiltMems(s: State, h: SnapRef, c: Change)
    requires MemDirs(s.parts, Mems(s), s.dirs, s.flusher, s.intro) && s.intro.Idle? && SentBy(s, c) && ChangeOK(s.parts, c)
    ensures MemDirs(s.parts, CurParts(s) + TakenPending(s.pending, c) + SetOf(c.outs), s.dirs,
                    Taken(s.flusher, Flusher, c), Built(h, c))
  {
    hide IdsOf, CurParts, PointsOf;
    assert FlushOuts(Taken(s.flusher, Flusher, c), Built(h, c)) == FlushOuts(s.flusher, s.intro);
    if Sender(c).None? {
      assert CurParts(s) + TakenPending(s.pending, c) + SetOf(c.outs) <= Mems(s);
    }
  }

  lemma BuiltRemoval(s: State, h: SnapRef, c: Change)
    requires Removal(s.parts, s.refs, s.removable, CurParts(s), Extra(s), s.intro, Listed(s.snps, s.gc))
    requires s.intro.Idle? && Ready(s, c) && DistinctIds(s.parts, CurParts(s)) && NoDup(CurSeq(s))
    requires forall p :: p in Extra(s) ==> p !in CurParts(s)
    ensures Removal(s.parts, Addref(s.refs, Kept(s.parts, CurSeq(s), c)),
                    s.removable + MarkedBy(s.parts, CurSeq(s), c), CurParts(s), Extra(s) - multiset(c.outs), Built(h, c),
                    Listed(s.snps, s.gc))
  {
    hide DistinctIds, Kept, MarkedBy, Extra, Listed, PointsOf, Paired;
    NextIs(s.parts, CurSeq(s), c);
    OutsAreExtra(Extra(s), c.outs);
  }

  lemma BuiltDisk(s: State, kept: seq<PartRef>)
    requires Disk(s.parts, s.refs, s.dirs, s.curPartID, s.offered)
    ensures Disk(s.parts, Addref(s.refs, kept), s.dirs, s.curPartID, s.offered)
  {
    hide WFPart, PartPoints;
    assert Addref(s.refs, kept).Keys == s.refs.Keys;
  }

  lemma BuildKeeps(s: State, h: SnapRef, c: Change)
    requires Inv(s) && s.intro.Idle? && h !in s.snaps && SentBy(s, c)
    ensures Inv(Builds(s, h, c))
  {
    hide *;
    Unpack(s);
    CurOpen(s);
    SentIsReady(s, c);
    ReadyIsOK(s, c);
    CurIdsDistinct(s);
    BuildCounts(s, h, c);
    TakenTokens(s, h, c);
    BuiltDisk(s, Kept(s.parts, CurSeq(s), c));
    SentWork(s, c);
    TakenLoop(s.parts, CurParts(s), s.dirs, Flusher, s.flusher, h, c);
    TakenLoop(s.parts, CurParts(s), s.dirs, Merger, s.merger, h, c);
    BuiltIntro(s, h, c);
    BuiltMems(s, h, c);
    BuiltRemoval(s, h, c);
    BuildsIs(s, h, c);
    Pack(Builds(s, h, c));
  }

  lemma ReadyIsOK(s: State, c: Change)
    requires Ready(s, c)
    ensures ChangeOK(s.parts, c)
  {
  }

  lemma SentWork(s: State, c: Change)
    requires SentBy(s, c)
    ensures Sender(c) == Some(Flusher) ==> WorkOf(s.flusher) == Sent(c)
    ensures Sender(c) == Some(Merger) ==> WorkOf(s.merger) == Sent(c)
  {
  }

  lemma BuildsIs(s: State, h: SnapRef, c: Change)
    requires (s.cur.Some? ==> s.cur.value in s.snaps) && h !in s.snaps
    ensures var t := Builds(s, h, c);
      && t == s.(refs := Addref(s.refs, Kept(s.parts, CurSeq(s), c)),
                 removable := s.removable + MarkedBy(s.parts, CurSeq(s), c),
                 snaps := s.snaps[h := Snap(NextSeq(s.parts, CurSeq(s), c), s.epoch)],
                 srefs := HoldCur(s.srefs, s.cur)[h := 1],
                 intro := Built(h, c), pending := TakenPending(s.pending, c),
                 flusher := Taken(s.flusher, Flusher, c), merger := Taken(s.merger, Merger, c))
      && CurParts(t) == CurParts(s) && Mems(t) == CurParts(s) + TakenPending(s.pending, c) + SetOf(c.outs)
      && Tokens(t) == TokensOf(s.readers, s.cur, Built(h, c), t.flusher, t.merger)
      && Extra(t) == ExtraOf(t.pending, t.flusher, t.merger)
  {
    hide NextSeq, Kept, MarkedBy, Addref, TokensOf, ExtraOf, HoldCur, Taken, TakenPending, SetOf;
  }
}
