/** Replacing and persisting the snapshot keeps the invariant. */
module TableReplace {
  import opened Points
  import opened Parts
  import opened Table
  import opened TableSteps
  import opened TableRefs
  import opened TableInv
  import opened TableFrames
  import opened TableWork
  import opened TableNext

  /** The parts of the snapshot that has been built. */
  ghost function NextParts(cur: set<PartRef>, c: Change): set<PartRef> {
    cur - c.inputs + SetOf(c.outs)
  }

  // ---------- references ----------

  ghost function AfterIntro(cur: Option<SnapRef>): Intro {
    if cur.Some? then Replaced(cur.value) else Idle
  }

  lemma ReplacedTokens(s: State, next: SnapRef, c: Change)
    requires s.intro == Built(next, c)
    ensures var f, m := Resumed(s.flusher, Flusher, c), Resumed(s.merger, Merger, c);
      && Tokens(s) == TokensOf(s.readers, Some(next), AfterIntro(s.cur), f, m) + Opt(s.cur)
      && (s.cur.Some? ==> s.cur.value in TokensOf(s.readers, Some(next), AfterIntro(s.cur), f, m))
  {
    assert LoopToken(Resumed(s.flusher, Flusher, c)) == LoopToken(s.flusher);
    assert LoopToken(Resumed(s.merger, Merger, c)) == LoopToken(s.merger);
  }

  /** The introducer's own hold keeps the old snapshot open while it is replaced. */
  lemma ReplaceClosesNothing(s: State, next: SnapRef, c: Change)
    requires Counted(s.snaps, s.srefs, s.refs, Tokens(s), Extra(s)) && s.intro == Built(next, c)
    ensures var t := if s.cur.Some? then Drop(s, s.cur.value) else s;
      && t == s.(srefs := t.srefs)
      && Counted(s.snaps, t.srefs, s.refs,
                 TokensOf(s.readers, Some(next), AfterIntro(s.cur), Resumed(s.flusher, Flusher, c), Resumed(s.merger, Merger, c)),
                 Extra(s))
  {
    hide Counted, TokensOf, Resumed, Extra;
    ReplacedTokens(s, next, c);
    var tokens :=
      TokensOf(s.readers, Some(next), AfterIntro(s.cur), Resumed(s.flusher, Flusher, c), Resumed(s.merger, Merger, c));
    if s.cur.Some? {
      NotLast(s.snaps, s.srefs, s.refs, tokens, Extra(s), s.cur.value);
    } else {
      assert Tokens(s) == tokens;
    }
  }

  // ---------- the loops ----------

  lemma ResumedLoop(
    parts: map<PartRef, Wrapper>, cur: set<PartRef>, dirs: map<nat, Dir>, next: SnapRef, c: Change, who: Who, l: Loop,
    intro': Intro)
    requires LoopOK(parts, cur, dirs, Built(next, c), who, l) && !intro'.Built?
    requires Sender(c) == Some(who) ==> WorkOf(l) == Waiting
    requires Sender(c) != Some(who) ==> OfKind(parts, cur, who.Flusher?) !! c.inputs
    ensures LoopOK(parts, NextParts(cur, c), dirs, intro', who, Resumed(l, who, c))
  {
    hide Paired, ChangeOK;
  }

  /** What one loop takes out of the snapshot is of no concern to the other. */
  lemma OtherKind(s: State, next: SnapRef, c: Change, who: Who)
    requires Inv(s) && s.intro == Built(next, c) && Sender(c) != Some(who)
    ensures OfKind(s.parts, CurParts(s), who.Flusher?) !! c.inputs
  {
    hide *;
    Unpack(s);
    BuiltWork(s, next, c);
    if Sender(c).Some? {
      EitherLoop(s, Sender(c).value);
      InputsKind(s, next, c, Sender(c).value);
    } else {
      WriteTakesNothing(s.parts, c);
    }
    KindsDiffer(s.parts, CurParts(s));
  }

  lemma InputsKind(s: State, next: SnapRef, c: Change, who: Who)
    requires s.intro == Built(next, c) && Sender(c) == Some(who) && WorkOf(LoopOf(s, who)) == Waiting
    requires LoopOK(s.parts, CurParts(s), s.dirs, s.intro, who, LoopOf(s, who))
    ensures c.inputs <= OfKind(s.parts, CurParts(s), who.Flusher?)
  {
    hide CurParts, OfKind;
  }

  lemma WriteTakesNothing(parts: map<PartRef, Wrapper>, c: Change)
    requires ChangeOK(parts, c) && Sender(c).None?
    ensures c.inputs == {}
  {
  }

  lemma KindsDiffer(parts: map<PartRef, Wrapper>, ps: set<PartRef>)
    ensures OfKind(parts, ps, true) !! OfKind(parts, ps, false)
  {
  }

  // ---------- directories and IDs ----------

  lemma ReplacedMems(s: State, next: SnapRef, c: Change, intro': Intro)
    requires Inv(s) && s.intro == Built(next, c) && !intro'.Built?
    ensures MemDirs(s.parts, NextParts(CurParts(s), c) + s.pending, s.dirs, Resumed(s.flusher, Flusher, c), intro')
  {
    hide *;
    Unpack(s);
    MemsOpen(s);
    CurOpen(s);
    BuiltWork(s, next, c);
    forall q | q in NextParts(CurParts(s), c) + s.pending && q in s.parts && s.parts[q].mem && s.parts[q].id in s.dirs
      ensures BeingFlushed(s.dirs, Resumed(s.flusher, Flusher, c), s.parts[q].id, q)
           || s.parts[q].id in IdsOf(s.parts, FlushOuts(Resumed(s.flusher, Flusher, c), intro'))
    {
      ReplacedMem(s, next, c, intro', q);
    }
    MemDirsAre(s.parts, NextParts(CurParts(s), c) + s.pending, s.dirs, Resumed(s.flusher, Flusher, c), intro');
  }

  lemma MemDirsAre(parts: map<PartRef, Wrapper>, mems: set<PartRef>, dirs: map<nat, Dir>, flusher: Loop, intro: Intro)
    requires forall q :: q in mems && q in parts && parts[q].mem && parts[q].id in dirs ==>
      BeingFlushed(dirs, flusher, parts[q].id, q) || parts[q].id in IdsOf(parts, FlushOuts(flusher, intro))
    ensures MemDirs(parts, mems, dirs, flusher, intro)
  {
  }

  lemma BuiltWork(s: State, next: SnapRef, c: Change)
    requires IntroOK(s.parts, s.snaps, CurParts(s), s.epoch, s.intro, s.flusher, s.merger) && s.intro == Built(next, c)
    ensures ChangeOK(s.parts, c) && c.inputs <= CurParts(s) && SetOf(c.outs) !! CurParts(s)
    ensures next in s.snaps && s.snaps[next].epoch == s.epoch
    ensures SetOf(SeqOf(s.snaps, next)) == NextParts(CurParts(s), c)
    ensures Sender(c) == Some(Flusher) ==> WorkOf(s.flusher) == Waiting
    ensures Sender(c) == Some(Merger) ==> WorkOf(s.merger) == Waiting
    ensures Sender(c).Some? ==> WorkOf(LoopOf(s, Sender(c).value)) == Waiting
    ensures BuiltOuts(s.intro) == SetOf(c.outs)
  {
    hide ChangeOK;
  }

  lemma ReplacedMem(s: State, next: SnapRef, c: Change, intro': Intro, q: PartRef)
    requires Inv(s) && s.intro == Built(next, c) && !intro'.Built?
    requires q in NextParts(CurParts(s), c) + s.pending && q in s.parts && s.parts[q].mem && s.parts[q].id in s.dirs
    ensures BeingFlushed(s.dirs, Resumed(s.flusher, Flusher, c), s.parts[q].id, q)
         || s.parts[q].id in IdsOf(s.parts, FlushOuts(Resumed(s.flusher, Flusher, c), intro'))
  {
    hide *;
    Unpack(s);
    MemsOpen(s);
    CurOpen(s);
    BuiltWork(s, next, c);
    NextInMems(s, next, c, q);
    MemDirsAt(s.parts, Mems(s), s.dirs, s.flusher, s.intro, q);
    ExtraOuts(s, q);
    NextPartsAre(CurParts(s), c, q);
    FlushOutsAfter(s.dirs, s.flusher, next, c, intro', s.parts[q].id, q);
    if c.kind.Flush? {
      FlushIsPaired(s.parts, c);
      DiskIds(s);
      PairedIds(s.parts, s.refs, s.curPartID, c.inputs, c.outs, c.flushed, q);
      PairedFile(s.parts, c.inputs, c.outs, c.flushed, q);
    }
  }

  lemma NextInMems(s: State, next: SnapRef, c: Change, q: PartRef)
    requires s.intro == Built(next, c) && q in NextParts(CurParts(s), c) + s.pending
    ensures q in Mems(s)
  {
  }

  lemma MemDirsAt(
    parts: map<PartRef, Wrapper>, mems: set<PartRef>, dirs: map<nat, Dir>, flusher: Loop, intro: Intro, q: PartRef)
    requires MemDirs(parts, mems, dirs, flusher, intro) && q in mems && q in parts && parts[q].mem && parts[q].id in dirs
    ensures BeingFlushed(dirs, flusher, parts[q].id, q) || parts[q].id in IdsOf(parts, FlushOuts(flusher, intro))
  {
  }

  lemma NextPartsAre(cur: set<PartRef>, c: Change, q: PartRef)
    ensures q in NextParts(cur, c) <==> (q in cur && q !in c.inputs) || q in c.outs
  {
  }

  lemma FlushIsPaired(parts: map<PartRef, Wrapper>, c: Change)
    requires ChangeOK(parts, c) && c.kind.Flush?
    ensures Paired(parts, c.inputs, c.outs, c.flushed)
  {
  }

  lemma DiskIds(s: State)
    requires Disk(s.parts, s.refs, s.dirs, s.curPartID, s.offered)
    ensures IdsUnique(s.parts, s.refs, s.curPartID) && DirsMatch(s.parts, s.refs, s.dirs)
  {
  }

  lemma FlushOutsAfter(dirs: map<nat, Dir>, flusher: Loop, next: SnapRef, c: Change, intro': Intro, id: nat, q: PartRef)
    requires !intro'.Built? && (Sender(c) == Some(Flusher) ==> WorkOf(flusher) == Waiting)
    ensures c.kind.Flush? ==> FlushOuts(flusher, Built(next, c)) == SetOf(c.outs) && !BeingFlushed(dirs, flusher, id, q)
    ensures !c.kind.Flush? ==> FlushOuts(Resumed(flusher, Flusher, c), intro') == FlushOuts(flusher, Built(next, c))
    ensures BeingFlushed(dirs, flusher, id, q) ==> BeingFlushed(dirs, Resumed(flusher, Flusher, c), id, q)
    ensures c.kind.Flush? ==> Sender(c) == Some(Flusher)
  {
  }

  lemma PairedFile(
    parts: map<PartRef, Wrapper>, inputs: set<PartRef>, outs: seq<PartRef>, flushed: map<nat, PartRef>, q: PartRef)
    requires Paired(parts, inputs, outs, flushed) && q in inputs
    ensures q !in outs
  {
  }

  // ---------- persistence ----------

  lemma {:induction false} ListingIs(parts: map<PartRef, Wrapper>, ps: seq<PartRef>)
    ensures SetOf(Listing(parts, ps)) == IdsOf(parts, SetOf(ps))
  {
    if ps == [] {
      assert SetOf(Listing(parts, ps)) == {};
    } else {
      ListingIs(parts, ps[1..]);
      var rest := Listing(parts, ps[1..]);
      assert SetOf(Listing(parts, ps)) == {IdOf(parts, ps[0])} + SetOf(rest);
      assert SetOf(ps) == {ps[0]} + SetOf(ps[1..]);
      IdsUnion(parts, {ps[0]}, SetOf(ps[1..]));
    }
  }

  lemma IdsUnion(parts: map<PartRef, Wrapper>, a: set<PartRef>, b: set<PartRef>)
    ensures IdsOf(parts, a + b) == IdsOf(parts, a) + IdsOf(parts, b)
  {
    forall d | d in IdsOf(parts, a) ensures d in IdsOf(parts, a + b) {
      var p :| p in a && IdOf(parts, p) == d;
      assert p in a + b;
    }
    forall d | d in IdsOf(parts, b) ensures d in IdsOf(parts, a + b) {
      var p :| p in b && IdOf(parts, p) == d;
      assert p in a + b;
    }
  }

  /** An ID is listed by the next file only for a part of the next snapshot. */
  lemma NotRelisted(s: State, next: SnapRef, c: Change, p: PartRef)
    requires Inv(s) && s.intro == Built(next, c) && p in s.refs && p in s.parts && !s.parts[p].mem
    requires p !in Extra(s) && p !in c.outs && p !in NextParts(CurParts(s), c)
    ensures s.parts[p].id !in IdsOf(s.parts, NextParts(CurParts(s), c))
  {
    hide Inv, MemDirs, NextParts, Mems, CurParts, Extra, FlushOuts;
    if s.parts[p].id in IdsOf(s.parts, NextParts(CurParts(s), c)) {
      var m :| m in NextParts(CurParts(s), c) && IdOf(s.parts, m) == s.parts[p].id;
      Unpack(s);
      NextInMems(s, next, c, m);
      MemsOpen(s);
      DiskIds(s);
      if s.parts[m].mem {
        SameIdFile(s, p, m);
        FlushOutsFiles(s, p);
      }
    }
  }

  /** A directory of the next snapshot is not being removed. */
  lemma NextNotDeleting(s: State, next: SnapRef, c: Change, d: nat)
    requires Inv(s) && s.intro == Built(next, c) && d in IdsOf(s.parts, NextParts(CurParts(s), c)) && d in s.dirs
    ensures !s.dirs[d].Deleting?
  {
    hide Inv, MemDirs, NextParts, Mems, CurParts, Extra, FlushOuts;
    var m :| m in NextParts(CurParts(s), c) && IdOf(s.parts, m) == d;
    Unpack(s);
    NextInMems(s, next, c, m);
    MemsOpen(s);
    DiskIds(s);
    if s.parts[m].mem {
      MemDirsAt(s.parts, Mems(s), s.dirs, s.flusher, s.intro, m);
      if d in IdsOf(s.parts, FlushOuts(s.flusher, s.intro)) {
        var f :| f in FlushOuts(s.flusher, s.intro) && IdOf(s.parts, f) == d;
        FlushOutsFiles(s, f);
      }
    }
  }

  ghost function ListedAfter(s: State, next: SnapRef, c: Change): set<nat> {
    if Persists(s.parts, c) then IdsOf(s.parts, NextParts(CurParts(s), c)) else Listed(s.snps, s.gc)
  }

  lemma ReplacedRemoval(s: State, next: SnapRef, c: Change, intro': Intro)
    requires Inv(s) && s.intro == Built(next, c) && !intro'.Built?
    ensures Removal(s.parts, s.refs, s.removable, NextParts(CurParts(s), c), Extra(s), intro', ListedAfter(s, next, c))
  {
    hide *;
    Unpack(s);
    BuiltWork(s, next, c);
    RemovalKnown(s.parts, s.refs, s.removable, CurParts(s), Extra(s), s.intro, Listed(s.snps, s.gc));
    forall p | p in s.removable && p in s.refs
      ensures p !in Extra(s) && p !in NextParts(CurParts(s), c)
      ensures s.parts[p].mem || s.parts[p].id !in ListedAfter(s, next, c)
    {
      RemovalAt(s.parts, s.refs, s.removable, CurParts(s), Extra(s), s.intro, Listed(s.snps, s.gc), p);
      NextPartsAre(CurParts(s), c, p);
      ListedAfterIs(s, next, c);
      if !s.parts[p].mem {
        NotRelisted(s, next, c, p);
      }
    }
    RemovalIs(s.parts, s.refs, s.removable, NextParts(CurParts(s), c), Extra(s), intro', ListedAfter(s, next, c));
  }

  lemma RemovalKnown(
    parts: map<PartRef, Wrapper>, refs: map<PartRef, int>, removable: set<PartRef>, cur: set<PartRef>,
    extra: multiset<PartRef>, intro: Intro, listed: set<nat>)
    requires Removal(parts, refs, removable, cur, extra, intro, listed)
    ensures removable <= parts.Keys
  {
  }

  lemma RemovalAt(
    parts: map<PartRef, Wrapper>, refs: map<PartRef, int>, removable: set<PartRef>, cur: set<PartRef>,
    extra: multiset<PartRef>, intro: Intro, listed: set<nat>, p: PartRef)
    requires Removal(parts, refs, removable, cur, extra, intro, listed) && p in removable && p in refs
    ensures p !in extra && p in parts && (intro.Built? ==> p !in intro.change.outs)
    ensures (intro.Built? && p in intro.change.inputs) || (p !in cur && (parts[p].mem || parts[p].id !in listed))
  {
  }

  lemma RemovalIs(
    parts: map<PartRef, Wrapper>, refs: map<PartRef, int>, removable: set<PartRef>, cur: set<PartRef>,
    extra: multiset<PartRef>, intro: Intro, listed: set<nat>)
    requires removable <= parts.Keys && !intro.Built?
    requires forall p :: p in removable && p in refs ==>
      p !in extra && p !in cur && (parts[p].mem || parts[p].id !in listed)
    ensures Removal(parts, refs, removable, cur, extra, intro, listed)
  {
  }

  /** A change that is not persisted takes nothing out of the snapshot. */
  lemma ListedAfterIs(s: State, next: SnapRef, c: Change)
    requires ChangeOK(s.parts, c)
    ensures Persists(s.parts, c) ==> ListedAfter(s, next, c) == IdsOf(s.parts, NextParts(CurParts(s), c))
    ensures !Persists(s.parts, c) ==> ListedAfter(s, next, c) == Listed(s.snps, s.gc) && c.inputs == {}
  {
    hide CurParts, IdsOf, NextParts, Listed, Paired, Refines;
  }

  lemma ReplacedDurable(s: State, next: SnapRef, c: Change)
    requires Inv(s) && s.intro == Built(next, c)
    ensures Durable(s.parts, NextParts(CurParts(s), c), s.dirs, ListedAfter(s, next, c))
  {
    hide Inv, CurParts, IdsOf, OfKind, NextParts, Listed, ChangeOK, IntroOK, Persists;
    Unpack(s);
    BuiltWork(s, next, c);
    if Persists(s.parts, c) {
      forall d | d in IdsOf(s.parts, NextParts(CurParts(s), c)) && d in s.dirs ensures !s.dirs[d].Deleting? {
        NextNotDeleting(s, next, c, d);
      }
      FewerIds(s.parts, NextParts(CurParts(s), c));
    } else {
      ListedAfterIs(s, next, c);
      MemAdded(s.parts, CurParts(s), c);
    }
  }

  lemma FewerIds(parts: map<PartRef, Wrapper>, ps: set<PartRef>)
    ensures IdsOf(parts, OfKind(parts, ps, false)) <= IdsOf(parts, ps)
  {
  }

  lemma MemAdded(parts: map<PartRef, Wrapper>, cur: set<PartRef>, c: Change)
    requires ChangeOK(parts, c) && !Persists(parts, c)
    ensures OfKind(parts, NextParts(cur, c), false) == OfKind(parts, cur, false)
  {
    hide Paired, Refines;
    var p :| p in c.outs && p in parts && parts[p].mem;
    assert c.outs == [p];
  }

  lemma ReplacedEpochs(s: State, next: SnapRef, c: Change)
    requires Inv(s) && s.intro == Built(next, c)
    ensures Epochs(Replaces(s, next, c).snps, Replaces(s, next, c).gc, s.epoch + 1)
    ensures Listed(Replaces(s, next, c).snps, Replaces(s, next, c).gc) == ListedAfter(s, next, c)
  {
    hide Counted, Disk, LoopOK, MemDirs, Removal, Durable, View, CurParts, IdsOf, NextParts, ChangeOK, SetOf, PointsOf,
         OfKind, Drop;
    BuiltWork(s, next, c);
    ListingIs(s.parts, SeqOf(s.snaps, next));
  }
}
