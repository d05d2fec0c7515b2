/** Every step but the introducer's and a crash keeps the invariant. */
module TableKeeps {
  import opened Points
  import opened Parts
  import opened Table
  import opened TableSteps
  import opened TableRefs
  import opened TableInv
  import opened TableFrames

  // ---------- holding and letting go of snapshots ----------

  lemma AcquireKeeps(s: State)
    requires Inv(s) && s.cur.Some?
    ensures Inv(Hold(s, s.cur.value).(readers := s.readers + multiset{s.cur.value}))
  {
    hide *;
    Unpack(s);
    CurOpen(s);
    AddToken(s.snaps, s.srefs, s.refs, Tokens(s), Extra(s), s.cur.value);
    AcquireIs(s);
    Pack(Hold(s, s.cur.value).(readers := s.readers + multiset{s.cur.value}));
  }

  lemma AcquireIs(s: State)
    requires s.cur.Some? && s.cur.value in s.srefs
    ensures var h := s.cur.value; var t := Hold(s, h).(readers := s.readers + multiset{h});
      && t == s.(srefs := s.srefs[h := s.srefs[h] + 1], readers := s.readers + multiset{h})
      && CurParts(t) == CurParts(s) && Mems(t) == Mems(s) && Tokens(t) == Tokens(s) + multiset{h} && Extra(t) == Extra(s)
  {
    hide SetOf, SeqOf, ExtraOf, IntroTokens, LoopToken, Opt;
  }

  /** Inv speaks of a loop through its work; a loop without work is all the same to it. */
  lemma RestingLoop(
    parts: map<PartRef, Wrapper>, snaps: map<SnapRef, Snap>, cur: set<PartRef>, mems: set<PartRef>, epoch: nat,
    dirs: map<nat, Dir>, intro: Intro, s: State, who: Who, l: Loop)
    requires IntroOK(parts, snaps, cur, epoch, intro, s.flusher, s.merger)
    requires MemDirs(parts, mems, dirs, s.flusher, intro)
    requires WorkOf(LoopOf(s, who)).Nothing? && WorkOf(l).Nothing?
    ensures var t := WithLoop(s, who, l);
      IntroOK(parts, snaps, cur, epoch, intro, t.flusher, t.merger) && MemDirs(parts, mems, dirs, t.flusher, intro)
    ensures Extra(WithLoop(s, who, l)) == Extra(s)
  {
    hide ChangeOK, IdsOf, SetOf;
    assert FlushOuts(WithLoop(s, who, l).flusher, intro) == FlushOuts(s.flusher, intro);
  }

  lemma LoopAcquireKeeps(s: State, who: Who)
    requires Inv(s) && s.cur.Some? && LoopOf(s, who).Resting?
    ensures Inv(Acquires(s, who))
  {
    hide *;
    Unpack(s);
    CurOpen(s);
    AddToken(s.snaps, s.srefs, s.refs, Tokens(s), Extra(s), s.cur.value);
    AcquiresIs(s, who);
    var l := LoopOf(Acquires(s, who), who);
    RestingLoop(s.parts, s.snaps, CurParts(s), Mems(s), s.epoch, s.dirs, s.intro, s, who, l);
    NoWork(s.parts, CurParts(s), s.dirs, s.intro, who, l);
    Pack(Acquires(s, who));
  }

  lemma AcquiresIs(s: State, who: Who)
    requires s.cur.Some? && s.cur.value in s.srefs && LoopOf(s, who).Resting?
    ensures var t := Acquires(s, who); var h := s.cur.value;
      && t == WithLoop(s, who, LoopOf(t, who)).(srefs := s.srefs[h := s.srefs[h] + 1])
      && t == s.(srefs := s.srefs[h := s.srefs[h] + 1], flusher := t.flusher, merger := t.merger)
      && LoopOf(t, who) == Holding(h, OfKind(s.parts, CurParts(s), who.Flusher?), true, Nothing)
      && (who.Flusher? ==> t.merger == s.merger && t.flusher == LoopOf(t, who))
      && (who.Merger? ==> t.flusher == s.flusher && t.merger == LoopOf(t, who))
      && WithLoop(s, who, LoopOf(t, who)).flusher == t.flusher && WithLoop(s, who, LoopOf(t, who)).merger == t.merger
      && Extra(WithLoop(s, who, LoopOf(t, who))) == Extra(t)
      && CurParts(t) == CurParts(s) && Mems(t) == Mems(s) && Tokens(t) == Tokens(s) + multiset{h}
    ensures WorkOf(LoopOf(s, who)).Nothing? && WorkOf(LoopOf(Acquires(s, who), who)).Nothing?
  {
    hide SetOf, SeqOf, OfKind, ExtraOf, BuiltOuts, TokensOf;
    AcquiresTokens(s, who);
  }

  lemma AcquiresTokens(s: State, who: Who)
    requires s.cur.Some? && s.cur.value in s.srefs && LoopOf(s, who).Resting?
    ensures Tokens(Acquires(s, who)) == Tokens(s) + multiset{s.cur.value}
  {
    hide SetOf, SeqOf, OfKind, ExtraOf, BuiltOuts;
  }

  lemma NoWork(
    parts: map<PartRef, Wrapper>, cur: set<PartRef>, dirs: map<nat, Dir>, intro: Intro, who: Who, l: Loop)
    requires l.Holding? && l.todo == OfKind(parts, cur, who.Flusher?) && l.work == Nothing
    ensures LoopOK(parts, cur, dirs, intro, who, l)
  {
  }

  lemma DropCounts(s: State, h: SnapRef, tokens: multiset<SnapRef>, extra: multiset<PartRef>)
    requires Counted(s.snaps, s.srefs, s.refs, tokens + multiset{h}, extra)
    ensures var t := Drop(s, h);
      Counted(t.snaps, t.srefs, t.refs, tokens, extra) && t == s.(srefs := t.srefs, refs := t.refs, dirs := t.dirs)
  {
    hide PartsOpen, PartsCounted;
    assert h in tokens + multiset{h};
    assert tokens + multiset{h} - multiset{h} == tokens;
    if s.srefs[h] > 1 {
      DropToken(s.snaps, s.srefs, s.refs, tokens + multiset{h}, extra, h);
    } else {
      CloseSnap(s.snaps, s.srefs, s.refs, tokens + multiset{h}, extra, h);
    }
  }

  /** Letting go of a snapshot closes parts and removes directories, but nothing that is still needed. */
  lemma DropKeeps(s: State, h: SnapRef, tokens: multiset<SnapRef>)
    requires Inv(s) && Tokens(s) == tokens + multiset{h} && (s.cur.Some? ==> s.cur.value in tokens)
    ensures var t := Drop(s, h);
      && Counted(t.snaps, t.srefs, t.refs, tokens, Extra(s))
      && t == s.(srefs := t.srefs, refs := t.refs, dirs := t.dirs)
      && Disk(s.parts, t.refs, t.dirs, s.curPartID, s.offered)
      && LoopOK(s.parts, CurParts(s), t.dirs, s.intro, Flusher, s.flusher)
      && LoopOK(s.parts, CurParts(s), t.dirs, s.intro, Merger, s.merger)
      && MemDirs(s.parts, Mems(s), t.dirs, s.flusher, s.intro)
      && Removal(s.parts, t.refs, s.removable, CurParts(s), Extra(s), s.intro, Listed(s.snps, s.gc))
      && Durable(s.parts, CurParts(s), t.dirs, Listed(s.snps, s.gc))
  {
    hide Counted, Disk, LoopOK, IntroOK, MemDirs, Removal, Epochs, Durable, View, Listed, SetOf, Extra, Tokens;
    DropCounts(s, h, tokens, Extra(s));
    if h in s.srefs && s.srefs[h] <= 1 {
      CloseKeeps(s, h, tokens);
    }
  }

  lemma CloseKeeps(s: State, h: SnapRef, tokens: multiset<SnapRef>)
    requires Inv(s) && (s.cur.Some? ==> s.cur.value in tokens)
    requires h in s.srefs && s.srefs[h] <= 1
    requires Counted(s.snaps, s.srefs - {h}, Unref(s.refs, SeqOf(s.snaps, h)), tokens, Extra(s))
    ensures var t := Drop(s, h);
      && Disk(s.parts, t.refs, t.dirs, s.curPartID, s.offered)
      && LoopOK(s.parts, CurParts(s), t.dirs, s.intro, Flusher, s.flusher)
      && LoopOK(s.parts, CurParts(s), t.dirs, s.intro, Merger, s.merger)
      && MemDirs(s.parts, Mems(s), t.dirs, s.flusher, s.intro)
      && Removal(s.parts, t.refs, s.removable, CurParts(s), Extra(s), s.intro, Listed(s.snps, s.gc))
      && Durable(s.parts, CurParts(s), t.dirs, Listed(s.snps, s.gc))
  {
    hide Counted, PartsWF, LoopOK, ChangeOK, MemDirs, Removal, Epochs, Durable, View, Listed, SetOf,
         Unref, Doomed, RemoveDirs, Extra, Tokens, WritesKept;
    var ps, cur := SeqOf(s.snaps, h), CurParts(s);
    var refs', dirs' := Unref(s.refs, ps), RemoveDirs(s.dirs, Doomed(s.parts, s.refs, s.removable, ps));
    DiskDrop(s.parts, s.refs, s.removable, ps, s.dirs, s.curPartID, s.offered);
    WritesDrop(s.parts, s.refs, s.removable, ps, s.dirs, s.curPartID);
    LoopDirs(s.parts, cur, s.dirs, dirs', s.intro, Flusher, s.flusher);
    LoopDirs(s.parts, cur, s.dirs, dirs', s.intro, Merger, s.merger);
    SameDirs(s.dirs, Doomed(s.parts, s.refs, s.removable, ps));
    MemDirsDirs(s.parts, Mems(s), s.dirs, dirs', s.flusher, s.intro);
    CurStays(s, s.srefs - {h}, refs', tokens);
    UnrefLess(s.refs, ps);
    RemovalLess(s.parts, s.refs, refs', s.removable, cur, Extra(s), s.intro, Listed(s.snps, s.gc));
    DurableDrop(s.parts, s.refs, s.removable, ps, cur, s.dirs, s.curPartID, Extra(s), s.intro, Listed(s.snps, s.gc));
  }

  lemma UnrefLess(refs: map<PartRef, int>, ps: seq<PartRef>)
    ensures Unref(refs, ps).Keys <= refs.Keys
  {
  }

  lemma SameDirs(dirs: map<nat, Dir>, doomed: set<nat>)
    ensures RemoveDirs(dirs, doomed).Keys == dirs.Keys
  {
  }

  lemma CurStays(s: State, srefs: map<SnapRef, int>, refs: map<PartRef, int>, tokens: multiset<SnapRef>)
    requires Counted(s.snaps, srefs, refs, tokens, Extra(s)) && (s.cur.Some? ==> s.cur.value in tokens)
    ensures CurParts(s) <= refs.Keys
  {
  }

  lemma ReleaseKeeps(s: State, h: SnapRef)
    requires Inv(s) && h in s.readers
    ensures Inv(Drop(s, h).(readers := s.readers - multiset{h}))
  {
    hide Counted, Disk, LoopOK, IntroOK, MemDirs, Removal, Epochs, Durable, View, SetOf, Listed, SeqOf, Outs, Drop;
    var t := Drop(s, h).(readers := s.readers - multiset{h});
    var tokens := Tokens(s.(readers := s.readers - multiset{h}));
    assert s.readers - multiset{h} + multiset{h} == s.readers;
    assert Tokens(s) == tokens + multiset{h};
    DropKeeps(s, h, tokens);
  }

  lemma ReleasePrevKeeps(s: State)
    requires Inv(s) && s.intro.Replaced?
    ensures Inv(Drop(s, s.intro.prev).(intro := Idle))
  {
    hide Counted, Disk, LoopOK, MemDirs, Removal, Epochs, Durable, View, SetOf, Listed, SeqOf, Outs, Drop;
    var tokens := Tokens(s.(intro := Idle));
    assert Tokens(s) == tokens + multiset{s.intro.prev};
    DropKeeps(s, s.intro.prev, tokens);
    var t := Drop(s, s.intro.prev);
    IdleIntro(s.parts, CurParts(s), t.dirs, Flusher, s.flusher, s.intro);
    IdleIntro(s.parts, CurParts(s), t.dirs, Merger, s.merger, s.intro);
    IdleMems(s.parts, Mems(s), t.dirs, s.flusher, s.intro);
    IdleRemoval(s.parts, t.refs, s.removable, CurParts(s), Extra(s), s.intro, Listed(s.snps, s.gc));
  }

  lemma IdleIntro(
    parts: map<PartRef, Wrapper>, cur: set<PartRef>, dirs: map<nat, Dir>, who: Who, l: Loop, intro: Intro)
    requires LoopOK(parts, cur, dirs, intro, who, l) && !intro.Built?
    ensures LoopOK(parts, cur, dirs, Idle, who, l)
  {
    hide Paired, ChangeOK, OfKind;
  }

  lemma IdleMems(parts: map<PartRef, Wrapper>, mems: set<PartRef>, dirs: map<nat, Dir>, flusher: Loop, intro: Intro)
    requires MemDirs(parts, mems, dirs, flusher, intro) && !intro.Built?
    ensures MemDirs(parts, mems, dirs, flusher, Idle)
  {
    hide IdsOf, SetOf;
    assert FlushOuts(flusher, intro) == FlushOuts(flusher, Idle);
  }

  lemma IdleRemoval(
    parts: map<PartRef, Wrapper>, refs: map<PartRef, int>, removable: set<PartRef>, cur: set<PartRef>,
    extra: multiset<PartRef>, intro: Intro, listed: set<nat>)
    requires Removal(parts, refs, removable, cur, extra, intro, listed) && !intro.Built?
    ensures Removal(parts, refs, removable, cur, extra, Idle, listed)
  {
  }

  lemma LoopReleaseKeeps(s: State, who: Who)
    requires Inv(s) && LoopOf(s, who).Holding? && LoopOf(s, who).work.Nothing?
    ensures Inv(Releases(s, who))
  {
    hide Counted, Disk, IntroOK, MemDirs, Removal, Epochs, Durable, View, SetOf, Listed, SeqOf, Outs, OfKind, WorkOK,
         Drop, TokensOf, ExtraOf;
    var h := LoopOf(s, who).snap;
    LoopTokens(s, who);
    DropKeeps(s, h, Tokens(WithLoop(s, who, Resting)));
    var t := Drop(s, h);
    RestingLoop(s.parts, s.snaps, CurParts(s), Mems(s), s.epoch, t.dirs, s.intro, s, who, Resting);
  }

  lemma LoopTokens(s: State, who: Who)
    requires LoopOf(s, who).Holding?
    ensures var t := WithLoop(s, who, Resting);
      Tokens(s) == Tokens(t) + multiset{LoopOf(s, who).snap} && (s.cur.Some? ==> s.cur.value in Tokens(t))
  {
  }
}
