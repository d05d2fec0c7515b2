/**
  The introducer's code.  A table updates its reference counters, snapshots and files in place; an
  introduction that nothing interrupts does exactly what the steps of the protocol say.
 */
module TableCode {
  import opened Points
  import opened Parts
  import opened Table
  import opened TableSteps
  import opened TableRefs
  import opened TableInv
  import opened TableNext
  import opened TableRun
  import TableFiles

  // ---------- one part at a time ----------

  lemma AddrefStep(refs: map<PartRef, int>, ps: seq<PartRef>, p: PartRef)
    requires p in refs && p !in ps
    ensures p in Addref(refs, ps) && Addref(refs, ps)[p] == refs[p]
    ensures Addref(refs, ps + [p]) == Addref(refs, ps)[p := refs[p] + 1]
  {
  }

  lemma UnrefStep(refs: map<PartRef, int>, ps: seq<PartRef>, p: PartRef)
    requires p in refs && p !in ps
    ensures p in Unref(refs, ps) && Unref(refs, ps)[p] == refs[p]
    ensures Unref(refs, ps + [p])
         == if refs[p] <= 1 then Unref(refs, ps) - {p} else Unref(refs, ps)[p := refs[p] - 1]
  {
  }

  lemma DoomedStep(
    parts: map<PartRef, Wrapper>, refs: map<PartRef, int>, removable: set<PartRef>, ps: seq<PartRef>, p: PartRef)
    requires p in refs && p in parts && p !in ps
    ensures Doomed(parts, refs, removable, ps + [p])
         == Doomed(parts, refs, removable, ps)
            + (if refs[p] <= 1 && !parts[p].mem && p in removable then {parts[p].id} else {})
  {
    var doomed, doomed' := Doomed(parts, refs, removable, ps), Doomed(parts, refs, removable, ps + [p]);
    forall d | d in doomed ensures d in doomed' {
      var q :| q in refs && q in parts && q in ps && refs[q] <= 1 && !parts[q].mem && q in removable && parts[q].id == d;
      assert q in ps + [p];
    }
    if refs[p] <= 1 && !parts[p].mem && p in removable {
      assert p in ps + [p];
      assert parts[p].id in doomed';
    }
  }

  lemma RemoveDirsStep(dirs: map<nat, Dir>, ids: set<nat>, id: nat)
    requires id in dirs
    ensures RemoveDirs(dirs, ids + {id}) == RemoveDirs(dirs, ids)[id := Deleting]
  {
  }

  lemma {:induction false} WithoutSnoc(parts: map<PartRef, Wrapper>, cur: seq<PartRef>, p: PartRef, ids: set<nat>)
    ensures Without(parts, cur + [p], ids) == Without(parts, cur, ids) + (if IdOf(parts, p) in ids then [] else [p])
  {
    if cur != [] {
      WithoutSnoc(parts, cur[1..], p, ids);
      assert (cur + [p])[1..] == cur[1..] + [p];
    }
  }

  lemma {:induction false} SubstitutedSnoc(parts: map<PartRef, Wrapper>, cur: seq<PartRef>, p: PartRef, flushed: map<nat, PartRef>)
    ensures Substituted(parts, cur + [p], flushed)
         == Substituted(parts, cur, flushed)
            + [if IdOf(parts, p) in flushed then flushed[IdOf(parts, p)] else p]
  {
    if cur != [] {
      SubstitutedSnoc(parts, cur[1..], p, flushed);
      assert (cur + [p])[1..] == cur[1..] + [p];
    }
  }

  lemma {:induction false} ListingSnoc(parts: map<PartRef, Wrapper>, ps: seq<PartRef>, p: PartRef)
    ensures Listing(parts, ps + [p]) == Listing(parts, ps) + [IdOf(parts, p)]
  {
    if ps != [] {
      ListingSnoc(parts, ps[1..], p);
      assert (ps + [p])[1..] == ps[1..] + [p];
    }
  }

  lemma CleanedFiles(snps: map<nat, seq<nat>>, es: seq<nat>, failed: set<nat>)
    ensures var now := snps - (set e | e in es && e !in failed);
      && (forall e :: e in now <==> e in snps && (e in es ==> e in failed))
      && (forall e :: e in now ==> now[e] == snps[e])
  {
  }

  lemma {:induction false} KeepSnoc(es: seq<nat>, e: nat, failed: set<nat>)
    ensures Keep(es + [e], failed) == Keep(es, failed) + (if e in failed then [e] else [])
  {
    if es != [] {
      KeepSnoc(es[1..], e, failed);
      assert (es + [e])[1..] == es[1..] + [e];
    }
  }

  lemma PrefixFresh(ps: seq<PartRef>, i: nat)
    requires NoDup(ps) && i < |ps|
    ensures ps[i] !in ps[..i] && ps[..i + 1] == ps[..i] + [ps[i]]
  {
  }

  ghost function Marked(parts: map<PartRef, Wrapper>, ps: seq<PartRef>, ids: set<nat>): set<PartRef> {
    set p | p in ps && IdOf(parts, p) in ids
  }

  lemma MarksStep(parts: map<PartRef, Wrapper>, ps: seq<PartRef>, p: PartRef, ids: set<nat>)
    ensures Marked(parts, ps + [p], ids) == Marked(parts, ps, ids) + (if IdOf(parts, p) in ids then {p} else {})
  {
  }

  lemma {:induction false} RemoveStart(parts: map<PartRef, Wrapper>, refs: map<PartRef, int>, ids: set<nat>)
    ensures Without(parts, [], ids) == [] && Addref(refs, []) == refs && Marked(parts, [], ids) == {}
  {
  }

  lemma {:induction false} RemoveStep(parts: map<PartRef, Wrapper>, refs: map<PartRef, int>, ps: seq<PartRef>, i: nat, ids: set<nat>)
    requires NoDup(ps) && i < |ps| && ps[i] in refs && ps[i] in parts
    ensures var kept, kept', p := Without(parts, ps[..i], ids), Without(parts, ps[..i + 1], ids), ps[i];
      if parts[p].id in ids then kept' == kept && Marked(parts, ps[..i + 1], ids) == Marked(parts, ps[..i], ids) + {p}
      else
        && kept' == kept + [p] && Marked(parts, ps[..i + 1], ids) == Marked(parts, ps[..i], ids)
        && p in Addref(refs, kept) && Addref(refs, kept') == Addref(refs, kept)[p := Addref(refs, kept)[p] + 1]
  {
    hide Addref, Marked, Without;
    PrefixFresh(ps, i);
    WithoutSnoc(parts, ps[..i], ps[i], ids);
    MarksStep(parts, ps[..i], ps[i], ids);
    WithoutIs(parts, ps[..i], ids);
    AddrefStep(refs, Without(parts, ps[..i], ids), ps[i]);
  }

  // ---------- the table ----------

  class TsTable {
    var parts: map<PartRef, Wrapper>
    var refs: map<PartRef, int>
    var removable: set<PartRef>
    var snaps: map<SnapRef, Snap>
    var srefs: map<SnapRef, int>
    var cur: Option<SnapRef>
    var epoch: nat
    var dirs: map<nat, Dir>
    var snps: map<nat, seq<nat>>
    var gc: Gc

    /** The code's share of a protocol state. */
    ghost predicate Shows(s: State)
      reads this
    {
      && parts == s.parts && refs == s.refs && removable == s.removable && snaps == s.snaps && srefs == s.srefs
      && cur == s.cur && epoch == s.epoch && dirs == s.dirs && snps == s.snps && gc == s.gc
    }

    /** snapshot.copyAllTo */
    method CopyAllTo(ps: seq<PartRef>) returns (result: seq<PartRef>)
      requires NoDup(ps) && forall p :: p in ps ==> p in refs
      modifies this`refs
      ensures result == ps && refs == Addref(old(refs), ps)
    {
      result := [];
      for i := 0 to |ps|
        invariant result == ps[..i] && refs == Addref(old(refs), ps[..i])
      {
        PrefixFresh(ps, i);
        AddrefStep(old(refs), ps[..i], ps[i]);
        refs := refs[ps[i] := refs[ps[i]] + 1];
        result := result + [ps[i]];
      }
      assert ps[..|ps|] == ps;
    }

    /** snapshot.merge */
    method MergeParts(ps: seq<PartRef>, flushed: map<nat, PartRef>) returns (result: seq<PartRef>)
      requires NoDup(ps) && forall p :: p in ps ==> p in refs && p in parts
      modifies this`refs
      ensures result == Substituted(parts, ps, flushed)
      ensures refs == Addref(old(refs), Without(parts, ps, flushed.Keys))
    {
      result := [];
      ghost var kept := [];
      assert Addref(refs, []) == refs;
      for i := 0 to |ps|
        invariant result == Substituted(parts, ps[..i], flushed)
        invariant kept == Without(parts, ps[..i], flushed.Keys) && refs == Addref(old(refs), kept)
        invariant forall p :: p in kept ==> p in ps[..i]
      {
        PrefixFresh(ps, i);
        SubstitutedSnoc(parts, ps[..i], ps[i], flushed);
        WithoutSnoc(parts, ps[..i], ps[i], flushed.Keys);
        var id := parts[ps[i]].id;
        if id in flushed {
          result := result + [flushed[id]];
        } else {
          AddrefStep(old(refs), kept, ps[i]);
          refs := refs[ps[i] := refs[ps[i]] + 1];
          result := result + [ps[i]];
          kept := kept + [ps[i]];
        }
      }
      assert ps[..|ps|] == ps;
    }

    /** snapshot.remove */
    method RemoveParts(ps: seq<PartRef>, ids: set<nat>) returns (result: seq<PartRef>)
      requires NoDup(ps) && forall p :: p in ps ==> p in refs && p in parts
      modifies this`refs, this`removable
      ensures result == Without(parts, ps, ids) && refs == Addref(old(refs), result)
      ensures removable == old(removable) + Marked(parts, ps, ids)
    {
      hide Addref, Without, Marked;
      result := [];
      RemoveStart(parts, refs, ids);
      for i := 0 to |ps|
        invariant result == Without(parts, ps[..i], ids) && refs == Addref(old(refs), result)
        invariant removable == old(removable) + Marked(parts, ps[..i], ids)
      {
        RemoveStep(parts, old(refs), ps, i, ids);
        if parts[ps[i]].id !in ids {
          refs := refs[ps[i] := refs[ps[i]] + 1];
          result := result + [ps[i]];
        } else {
          removable := removable + {ps[i]};
        }
      }
      assert ps[..|ps|] == ps;
    }

    /** partWrapper.decRef: the last reference closes the part and starts the removal of its directory. */
    method DecRefPart(p: PartRef)
      requires p in refs && p in parts && (!parts[p].mem && p in removable ==> parts[p].id in dirs)
      modifies this`refs, this`dirs
      ensures refs == if old(refs)[p] <= 1 then old(refs) - {p} else old(refs)[p := old(refs)[p] - 1]
      ensures dirs == if old(refs)[p] <= 1 && !parts[p].mem && p in removable then old(dirs)[parts[p].id := Deleting]
                      else old(dirs)
    {
      var n := refs[p] - 1;
      if n > 0 {
        refs := refs[p := n];
        return;
      }
      refs := refs - {p};
      if !parts[p].mem && p in removable {
        dirs := dirs[parts[p].id := Deleting];
      }
    }

    method DecRefParts(ps: seq<PartRef>)
      requires NoDup(ps) && forall p :: p in ps ==> p in refs && p in parts
      requires forall p :: p in ps && !parts[p].mem ==> parts[p].id in dirs
      modifies this`refs, this`dirs
      ensures refs == Unref(old(refs), ps)
      ensures dirs == RemoveDirs(old(dirs), Doomed(parts, old(refs), removable, ps))
    {
      assert Unref(refs, []) == refs && RemoveDirs(dirs, Doomed(parts, refs, removable, [])) == dirs;
      for i := 0 to |ps|
        invariant refs == Unref(old(refs), ps[..i])
        invariant dirs == RemoveDirs(old(dirs), Doomed(parts, old(refs), removable, ps[..i]))
      {
        hide Unref, Doomed;
        PrefixFresh(ps, i);
        UnrefStep(old(refs), ps[..i], ps[i]);
        DoomedStep(parts, old(refs), removable, ps[..i], ps[i]);
        if !parts[ps[i]].mem {
          RemoveDirsStep(old(dirs), Doomed(parts, old(refs), removable, ps[..i]), parts[ps[i]].id);
        }
        DecRefPart(ps[i]);
      }
      assert ps[..|ps|] == ps;
    }

    /** Every part of a snapshot that can be let go is open and has its directory. */
    ghost predicate CanDrop(h: SnapRef)
      reads this
    {
      && h in srefs && h in snaps && NoDup(snaps[h].parts)
      && (forall p :: p in snaps[h].parts ==> p in refs && p in parts && (!parts[p].mem ==> parts[p].id in dirs))
    }

    /** snapshot.decRef */
    method DecRef(h: SnapRef, ghost s: State)
      requires Shows(s) && CanDrop(h)
      modifies this`srefs, this`refs, this`dirs
      ensures Shows(Drop(s, h))
    {
      hide Unref, Doomed, RemoveDirs;
      var n := srefs[h] - 1;
      if n > 0 {
        srefs := srefs[h := n];
        return;
      }
      srefs := srefs - {h};
      DecRefParts(snaps[h].parts);
    }

    /** garbageCleaner.clean; `failed` are the files that cannot be deleted now. */
    method Clean(failed: set<nat>, ghost s: State)
      requires Shows(s)
      modifies this`snps, this`gc
      ensures Shows(Cleans(s, failed))
      ensures forall e :: e in snps <==> e in old(snps) && (e in old(gc).deletable ==> e in failed)
      ensures forall e :: e in snps ==> snps[e] == old(snps)[e]
      ensures gc.live == old(gc).live && forall e :: e in gc.deletable <==> e in old(gc).deletable && e in failed
    {
      hide Keep;
      TableFiles.KeptIn(gc.deletable, failed);
      CleanedFiles(snps, gc.deletable, failed);
      var remaining := DeleteFiles(failed);
      gc := gc.(deletable := remaining);
    }

    /** The loop of clean. */
    method DeleteFiles(failed: set<nat>) returns (remaining: seq<nat>)
      modifies this`snps
      ensures remaining == Keep(gc.deletable, failed)
      ensures snps == old(snps) - (set e | e in gc.deletable && e !in failed)
    {
      remaining := [];
      var i := 0;
      while i < |gc.deletable|
        invariant 0 <= i <= |gc.deletable|
        invariant remaining == Keep(gc.deletable[..i], failed)
        invariant snps == old(snps) - (set e | e in gc.deletable[..i] && e !in failed)
      {
        var e := gc.deletable[i];
        assert gc.deletable[..i + 1] == gc.deletable[..i] + [e];
        KeepSnoc(gc.deletable[..i], e, failed);
        if e !in failed {
          snps := snps - {e};
        } else {
          remaining := remaining + [e];
        }
        i := i + 1;
      }
      assert gc.deletable[..i] == gc.deletable;
    }

    method PartNames(ps: seq<PartRef>) returns (names: seq<nat>)
      ensures names == Listing(parts, ps)
    {
      names := [];
      for i := 0 to |ps|
        invariant names == Listing(parts, ps[..i])
      {
        assert ps[..i + 1] == ps[..i] + [ps[i]];
        ListingSnoc(parts, ps[..i], ps[i]);
        names := names + [if ps[i] in parts then parts[ps[i]].id else 0];
      }
      assert ps[..|ps|] == ps;
    }

    /** persistSnapshot */
    method PersistSnapshot(h: SnapRef)
      requires h in snaps
      modifies this`snps, this`gc
      ensures snps == old(snps)[EpochOf(snaps, h) := Listing(parts, SeqOf(snaps, h))]
      ensures gc == Register(old(gc), EpochOf(snaps, h))
    {
      var names := PartNames(snaps[h].parts);
      snps := snps[snaps[h].epoch := names];
      gc := Gc(snaps[h].epoch, if gc.live > 0 then gc.deletable + [gc.live] else gc.deletable);
    }

    /** replaceSnapshot */
    method ReplaceSnapshot(next: SnapRef, c: Change, ghost s: State)
      requires Shows(s) && next in snaps && (cur.Some? ==> CanDrop(cur.value))
      modifies this
      ensures Shows(Replaces(s, next, c))
    {
      hide Drop, Replaces, Listing, Register, EpochOf, SeqOf;
      ReplacesFields(s, next, c);
      if cur.Some? {
        DecRef(cur.value, s);
      }
      cur := Some(next);
      if c.kind != Write || forall p | p in c.outs && p in parts :: !parts[p].mem {
        PersistSnapshot(next);
      }
      epoch := epoch + 1;
    }

    method SelectNext(ps: seq<PartRef>, c: Change) returns (next: seq<PartRef>)
      requires NoDup(ps) && forall p :: p in ps ==> p in refs && p in parts
      modifies this`refs, this`removable
      ensures next == NextSeq(parts, ps, c) && refs == Addref(old(refs), Kept(parts, ps, c))
      ensures removable == old(removable) + MarkedBy(parts, ps, c)
    {
      hide Substituted, Without, Addref, Marked, IdsOf, MarkedBy;
      MarkedIs(parts, ps, c);
      match c.kind {
        case Write =>
          next := CopyAllTo(ps);
          next := next + c.outs;
        case Flush =>
          next := MergeParts(ps, c.flushed);
        case _ =>
          next := RemoveParts(ps, IdsOf(parts, c.inputs));
          next := next + c.outs;
      }
    }

    /** The first half of introducePart, introduceFlushed, introduceMerged and introduceSync. */
    method BuildNext(h: SnapRef, c: Change, ghost s: State)
      requires Shows(s) && h !in snaps && (cur.Some? ==> CanDrop(cur.value))
      modifies this
      ensures Shows(Builds(s, h, c))
    {
      hide NextSeq, Kept, MarkedBy, Addref, Builds;
      BuildsFields(s, h, c);
      var ps := if cur.Some? then snaps[cur.value].parts else [];
      if cur.Some? {
        srefs := srefs[cur.value := srefs[cur.value] + 1];
      }
      var next := SelectNext(ps, c);
      snaps := snaps[h := Snap(next, epoch)];
      srefs := srefs[h := 1];
    }

    /** An introduction that is not interrupted is the protocol's steps one after the other. */
    method Introduce(h: SnapRef, c: Change, ghost s: State) returns (ghost t: State)
      requires Shows(s) && Inv(s) && Enabled(s, Build(h, c))
      modifies this
      ensures Run(s, IntroSteps(s, h, c), t) && Inv(t) && Shows(t)
    {
      hide *;
      var prev := cur;
      IntroFacts(s, h, c);
      ghost var s1 := Next(s, Build(h, c));
      ghost var s2 := Next(s1, Replace);
      t := s2;
      ShowsIs(s);
      if prev.Some? { CanDropIs(s, prev.value); }
      BuildNext(h, c, s);
      ShowsIs(s1);
      if prev.Some? { CanDropIs(s1, prev.value); }
      ReplaceSnapshot(h, c, s1);
      ShowsIs(s2);
      if prev.Some? {
        t := Next(s2, ReleasePrev);
        CanDropIs(s2, prev.value);
        DecRef(prev.value, s2);
        ReleasedShows(s2, prev.value);
      }
    }

    lemma ShowsIs(s: State)
      requires Shows(s)
      ensures cur == s.cur && snaps == s.snaps && srefs == s.srefs
    {
    }

    lemma CanDropIs(s: State, h: SnapRef)
      requires Shows(s) && Inv(s) && h in Tokens(s)
      ensures CanDrop(h)
    {
      HeldFacts(s, h);
    }

    lemma ReleasedShows(s: State, h: SnapRef)
      requires Shows(Drop(s, h)) && s.intro == Replaced(h)
      ensures Shows(Next(s, ReleasePrev))
    {
      hide Drop;
    }
  }

  lemma ReplacesFields(s: State, next: SnapRef, c: Change)
    ensures var t := Replaces(s, next, c); var d := if s.cur.Some? then Drop(s, s.cur.value) else s;
      && t.parts == d.parts && t.refs == d.refs && t.removable == d.removable && t.snaps == d.snaps && t.srefs == d.srefs
      && t.dirs == d.dirs && t.cur == Some(next) && t.epoch == s.epoch + 1
      && t.snps == (if Persists(s.parts, c) then s.snps[EpochOf(s.snaps, next) := Listing(s.parts, SeqOf(s.snaps, next))]
                    else s.snps)
      && t.gc == (if Persists(s.parts, c) then Register(s.gc, EpochOf(s.snaps, next)) else s.gc)
  {
    hide Drop, Persists, Listing, Register, EpochOf, SeqOf, PointsOf, OfKind, SetOf, Resumed;
  }

  lemma MarkedIs(parts: map<PartRef, Wrapper>, ps: seq<PartRef>, c: Change)
    ensures MarkedBy(parts, ps, c)
         == if c.kind.Write? || c.kind.Flush? then {} else Marked(parts, ps, IdsOf(parts, c.inputs))
  {
  }

  lemma BuildsFields(s: State, h: SnapRef, c: Change)
    ensures var t, ps := Builds(s, h, c), CurSeq(s);
      && t.parts == s.parts && t.refs == Addref(s.refs, Kept(s.parts, ps, c))
      && t.removable == s.removable + MarkedBy(s.parts, ps, c)
      && t.snaps == s.snaps[h := Snap(NextSeq(s.parts, ps, c), s.epoch)] && t.srefs == HoldCur(s.srefs, s.cur)[h := 1]
      && t.cur == s.cur && t.epoch == s.epoch && t.dirs == s.dirs && t.snps == s.snps && t.gc == s.gc
  {
    hide NextSeq, Kept, MarkedBy, Addref, HoldCur, Taken, TakenPending;
  }

  lemma HeldFacts(s: State, h: SnapRef)
    requires Inv(s) && h in Tokens(s)
    ensures h in s.srefs && h in s.snaps && NoDup(s.snaps[h].parts)
    ensures forall p :: p in s.snaps[h].parts ==>
      p in s.refs && p in s.parts && (!s.parts[p].mem ==> s.parts[p].id in s.dirs)
  {
    hide LoopOK, IntroOK, MemDirs, Removal, Epochs, Durable, View, Tokens, Extra, IdsUnique, DirsWF, PartsCounted, WFPart,
         PartPoints;
  }

  /** The steps of an introduction. */
  ghost function IntroSteps(s: State, h: SnapRef, c: Change): seq<Step> {
    if s.cur.Some? then [Build(h, c), Replace, ReleasePrev] else [Build(h, c), Replace]
  }

  lemma {:induction false} IntroFacts(s: State, h: SnapRef, c: Change)
    requires Inv(s) && Enabled(s, Build(h, c))
    ensures var s1 := Next(s, Build(h, c)); var s2 := Next(s1, Replace);
      && s1 == Builds(s, h, c) && s2 == Replaces(s1, h, c) && Inv(s1) && Inv(s2)
      && h !in s.snaps && h in s1.snaps && s1.cur == s.cur
      && (s.cur.Some? ==>
            && s.cur.value in Tokens(s) && s.cur.value in Tokens(s1) && s.cur.value in Tokens(s2)
            && s2.intro == Replaced(s.cur.value)
            && Inv(Next(s2, ReleasePrev)) && Run(s, IntroSteps(s, h, c), Next(s2, ReleasePrev)))
      && (s.cur.None? ==> Run(s, IntroSteps(s, h, c), s2))
  {
    hide *;
    BuildStep(s, h, c);
    var s1 := Next(s, Build(h, c));
    StepKeeps(s, Build(h, c));
    ReplaceStep(s1, h, c);
    StepKeeps(s1, Replace);
    var s2 := Next(s1, Replace);
    if s.cur.Some? {
      ReleaseStep(s2, s.cur.value);
      StepKeeps(s2, ReleasePrev);
      RunThree(s, Build(h, c), Replace, ReleasePrev);
      IntroStepsAre(s, h, c);
    } else {
      RunTwo(s, Build(h, c), Replace);
      IntroStepsAre(s, h, c);
    }
  }

  lemma BuildStep(s: State, h: SnapRef, c: Change)
    requires Enabled(s, Build(h, c))
    ensures h !in s.snaps && Next(s, Build(h, c)) == Builds(s, h, c)
    ensures var t := Builds(s, h, c); h in t.snaps && t.cur == s.cur && t.intro == Built(h, c)
    ensures s.cur.Some? ==> s.cur.value in Tokens(s) && s.cur.value in Tokens(Builds(s, h, c))
  {
    hide SentBy, NextSeq, Kept, MarkedBy, Addref, HoldCur, Taken, TakenPending;
    if s.cur.Some? {
      assert s.cur.value in Opt(s.cur);
    }
  }

  lemma ReplaceStep(s: State, h: SnapRef, c: Change)
    requires s.intro == Built(h, c)
    ensures Enabled(s, Replace) && Next(s, Replace) == Replaces(s, h, c)
    ensures s.cur.Some? ==> Replaces(s, h, c).intro == Replaced(s.cur.value)
  {
    hide Drop, Persists, Listing, Register, EpochOf, SeqOf, PointsOf, OfKind, SetOf, Resumed;
  }

  lemma ReleaseStep(s: State, h: SnapRef)
    requires s.intro == Replaced(h)
    ensures Enabled(s, ReleasePrev) && h in Tokens(s)
  {
  }

  lemma {:induction false} RunTwo(s: State, a: Step, b: Step)
    requires Enabled(s, a) && Enabled(Next(s, a), b)
    ensures Run(s, [a, b], Next(Next(s, a), b))
  {
    hide Enabled, Next;
    assert [a, b][1..] == [b] && [b][1..] == [];
    assert Run(Next(s, a), [b], Next(Next(s, a), b));
  }

  lemma {:induction false} RunThree(s: State, a: Step, b: Step, c: Step)
    requires Enabled(s, a) && Enabled(Next(s, a), b) && Enabled(Next(Next(s, a), b), c)
    ensures Run(s, [a, b, c], Next(Next(Next(s, a), b), c))
  {
    hide Enabled, Next;
    assert [a, b, c][1..] == [b, c];
    RunTwo(Next(s, a), b, c);
  }

  lemma IntroStepsAre(s: State, h: SnapRef, c: Change)
    ensures IntroSteps(s, h, c) == if s.cur.Some? then [Build(h, c), Replace, ReleasePrev] else [Build(h, c), Replace]
  {
  }
}
