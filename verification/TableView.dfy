/** What readers see is kept by every change of the snapshot, and so is what has been persisted. */
module TableView {
  import opened Points
  import opened Parts
  import opened Table
  import opened TableSteps
  import opened TableInv
  import opened TableRefs
  import opened TableReplace

  lemma PointsUnion(parts: map<PartRef, Wrapper>, a: set<PartRef>, b: set<PartRef>)
    ensures PointsOf(parts, a + b) == PointsOf(parts, a) + PointsOf(parts, b)
  {
  }

  lemma PointsOfOne(parts: map<PartRef, Wrapper>, p: PartRef)
    requires p in parts
    ensures PointsOf(parts, {p}) == PartPoints(parts[p].part)
  {
  }

  lemma OfferedPoints(parts: map<PartRef, Wrapper>, refs: map<PartRef, int>, offered: set<Point>, ps: set<PartRef>)
    requires PartsWF(parts, refs, offered)
    ensures PointsOf(parts, ps) <= offered
  {
    hide WFPart, PartPoints;
  }

  /** Flushed parts hold the points of the memory parts, merged parts refine the points of their inputs. */
  lemma OutsRefine(parts: map<PartRef, Wrapper>, c: Change)
    requires ChangeOK(parts, c) && (c.kind.Flush? || c.kind.Merge?)
    ensures Refines(PointsOf(parts, SetOf(c.outs)), PointsOf(parts, c.inputs))
  {
    hide Refines, PartPoints, IdsOf;
    if c.kind.Merge? {
      assert SetOf(c.outs) == {c.outs[0]};
      PointsOfOne(parts, c.outs[0]);
    } else {
      FlushedPoints(parts, c.inputs, c.outs, c.flushed);
      RefinesReflexive(PointsOf(parts, c.inputs));
    }
  }

  lemma FlushedPoints(parts: map<PartRef, Wrapper>, inputs: set<PartRef>, outs: seq<PartRef>, flushed: map<nat, PartRef>)
    requires Paired(parts, inputs, outs, flushed)
    ensures PointsOf(parts, SetOf(outs)) == PointsOf(parts, inputs)
  {
    hide PartPoints, PointsOf;
    forall p | p in SetOf(outs) && p in parts ensures HasPart(parts, inputs, parts[p].part) {
      assert parts[p].id in IdsOf(parts, inputs);
      var q :| q in inputs && IdOf(parts, q) == parts[p].id;
      assert parts[q].part == parts[p].part;
    }
    forall q | q in inputs && q in parts ensures HasPart(parts, SetOf(outs), parts[q].part) {
      assert flushed[parts[q].id] in SetOf(outs);
    }
    PointsWithin(parts, SetOf(outs), inputs);
    PointsWithin(parts, inputs, SetOf(outs));
  }

  ghost predicate HasPart(parts: map<PartRef, Wrapper>, ps: set<PartRef>, part: Part) {
    exists q :: q in ps && q in parts && parts[q].part == part
  }

  lemma PointsWithin(parts: map<PartRef, Wrapper>, a: set<PartRef>, b: set<PartRef>)
    requires forall p :: p in a && p in parts ==> HasPart(parts, b, parts[p].part)
    ensures PointsOf(parts, a) <= PointsOf(parts, b)
  {
    hide PartPoints;
    forall x | x in PointsOf(parts, a) ensures x in PointsOf(parts, b) {
      var p :| p in a && p in parts && x in PartPoints(parts[p].part);
      assert HasPart(parts, b, parts[p].part);
    }
  }

  // ---------- what readers see ----------

  lemma ViewSplit(parts: map<PartRef, Wrapper>, cur: set<PartRef>, c: Change)
    requires c.inputs <= cur
    ensures PointsOf(parts, cur) == PointsOf(parts, cur - c.inputs) + PointsOf(parts, c.inputs)
    ensures PointsOf(parts, NextParts(cur, c)) == PointsOf(parts, cur - c.inputs) + PointsOf(parts, SetOf(c.outs))
  {
    hide PointsOf;
    assert cur == cur - c.inputs + c.inputs;
    PointsUnion(parts, cur - c.inputs, c.inputs);
    PointsUnion(parts, cur - c.inputs, SetOf(c.outs));
  }

  lemma SwapRefines(k: set<Point>, i: set<Point>, o: set<Point>, h: set<Point>, n: set<Point>)
    requires Refines(k + i + h, n) && Refines(o, i)
    ensures Refines(k + o + h, n)
  {
    hide Refines;
    RefinesReflexive(k + h);
    RefinesUnion(o, i, k + h, k + h);
    assert o + (k + h) == k + o + h && i + (k + h) == k + i + h;
    RefinesTransitive(k + o + h, k + i + h, n);
  }

  lemma ReplacedPoints(
    parts: map<PartRef, Wrapper>, cur: set<PartRef>, c: Change, introduced: set<Point>, handedOff: set<Point>)
    requires ChangeOK(parts, c) && c.inputs <= cur && Refines(PointsOf(parts, cur) + handedOff, introduced)
    ensures Refines(
      PointsOf(parts, NextParts(cur, c)) + (if c.kind.Sync? then handedOff + PointsOf(parts, c.inputs) else handedOff),
      if c.kind.Write? then introduced + PointsOf(parts, SetOf(c.outs)) else introduced)
  {
    hide PointsOf, Refines, Paired, NextParts;
    ViewSplit(parts, cur, c);
    var k, i, o := PointsOf(parts, cur - c.inputs), PointsOf(parts, c.inputs), PointsOf(parts, SetOf(c.outs));
    match c.kind
    case Write =>
      RefinesReflexive(o);
      RefinesUnion(k + i + handedOff, introduced, o, o);
      NoPoints(parts);
      assert k + i + handedOff + o == k + o + handedOff;
    case Sync =>
      NoPoints(parts);
      assert SetOf(c.outs) == {};
      assert k + o + (handedOff + i) == k + i + handedOff;
    case _ =>
      OutsRefine(parts, c);
      SwapRefines(k, i, o, handedOff, introduced);
  }

  lemma NoPoints(parts: map<PartRef, Wrapper>)
    ensures PointsOf(parts, {}) == {}
  {
  }

  // ---------- what has been persisted ----------

  lemma ReplacedFiles(parts: map<PartRef, Wrapper>, cur: set<PartRef>, c: Change, handedOff: set<Point>)
    requires ChangeOK(parts, c) && c.inputs <= cur
    ensures Dominates(
      PointsOf(parts, OfKind(parts, NextParts(cur, c), false))
        + (if c.kind.Sync? then handedOff + PointsOf(parts, c.inputs) else handedOff),
      PointsOf(parts, OfKind(parts, cur, false)) + handedOff)
  {
    hide Refines, Dominates, IdsOf, PartPoints;
    var files', h := PointsOf(parts, OfKind(parts, NextParts(cur, c), false)), handedOff;
    var kept := PointsOf(parts, OfKind(parts, cur, false) - c.inputs);
    var gone := PointsOf(parts, OfKind(parts, cur, false) * c.inputs);
    assert OfKind(parts, cur, false) == OfKind(parts, cur, false) - c.inputs + OfKind(parts, cur, false) * c.inputs;
    PointsUnion(parts, OfKind(parts, cur, false) - c.inputs, OfKind(parts, cur, false) * c.inputs);
    PointsMore(parts, OfKind(parts, cur, false) - c.inputs, OfKind(parts, NextParts(cur, c), false));
    SubsetDominates(files' + h, kept + h);
    assert kept + h + gone == PointsOf(parts, OfKind(parts, cur, false)) + h;
    match c.kind
    case Merge(_) =>
      OutsRefine(parts, c);
      PointsMore(parts, SetOf(c.outs), OfKind(parts, NextParts(cur, c), false));
      PointsMore(parts, OfKind(parts, cur, false) * c.inputs, c.inputs);
      RefinesDominates(PointsOf(parts, SetOf(c.outs)), PointsOf(parts, c.inputs));
      DominatesGrows(PointsOf(parts, SetOf(c.outs)), PointsOf(parts, c.inputs), files', gone);
      DominatesUnion(files' + h, kept + h, files', gone);
      assert files' + h + files' == files' + h;
    case Sync =>
      PointsMore(parts, OfKind(parts, cur, false) * c.inputs, c.inputs);
      SubsetDominates(files' + (h + PointsOf(parts, c.inputs)), kept + h + gone);
    case _ =>
      assert OfKind(parts, cur, false) * c.inputs == {};
      NoPoints(parts);
      assert kept + h + gone == kept + h;
  }

  lemma PointsMore(parts: map<PartRef, Wrapper>, a: set<PartRef>, b: set<PartRef>)
    requires a <= b
    ensures PointsOf(parts, a) <= PointsOf(parts, b)
  {
  }

  lemma SubsetDominates(a: set<Point>, b: set<Point>)
    requires b <= a
    ensures Dominates(a, b)
  {
    RefinesReflexive(a);
    DominatesGrows(a, a, a, b);
  }

  lemma RefinesDominates(a: set<Point>, b: set<Point>)
    requires Refines(a, b)
    ensures Dominates(a, b)
  {
  }

  lemma ReplacedView(s: State, next: SnapRef, c: Change)
    requires Inv(s) && s.intro == Built(next, c)
    ensures var t := Replaces(s, next, c);
      View(s.parts, NextParts(CurParts(s), c), s.offered, t.introduced, t.handedOff, t.flushedEver)
  {
    hide Counted, IdsUnique, DirsMatch, DirsWF, LoopOK, IntroOK, MemDirs, Removal, Epochs, Durable, ChangeOK, PointsOf, OfKind,
         Refines, Dominates, CurParts, NextParts, Persists, Drop, Register, Listing, WFPart, PartPoints, SetOf;
    BuiltWork(s, next, c);
    var cur, nxt, t := CurParts(s), NextParts(CurParts(s), c), Replaces(s, next, c);
    ReplacedPoints(s.parts, cur, c, s.introduced, s.handedOff);
    OfferedPoints(s.parts, s.refs, s.offered, SetOf(c.outs));
    OfferedPoints(s.parts, s.refs, s.offered, OfKind(s.parts, nxt, false));
    ReplacedFiles(s.parts, cur, c, s.handedOff);
    var files' := PointsOf(s.parts, OfKind(s.parts, nxt, false));
    DominatesTransitive(files' + t.handedOff, PointsOf(s.parts, OfKind(s.parts, cur, false)) + s.handedOff, s.flushedEver);
    SubsetDominates(files' + t.handedOff, files');
    DominatesUnion(files' + t.handedOff, s.flushedEver, files' + t.handedOff, files');
    assert files' + t.handedOff + (files' + t.handedOff) == files' + t.handedOff;
  }

  // ---------- the step ----------

  lemma ReplacesIs(s: State, next: SnapRef, c: Change)
    requires var d := if s.cur.Some? then Drop(s, s.cur.value) else s; d == s.(srefs := d.srefs)
    ensures var t := Replaces(s, next, c); var d := if s.cur.Some? then Drop(s, s.cur.value) else s;
      && t == s.(srefs := d.srefs, cur := Some(next), epoch := s.epoch + 1, intro := AfterIntro(s.cur),
                 flusher := Resumed(s.flusher, Flusher, c), merger := Resumed(s.merger, Merger, c),
                 snps := t.snps, gc := t.gc, introduced := t.introduced, handedOff := t.handedOff, flushedEver := t.flushedEver)
      && CurParts(t) == SetOf(SeqOf(s.snaps, next)) && Mems(t) == SetOf(SeqOf(s.snaps, next)) + s.pending
      && Tokens(t) == TokensOf(s.readers, t.cur, t.intro, t.flusher, t.merger)
      && Extra(t) == ExtraOf(s.pending, t.flusher, t.merger) && !t.intro.Built?
  {
    hide Persists, Listing, Register, PointsOf, OfKind, SetOf, Resumed, TokensOf, ExtraOf, Drop, SeqOf;
  }

  lemma ResumedExtra(s: State, next: SnapRef, c: Change)
    requires Sender(c) == Some(Flusher) ==> WorkOf(s.flusher) == Waiting
    requires Sender(c) == Some(Merger) ==> WorkOf(s.merger) == Waiting
    ensures ExtraOf(s.pending, Resumed(s.flusher, Flusher, c), Resumed(s.merger, Merger, c)) == Extra(s)
  {
    assert Outs(Resumed(s.flusher, Flusher, c)) == Outs(s.flusher);
    assert Outs(Resumed(s.merger, Merger, c)) == Outs(s.merger);
  }

  lemma NoIntro(
    parts: map<PartRef, Wrapper>, snaps: map<SnapRef, Snap>, cur: set<PartRef>, epoch: nat, intro: Intro, flusher: Loop,
    merger: Loop)
    requires !intro.Built?
    ensures IntroOK(parts, snaps, cur, epoch, intro, flusher, merger)
  {
  }

  lemma ReplaceKeeps(s: State, next: SnapRef, c: Change)
    requires Inv(s) && s.intro == Built(next, c)
    ensures Inv(Replaces(s, next, c))
  {
    hide *;
    Unpack(s);
    BuiltWork(s, next, c);
    var t, nxt := Replaces(s, next, c), NextParts(CurParts(s), c);
    ReplaceClosesNothing(s, next, c);
    ReplacesIs(s, next, c);
    ResumedExtra(s, next, c);
    if Sender(c) != Some(Flusher) { OtherKind(s, next, c, Flusher); }
    if Sender(c) != Some(Merger) { OtherKind(s, next, c, Merger); }
    ResumedLoop(s.parts, CurParts(s), s.dirs, next, c, Flusher, s.flusher, t.intro);
    ResumedLoop(s.parts, CurParts(s), s.dirs, next, c, Merger, s.merger, t.intro);
    NoIntro(t.parts, t.snaps, CurParts(t), t.epoch, t.intro, t.flusher, t.merger);
    ReplacedMems(s, next, c, t.intro);
    ReplacedRemoval(s, next, c, t.intro);
    ReplacedEpochs(s, next, c);
    ReplacedDurable(s, next, c);
    ReplacedView(s, next, c);
    Pack(t);
  }
}
