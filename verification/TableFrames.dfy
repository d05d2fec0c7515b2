/** How the parts of the invariant survive a new wrapper and a change of directories. */
module TableFrames {
  import opened Points
  import opened Parts
  import opened Table
  import opened TableSteps
  import opened TableRefs
  import opened TableInv

  // ---------- a new wrapper ----------

  lemma PointsGrow(parts: map<PartRef, Wrapper>, p: PartRef, w: Wrapper, ps: set<PartRef>)
    requires p !in parts && p !in ps
    ensures PointsOf(parts[p := w], ps) == PointsOf(parts, ps)
    ensures forall mem :: OfKind(parts[p := w], ps, mem) == OfKind(parts, ps, mem)
    ensures IdsOf(parts[p := w], ps) == IdsOf(parts, ps)
  {
    forall q | q in ps ensures IdOf(parts[p := w], q) == IdOf(parts, q) { }
  }

  lemma PairedGrows(
    parts: map<PartRef, Wrapper>, p: PartRef, w: Wrapper, inputs: set<PartRef>, outs: seq<PartRef>, flushed: map<nat, PartRef>)
    requires p !in parts && Paired(parts, inputs, outs, flushed)
    ensures Paired(parts[p := w], inputs, outs, flushed)
  {
    hide IdsOf, IdOf;
    PointsGrow(parts, p, w, inputs);
  }

  lemma ChangeGrows(parts: map<PartRef, Wrapper>, p: PartRef, w: Wrapper, c: Change)
    requires p !in parts && ChangeOK(parts, c)
    ensures ChangeOK(parts[p := w], c)
  {
    PointsGrow(parts, p, w, c.inputs);
    if c.kind.Flush? {
      PairedGrows(parts, p, w, c.inputs, c.outs, c.flushed);
    }
  }

  lemma LoopGrows(
    parts: map<PartRef, Wrapper>, p: PartRef, w: Wrapper, cur: set<PartRef>, dirs: map<nat, Dir>, intro: Intro, who: Who,
    l: Loop)
    requires p !in parts && cur <= parts.Keys && LoopOK(parts, cur, dirs, intro, who, l)
    ensures LoopOK(parts[p := w], cur, dirs, intro, who, l)
  {
    hide Paired, ChangeOK;
    if l.Holding? {
      PointsGrow(parts, p, w, cur);
      match l.work
      case FlushingParts(inputs, outs, flushed, _) => PairedGrows(parts, p, w, inputs, outs, flushed);
      case Sent(c) => ChangeGrows(parts, p, w, c);
      case _ =>
    }
  }

  lemma IntroGrows(
    parts: map<PartRef, Wrapper>, p: PartRef, w: Wrapper, snaps: map<SnapRef, Snap>, cur: set<PartRef>, epoch: nat,
    intro: Intro, flusher: Loop, merger: Loop)
    requires p !in parts && IntroOK(parts, snaps, cur, epoch, intro, flusher, merger)
    ensures IntroOK(parts[p := w], snaps, cur, epoch, intro, flusher, merger)
  {
    hide ChangeOK;
    if intro.Built? {
      ChangeGrows(parts, p, w, intro.change);
    }
  }

  lemma RemovalGrows(
    parts: map<PartRef, Wrapper>, p: PartRef, w: Wrapper, refs: map<PartRef, int>, removable: set<PartRef>,
    cur: set<PartRef>, extra: multiset<PartRef>, intro: Intro, listed: set<nat>)
    requires p !in parts && Removal(parts, refs, removable, cur, extra, intro, listed)
    ensures Removal(parts[p := w], refs[p := 1], removable, cur, extra + multiset{p}, intro, listed)
  {
  }

  lemma DurableGrows(
    parts: map<PartRef, Wrapper>, p: PartRef, w: Wrapper, cur: set<PartRef>, dirs: map<nat, Dir>, listed: set<nat>)
    requires p !in parts && cur <= parts.Keys && Durable(parts, cur, dirs, listed)
    ensures Durable(parts[p := w], cur, dirs, listed)
  {
    PointsGrow(parts, p, w, cur);
    PointsGrow(parts, p, w, OfKind(parts, cur, false));
  }

  lemma ViewGrows(
    parts: map<PartRef, Wrapper>, p: PartRef, w: Wrapper, cur: set<PartRef>, offered: set<Point>, introduced: set<Point>,
    handedOff: set<Point>, flushedEver: set<Point>, more: set<Point>)
    requires p !in parts && cur <= parts.Keys && View(parts, cur, offered, introduced, handedOff, flushedEver)
    ensures View(parts[p := w], cur, offered + more, introduced, handedOff, flushedEver)
  {
    PointsGrow(parts, p, w, cur);
    PointsGrow(parts, p, w, OfKind(parts, cur, false));
  }

  /** A memory part with a new ID, or a file part, in the room of a wrapper to be. */
  lemma MemDirsGrow(
    parts: map<PartRef, Wrapper>, p: PartRef, w: Wrapper, mems: set<PartRef>, dirs: map<nat, Dir>, flusher: Loop,
    intro: Intro)
    requires p !in parts && mems <= parts.Keys && FlushOuts(flusher, intro) <= parts.Keys
    requires MemDirs(parts, mems, dirs, flusher, intro)
    requires w.mem ==> w.id !in dirs
    ensures MemDirs(parts[p := w], mems + {p}, dirs, flusher, intro)
  {
    PointsGrow(parts, p, w, FlushOuts(flusher, intro));
  }

  // ---------- directories ----------

  /** What the flusher is flushing to, and what a loop is merging to, is untouched. */
  ghost predicate FlushKept(dirs: map<nat, Dir>, dirs': map<nat, Dir>) {
    forall d, q :: WritesTo(dirs, d, Flushing(q)) ==> WritesTo(dirs', d, Flushing(q))
  }

  ghost predicate MergeKept(dirs: map<nat, Dir>, dirs': map<nat, Dir>, who: Who) {
    forall d :: WritesTo(dirs, d, ByLoop(who)) ==> WritesTo(dirs', d, ByLoop(who))
  }

  ghost predicate WritesKept(dirs: map<nat, Dir>, dirs': map<nat, Dir>) {
    FlushKept(dirs, dirs') && MergeKept(dirs, dirs', Flusher) && MergeKept(dirs, dirs', Merger)
  }

  lemma LoopDirs(
    parts: map<PartRef, Wrapper>, cur: set<PartRef>, dirs: map<nat, Dir>, dirs': map<nat, Dir>, intro: Intro, who: Who,
    l: Loop)
    requires LoopOK(parts, cur, dirs, intro, who, l) && (FlushKept(dirs, dirs') || who.Merger?)
    requires MergeKept(dirs, dirs', who) || !WorkOf(l).Merging?
    ensures LoopOK(parts, cur, dirs', intro, who, l)
  {
    hide Paired, ChangeOK, OfKind;
  }

  lemma MemDirsDirs(
    parts: map<PartRef, Wrapper>, mems: set<PartRef>, dirs: map<nat, Dir>, dirs': map<nat, Dir>, flusher: Loop,
    intro: Intro)
    requires MemDirs(parts, mems, dirs, flusher, intro) && FlushKept(dirs, dirs')
    requires forall q :: q in mems && q in parts && parts[q].mem && parts[q].id in dirs' ==> parts[q].id in dirs
    ensures MemDirs(parts, mems, dirs', flusher, intro)
  {
    hide FlushOuts, IdsOf;
  }

  lemma DurableDirs(
    parts: map<PartRef, Wrapper>, cur: set<PartRef>, dirs: map<nat, Dir>, dirs': map<nat, Dir>, listed: set<nat>)
    requires Durable(parts, cur, dirs, listed)
    requires forall d :: d in dirs' && dirs'[d].Deleting? ==> d in dirs && dirs[d].Deleting?
    ensures Durable(parts, cur, dirs', listed)
  {
  }

  /** A memory part with the next ID. */
  lemma DiskAddMem(
    parts: map<PartRef, Wrapper>, refs: map<PartRef, int>, dirs: map<nat, Dir>, curPartID: nat, offered: set<Point>,
    p: PartRef, part: Part)
    requires Disk(parts, refs, dirs, curPartID, offered) && p !in parts && WFPart(part)
    ensures Disk(parts[p := Wrapper(curPartID + 1, true, part)], refs[p := 1], dirs, curPartID + 1,
                 offered + PartPoints(part))
  {
    hide WFPart, PartPoints;
  }

  /** A file part in a directory that has been written. */
  lemma DiskAddFile(
    parts: map<PartRef, Wrapper>, refs: map<PartRef, int>, dirs: map<nat, Dir>, curPartID: nat, offered: set<Point>,
    p: PartRef, id: nat, part: Part)
    requires Disk(parts, refs, dirs, curPartID, offered) && p !in parts && WFPart(part)
    requires id in dirs && dirs[id].Writing?
    ensures Disk(parts[p := Wrapper(id, false, part)], refs[p := 1], dirs[id := Complete(part)], curPartID,
                 offered + PartPoints(part))
  {
    hide WFPart, PartPoints;
  }

  lemma DiskOpen(
    parts: map<PartRef, Wrapper>, refs: map<PartRef, int>, dirs: map<nat, Dir>, curPartID: nat, offered: set<Point>,
    purpose: Purpose)
    requires Disk(parts, refs, dirs, curPartID, offered)
    ensures Disk(parts, refs, dirs[curPartID + 1 := Writing(purpose)], curPartID + 1, offered)
    ensures WritesKept(dirs, dirs[curPartID + 1 := Writing(purpose)])
  {
    hide WFPart, PartPoints;
  }

  /** A directory that holds no complete part is written to or disappears. */
  lemma DiskOther(
    parts: map<PartRef, Wrapper>, refs: map<PartRef, int>, dirs: map<nat, Dir>, curPartID: nat, offered: set<Point>,
    id: nat, purpose: Purpose)
    requires Disk(parts, refs, dirs, curPartID, offered) && 1 <= id <= curPartID
    requires id in dirs ==> !dirs[id].Complete?
    ensures Disk(parts, refs, dirs[id := Writing(purpose)], curPartID, offered)
    ensures Disk(parts, refs, dirs - {id}, curPartID, offered)
  {
    hide WFPart, PartPoints;
  }

  // ---------- closing a snapshot ----------

  /** An open part is not among those whose directory goes. */
  lemma DoomedClosed(
    parts: map<PartRef, Wrapper>, refs: map<PartRef, int>, removable: set<PartRef>, ps: seq<PartRef>, curPartID: nat,
    d: nat) returns (p: PartRef)
    requires IdsUnique(parts, refs, curPartID)
    requires d in Doomed(parts, refs, removable, ps)
    ensures p in removable && p in parts && parts[p].id == d && !parts[p].mem && p in refs && p !in Unref(refs, ps)
    ensures forall q :: q in Unref(refs, ps) && q in parts && !parts[q].mem ==> parts[q].id != d
  {
    p :| p in refs && p in parts && p in ps && refs[p] <= 1 && !parts[p].mem && p in removable && parts[p].id == d;
  }

  lemma DiskDrop(
    parts: map<PartRef, Wrapper>, refs: map<PartRef, int>, removable: set<PartRef>, ps: seq<PartRef>,
    dirs: map<nat, Dir>, curPartID: nat, offered: set<Point>)
    requires Disk(parts, refs, dirs, curPartID, offered)
    ensures Disk(parts, Unref(refs, ps), RemoveDirs(dirs, Doomed(parts, refs, removable, ps)), curPartID, offered)
  {
    hide WFPart, PartPoints;
    var refs', doomed := Unref(refs, ps), Doomed(parts, refs, removable, ps);
    assert DirsMatch(parts, refs', RemoveDirs(dirs, doomed)) by {
      forall q | q in refs' && q in parts && !parts[q].mem ensures parts[q].id !in doomed {
        if parts[q].id in doomed {
          var p := DoomedClosed(parts, refs, removable, ps, curPartID, parts[q].id);
        }
      }
    }
    assert IdsUnique(parts, refs', curPartID);
  }

  lemma WritesDrop(
    parts: map<PartRef, Wrapper>, refs: map<PartRef, int>, removable: set<PartRef>, ps: seq<PartRef>,
    dirs: map<nat, Dir>, curPartID: nat)
    requires IdsUnique(parts, refs, curPartID) && DirsMatch(parts, refs, dirs)
    ensures WritesKept(dirs, RemoveDirs(dirs, Doomed(parts, refs, removable, ps)))
  {
    var doomed := Doomed(parts, refs, removable, ps);
    forall d, purpose | WritesTo(dirs, d, purpose) ensures WritesTo(RemoveDirs(dirs, doomed), d, purpose) {
      if d in doomed {
        var p := DoomedClosed(parts, refs, removable, ps, curPartID, d);
      }
    }
  }

  /** A directory that goes is not in the newest snapshot file. */
  lemma DurableDrop(
    parts: map<PartRef, Wrapper>, refs: map<PartRef, int>, removable: set<PartRef>, ps: seq<PartRef>, cur: set<PartRef>,
    dirs: map<nat, Dir>, curPartID: nat, extra: multiset<PartRef>, intro: Intro, listed: set<nat>)
    requires IdsUnique(parts, refs, curPartID)
    requires Removal(parts, refs, removable, cur, extra, intro, listed)
    requires Durable(parts, cur, dirs, listed)
    requires cur <= Unref(refs, ps).Keys && (intro.Built? ==> intro.change.inputs <= cur)
    ensures Durable(parts, cur, RemoveDirs(dirs, Doomed(parts, refs, removable, ps)), listed)
  {
    hide OfKind, IdsOf;
    var doomed := Doomed(parts, refs, removable, ps);
    forall d | d in listed && d in dirs ensures d !in doomed {
      if d in doomed {
        var p := DoomedClosed(parts, refs, removable, ps, curPartID, d);
      }
    }
  }

  lemma RemovalLess(
    parts: map<PartRef, Wrapper>, refs: map<PartRef, int>, refs': map<PartRef, int>, removable: set<PartRef>,
    cur: set<PartRef>, extra: multiset<PartRef>, intro: Intro, listed: set<nat>)
    requires Removal(parts, refs, removable, cur, extra, intro, listed) && refs'.Keys <= refs.Keys
    ensures Removal(parts, refs', removable, cur, extra, intro, listed)
  {
  }
}
