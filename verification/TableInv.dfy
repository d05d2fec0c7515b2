/** What every state of a table satisfies. */
module TableInv {
  import opened Points
  import opened Parts
  import opened Table
  import opened TableSteps
  import opened TableRefs

  // ---------- parts and their directories ----------

  ghost predicate PartsWF(parts: map<PartRef, Wrapper>, refs: map<PartRef, int>, offered: set<Point>) {
    && refs.Keys <= parts.Keys
    && (forall p :: p in parts ==> WFPart(parts[p].part) && PartPoints(parts[p].part) <= offered)
  }

  /** Among open file parts, and among open memory parts, an ID names one part. */
  ghost predicate IdsUnique(parts: map<PartRef, Wrapper>, refs: map<PartRef, int>, curPartID: nat) {
    && (forall p :: p in refs && p in parts ==> 1 <= parts[p].id <= curPartID)
    && (forall p, q :: p in refs && q in refs && p in parts && q in parts ==>
          parts[p].id == parts[q].id && parts[p].mem == parts[q].mem ==> p == q)
  }

  /** The directory of an open file part is complete and holds that part. */
  ghost predicate DirsMatch(parts: map<PartRef, Wrapper>, refs: map<PartRef, int>, dirs: map<nat, Dir>) {
    forall p :: p in refs && p in parts && !parts[p].mem ==>
      parts[p].id in dirs && dirs[parts[p].id] == Complete(parts[p].part)
  }

  ghost predicate DirsWF(dirs: map<nat, Dir>, curPartID: nat, offered: set<Point>) {
    forall d :: d in dirs ==>
      && 1 <= d <= curPartID
      && (dirs[d].Complete? ==> WFPart(dirs[d].part) && PartPoints(dirs[d].part) <= offered)
  }

  ghost predicate Disk(
    parts: map<PartRef, Wrapper>, refs: map<PartRef, int>, dirs: map<nat, Dir>, curPartID: nat, offered: set<Point>)
  {
    && PartsWF(parts, refs, offered)
    && IdsUnique(parts, refs, curPartID)
    && DirsMatch(parts, refs, dirs)
    && DirsWF(dirs, curPartID, offered)
  }

  /** Flushed parts pair up with memory parts of the same ID and content. */
  ghost predicate Paired(
    parts: map<PartRef, Wrapper>, inputs: set<PartRef>, outs: seq<PartRef>, flushed: map<nat, PartRef>)
  {
    && (forall q :: q in inputs ==> q in parts && parts[q].mem && parts[q].id in flushed)
    && (forall d :: d in flushed ==>
          flushed[d] in outs && flushed[d] in parts && !parts[flushed[d]].mem && parts[flushed[d]].id == d)
    && (forall q :: q in inputs ==> parts[flushed[parts[q].id]].part == parts[q].part)
    && (forall p :: p in outs ==>
          p in parts && parts[p].id in flushed && flushed[parts[p].id] == p && parts[p].id in IdsOf(parts, inputs))
  }

  /** A change stands for what it replaces. */
  ghost predicate ChangeOK(parts: map<PartRef, Wrapper>, c: Change) {
    && c.inputs <= parts.Keys && (forall p :: p in c.outs ==> p in parts)
    && match c.kind
       case Write => c.inputs == {} && |c.outs| == 1
       case Flush => c.inputs != {} && Paired(parts, c.inputs, c.outs, c.flushed)
       case Merge(_) =>
         && c.inputs != {} && |c.outs| == 1 && !parts[c.outs[0]].mem
         && Refines(PartPoints(parts[c.outs[0]].part), PointsOf(parts, c.inputs))
       case Sync => c.inputs != {} && c.outs == []
  }

  // ---------- the loops and the introducer ----------

  ghost predicate WritesTo(dirs: map<nat, Dir>, id: nat, purpose: Purpose) {
    id in dirs && dirs[id] == Writing(purpose)
  }

  ghost predicate WorkOK(
    parts: map<PartRef, Wrapper>, dirs: map<nat, Dir>, intro: Intro, who: Who, todo: set<PartRef>, w: Work)
  {
    match w
    case Nothing => true
    case Merging(inputs, id) => inputs != {} && inputs <= todo && WritesTo(dirs, id, ByLoop(who))
    case FlushingParts(inputs, outs, flushed, writing) =>
      && who.Flusher? && inputs <= todo && Paired(parts, inputs, outs, flushed)
      && (writing.Some? ==>
            && writing.value in todo - inputs && writing.value in parts
            && WritesTo(dirs, parts[writing.value].id, Flushing(writing.value)))
    case Sent(c) => Sender(c) == Some(who) && c.inputs <= todo && ChangeOK(parts, c)
    case Waiting => intro.Built? && Sender(intro.change) == Some(who) && intro.change.inputs <= todo
  }

  /** The flusher works on memory parts, the merger on file parts, and both on current ones. */
  ghost predicate LoopOK(
    parts: map<PartRef, Wrapper>, cur: set<PartRef>, dirs: map<nat, Dir>, intro: Intro, who: Who, l: Loop)
  {
    l.Holding? ==> l.todo <= OfKind(parts, cur, who.Flusher?) && WorkOK(parts, dirs, intro, who, l.todo, l.work)
  }

  /** The snapshot that has been built is the current one, with the inputs replaced by the outputs. */
  ghost predicate IntroOK(
    parts: map<PartRef, Wrapper>, snaps: map<SnapRef, Snap>, cur: set<PartRef>, epoch: nat, intro: Intro,
    flusher: Loop, merger: Loop)
  {
    intro.Built? ==>
      var c := intro.change;
      && ChangeOK(parts, c)
      && c.inputs <= cur && SetOf(c.outs) !! cur
      && intro.next in snaps && snaps[intro.next].epoch == epoch
      && SetOf(snaps[intro.next].parts) == cur - c.inputs + SetOf(c.outs)
      && (Sender(c) == Some(Flusher) ==> WorkOf(flusher) == Waiting)
      && (Sender(c) == Some(Merger) ==> WorkOf(merger) == Waiting)
  }

  /** The flushed parts that are not yet in the current snapshot. */
  ghost function FlushOuts(flusher: Loop, intro: Intro): set<PartRef> {
    (match WorkOf(flusher)
     case FlushingParts(_, outs, _, _) => SetOf(outs)
     case Sent(c) => (if c.kind.Flush? then SetOf(c.outs) else {})
     case _ => {})
    + (if intro.Built? && intro.change.kind.Flush? then SetOf(intro.change.outs) else {})
  }

  ghost function BuiltOuts(intro: Intro): set<PartRef> {
    if intro.Built? then SetOf(intro.change.outs) else {}
  }

  /** The parts that are current or will be. */
  ghost function Mems(s: State): set<PartRef> {
    CurParts(s) + s.pending + BuiltOuts(s.intro)
  }

  ghost predicate BeingFlushed(dirs: map<nat, Dir>, flusher: Loop, id: nat, q: PartRef) {
    && WorkOf(flusher).FlushingParts? && WorkOf(flusher).writing == Some(q)
    && WritesTo(dirs, id, Flushing(q))
  }

  /** A memory part that is or will be current has a directory only while it is being flushed. */
  ghost predicate MemDirs(
    parts: map<PartRef, Wrapper>, mems: set<PartRef>, dirs: map<nat, Dir>, flusher: Loop, intro: Intro)
  {
    forall q :: q in mems && q in parts && parts[q].mem && parts[q].id in dirs ==>
      BeingFlushed(dirs, flusher, parts[q].id, q) || parts[q].id in IdsOf(parts, FlushOuts(flusher, intro))
  }

  // ---------- persistence ----------

  /** The IDs in the newest snapshot file. */
  ghost function Listed(snps: map<nat, seq<nat>>, gc: Gc): set<nat> {
    if gc.live in snps then SetOf(snps[gc.live]) else {}
  }

  /** An open part marked for removal has left the current snapshot and the newest file, or is about to. */
  ghost predicate Removal(
    parts: map<PartRef, Wrapper>, refs: map<PartRef, int>, removable: set<PartRef>, cur: set<PartRef>,
    extra: multiset<PartRef>, intro: Intro, listed: set<nat>)
  {
    removable <= parts.Keys && forall p :: p in removable && p in refs ==>
      && p !in extra && (intro.Built? ==> p !in intro.change.outs)
      && (|| (intro.Built? && p in intro.change.inputs)
          || (p !in cur && (parts[p].mem || parts[p].id !in listed)))
  }

  /** Epochs increase, and the newest file is the live one, which is never up for deletion. */
  ghost predicate Epochs(snps: map<nat, seq<nat>>, gc: Gc, epoch: nat) {
    && 1 <= epoch && (forall e :: e in snps ==> 1 <= e < epoch) && gc.live < epoch
    && (gc.live == 0 ==> snps == map[])
    && (gc.live > 0 ==> IsNewest(gc.live, snps))
    && (forall e :: e in gc.deletable ==> e < gc.live)
  }

  /** The newest file lists every current file part, and nothing that is being removed. */
  ghost predicate Durable(parts: map<PartRef, Wrapper>, cur: set<PartRef>, dirs: map<nat, Dir>, listed: set<nat>) {
    && IdsOf(parts, OfKind(parts, cur, false)) <= listed
    && (forall d :: d in listed && d in dirs ==> !dirs[d].Deleting?)
  }

  // ---------- what readers see ----------

  ghost predicate View(
    parts: map<PartRef, Wrapper>, cur: set<PartRef>, offered: set<Point>, introduced: set<Point>,
    handedOff: set<Point>, flushedEver: set<Point>)
  {
    && Refines(PointsOf(parts, cur) + handedOff, introduced) && introduced <= offered
    && Dominates(PointsOf(parts, OfKind(parts, cur, false)) + handedOff, flushedEver) && flushedEver <= offered
  }

  ghost predicate Inv(s: State) {
    && Counted(s.snaps, s.srefs, s.refs, Tokens(s), Extra(s))
    && Disk(s.parts, s.refs, s.dirs, s.curPartID, s.offered)
    && LoopOK(s.parts, CurParts(s), s.dirs, s.intro, Flusher, s.flusher)
    && LoopOK(s.parts, CurParts(s), s.dirs, s.intro, Merger, s.merger)
    && IntroOK(s.parts, s.snaps, CurParts(s), s.epoch, s.intro, s.flusher, s.merger)
    && MemDirs(s.parts, Mems(s), s.dirs, s.flusher, s.intro)
    && Removal(s.parts, s.refs, s.removable, CurParts(s), Extra(s), s.intro, Listed(s.snps, s.gc))
    && Epochs(s.snps, s.gc, s.epoch)
    && Durable(s.parts, CurParts(s), s.dirs, Listed(s.snps, s.gc))
    && View(s.parts, CurParts(s), s.offered, s.introduced, s.handedOff, s.flushedEver)
  }

  // Proofs that hide the definitions take the invariant apart and put it together with these.

  lemma Unpack(s: State)
    requires Inv(s)
    ensures Counted(s.snaps, s.srefs, s.refs, Tokens(s), Extra(s))
    ensures Disk(s.parts, s.refs, s.dirs, s.curPartID, s.offered)
    ensures LoopOK(s.parts, CurParts(s), s.dirs, s.intro, Flusher, s.flusher)
    ensures LoopOK(s.parts, CurParts(s), s.dirs, s.intro, Merger, s.merger)
    ensures IntroOK(s.parts, s.snaps, CurParts(s), s.epoch, s.intro, s.flusher, s.merger)
    ensures MemDirs(s.parts, Mems(s), s.dirs, s.flusher, s.intro)
    ensures Removal(s.parts, s.refs, s.removable, CurParts(s), Extra(s), s.intro, Listed(s.snps, s.gc))
    ensures Epochs(s.snps, s.gc, s.epoch)
    ensures Durable(s.parts, CurParts(s), s.dirs, Listed(s.snps, s.gc))
    ensures View(s.parts, CurParts(s), s.offered, s.introduced, s.handedOff, s.flushedEver)
  {
  }

  lemma Pack(s: State)
    requires Counted(s.snaps, s.srefs, s.refs, Tokens(s), Extra(s))
    requires Disk(s.parts, s.refs, s.dirs, s.curPartID, s.offered)
    requires LoopOK(s.parts, CurParts(s), s.dirs, s.intro, Flusher, s.flusher)
    requires LoopOK(s.parts, CurParts(s), s.dirs, s.intro, Merger, s.merger)
    requires IntroOK(s.parts, s.snaps, CurParts(s), s.epoch, s.intro, s.flusher, s.merger)
    requires MemDirs(s.parts, Mems(s), s.dirs, s.flusher, s.intro)
    requires Removal(s.parts, s.refs, s.removable, CurParts(s), Extra(s), s.intro, Listed(s.snps, s.gc))
    requires Epochs(s.snps, s.gc, s.epoch)
    requires Durable(s.parts, CurParts(s), s.dirs, Listed(s.snps, s.gc))
    requires View(s.parts, CurParts(s), s.offered, s.introduced, s.handedOff, s.flushedEver)
    ensures Inv(s)
  {
  }

  // ---------- first consequences ----------

  lemma CurOpen(s: State)
    requires Counted(s.snaps, s.srefs, s.refs, Tokens(s), Extra(s))
    requires Disk(s.parts, s.refs, s.dirs, s.curPartID, s.offered)
    ensures CurParts(s) <= s.refs.Keys <= s.parts.Keys
    ensures s.cur.Some? ==> s.cur.value in s.srefs && s.cur.value in s.snaps && s.cur.value in Tokens(s)
    ensures NoDup(CurSeq(s))
    ensures forall p :: p in Extra(s) ==> p in s.refs && p !in CurParts(s) && Extra(s)[p] == 1
  {
    if s.cur.Some? {
      assert s.cur.value in Opt(s.cur);
      assert s.cur.value in Tokens(s);
      forall p | p in Extra(s) ensures p !in CurParts(s) && Extra(s)[p] == 1 {
        ExtraUnheld(s.snaps, s.srefs, s.refs, Tokens(s), Extra(s), p, s.cur.value);
      }
    }
  }
}
