/** The steps of the snapshot protocol, any of which may interleave, and its runs. */
module TableSteps {
  import opened Points
  import opened Parts
  import opened Table

  datatype Step =
    // writers, and receivers of synced parts; `p` names the new wrapper
    | PrepareMem(p: PartRef, part: Part)
    | ReceiveBegin
    | ReceiveAbort(id: nat)
    | ReceiveFinish(id: nat, p: PartRef, part: Part)
    // the introducer; `h` names the new snapshot
    | Build(h: SnapRef, change: Change)
    | Replace
    | ReleasePrev
    | Clean(failed: set<nat>)
    // readers
    | Acquire
    | Release(h: SnapRef)
    // the flusher and the merger
    | LoopAcquire(who: Who)
    | MergeBegin(who: Who, inputs: set<PartRef>)
    | MergeDone(who: Who, p: PartRef, part: Part)
    | MergeFail(who: Who)
    | FlushBegin(q: PartRef)
    | FlushEnd(p: PartRef)
    | FlushSend
    | SyncSend(inputs: set<PartRef>)
    | LoopRelease(who: Who)
    // the removal of a directory completes
    | Removed(id: nat)
    // process death, attempts to start that die on the way, and restart; `order` is the order in
    // which the directory lists its entries
    | Crash(clock: nat, tries: seq<Attempt>, looksValid: set<nat>, order: seq<nat>)

  /** An attempt to start that dies: the directories that looked valid to it, and the disk it leaves. */
  datatype Attempt = Attempt(looksValid: set<nat>, dirs: map<nat, Dir>, snps: map<nat, seq<nat>>)

  // ---------- adding wrappers and directories ----------

  /** A new file part: its directory is complete and its wrapper open. */
  function AddFile(s: State, p: PartRef, id: nat, part: Part): State {
    s.(parts := s.parts[p := Wrapper(id, false, part)], refs := s.refs[p := 1], dirs := s.dirs[id := Complete(part)])
  }

  /** A new ID and a directory for it. */
  function OpenDir(s: State, purpose: Purpose): State {
    s.(curPartID := s.curPartID + 1, dirs := s.dirs[s.curPartID + 1 := Writing(purpose)])
  }

  /** mustAddMemPart, up to the point where the introducer takes the part. */
  ghost function Prepares(s: State, p: PartRef, part: Part): State {
    s.(parts := s.parts[p := Wrapper(s.curPartID + 1, true, part)], refs := s.refs[p := 1],
       curPartID := s.curPartID + 1, pending := s.pending + {p}, offered := s.offered + PartPoints(part))
  }

  /** FinishSync and mustAddFilePart. */
  ghost function Receives(s: State, id: nat, p: PartRef, part: Part): State {
    AddFile(s, p, id, part).(pending := s.pending + {p}, offered := s.offered + PartPoints(part))
  }

  function Working(l: Loop, w: Work): Loop {
    if l.Holding? then l.(work := w) else l
  }

  function WithWork(s: State, who: Who, w: Work): State {
    WithLoop(s, who, Working(LoopOf(s, who), w))
  }

  // ---------- the introducer ----------

  function WriteChange(p: PartRef): Change {
    Change(Write, {}, [p], map[])
  }

  /** The sender hands its change to the introducer: a loop waits, a pending part is no longer pending. */
  function Taken(l: Loop, who: Who, c: Change): Loop {
    if Sender(c) == Some(who) then Working(l, Waiting) else l
  }

  ghost function TakenPending(pending: set<PartRef>, c: Change): set<PartRef> {
    if Sender(c).None? then pending - SetOf(c.outs) else pending
  }

  /** currentSnapshot: one more hold on the current snapshot, if there is one. */
  function HoldCur(srefs: map<SnapRef, int>, cur: Option<SnapRef>): map<SnapRef, int> {
    if cur.Some? && cur.value in srefs then srefs[cur.value := srefs[cur.value] + 1] else srefs
  }

  /** Holds the current snapshot and makes the next one out of it. */
  ghost function Builds(s: State, h: SnapRef, c: Change): State {
    s.(refs := Addref(s.refs, Kept(s.parts, CurSeq(s), c)),
       removable := s.removable + MarkedBy(s.parts, CurSeq(s), c),
       snaps := s.snaps[h := Snap(NextSeq(s.parts, CurSeq(s), c), s.epoch)],
       srefs := HoldCur(s.srefs, s.cur)[h := 1],
       intro := Built(h, c),
       pending := TakenPending(s.pending, c),
       flusher := Taken(s.flusher, Flusher, c),
       merger := Taken(s.merger, Merger, c))
  }

  /** Introductions of memory parts are not persisted; all others are. */
  predicate Persists(parts: map<PartRef, Wrapper>, c: Change) {
    !c.kind.Write? || forall p :: p in c.outs && p in parts ==> !parts[p].mem
  }

  /** The sender goes on once its change is applied; the flusher no longer flushes after a merge. */
  function Resumed(l: Loop, who: Who, c: Change): Loop {
    if Sender(c) == Some(who) && l.Holding? then Holding(l.snap, l.todo - c.inputs, false, Nothing) else l
  }

  function EpochOf(snaps: map<SnapRef, Snap>, h: SnapRef): nat {
    if h in snaps then snaps[h].epoch else 0
  }

  /** replaceSnapshot and persistSnapshot; a rename makes writing the snapshot file atomic. */
  ghost function Replaces(s: State, next: SnapRef, c: Change): State {
    var t := if s.cur.Some? then Drop(s, s.cur.value) else s;
    var ps, persists := SeqOf(s.snaps, next), Persists(s.parts, c);
    t.(cur := Some(next),
       epoch := s.epoch + 1,
       intro := if s.cur.Some? then Replaced(s.cur.value) else Idle,
       flusher := Resumed(s.flusher, Flusher, c),
       merger := Resumed(s.merger, Merger, c),
       snps := if persists then s.snps[EpochOf(s.snaps, next) := Listing(s.parts, ps)] else s.snps,
       gc := if persists then Register(s.gc, EpochOf(s.snaps, next)) else s.gc,
       introduced := if c.kind.Write? then s.introduced + PointsOf(s.parts, SetOf(c.outs)) else s.introduced,
       handedOff := if c.kind.Sync? then s.handedOff + PointsOf(s.parts, c.inputs) else s.handedOff,
       flushedEver := if persists then s.flushedEver + PointsOf(s.parts, OfKind(s.parts, SetOf(ps), false))
                      else s.flushedEver)
  }

  /** garbageCleaner.clean: a file that cannot be deleted is kept for the next time. */
  function Cleans(s: State, failed: set<nat>): State {
    s.(snps := s.snps - (set e | e in s.gc.deletable && e !in failed),
       gc := s.gc.(deletable := Keep(s.gc.deletable, failed)))
  }

  // ---------- restart ----------

  /** Directories whose metadata file can be read; one that was being removed may still have it. */
  ghost function ValidDirs(dirs: map<nat, Dir>, looksValid: set<nat>): set<nat> {
    set d | d in dirs && (dirs[d].Complete? || (dirs[d].Deleting? && d in looksValid))
  }

  ghost predicate IsNewest(e: nat, snps: map<nat, seq<nat>>) {
    e in snps && forall x :: x in snps ==> x <= e
  }

  /** The directories that loadSnapshot opens: valid, and listed by the newest snapshot file. */
  ghost function Opened(s: State, looksValid: set<nat>): set<nat> {
    set d | d in ValidDirs(s.dirs, looksValid) && (exists e :: IsNewest(e, s.snps) && d in s.snps[e])
  }

  ghost predicate NothingToLoad(s: State, looksValid: set<nat>) {
    ValidDirs(s.dirs, looksValid) == {} || !(exists e :: IsNewest(e, s.snps))
  }

  /**
    The disk that initTSTable may leave if it dies.  It removes directories one by one: first those that
    are not valid, then those that it does not open; one that was valid may be left half removed.
    Snapshot files go only if there is nothing to load, and after every directory that is not valid.
   */
  ghost predicate CutShort(s: State, t: Attempt) {
    && t.dirs.Keys <= s.dirs.Keys
    && (forall d :: d in t.dirs ==> t.dirs[d] == s.dirs[d] || (t.dirs[d].Deleting? && !s.dirs[d].Writing?))
    && (forall d :: d in Opened(s, t.looksValid) ==> d in t.dirs && t.dirs[d] == s.dirs[d])
    && (t.snps == s.snps || (NothingToLoad(s, t.looksValid) && t.dirs == map[] && t.snps.Keys <= s.snps.Keys))
  }

  ghost function After(s: State, t: Attempt): State {
    s.(dirs := t.dirs, snps := t.snps)
  }

  /** The disk after all the attempts. */
  ghost function AfterAll(s: State, tries: seq<Attempt>): State
    decreases |tries|
  {
    if tries == [] then s else AfterAll(After(s, tries[0]), tries[1..])
  }

  ghost predicate AllCutShort(s: State, tries: seq<Attempt>)
    decreases |tries|
  {
    tries == [] || (CutShort(s, tries[0]) && AllCutShort(After(s, tries[0]), tries[1..]))
  }

  function MaxOf(ids: seq<nat>): (m: nat)
    ensures forall i :: i in ids ==> i <= m
    ensures ids != [] ==> m in ids
    ensures ids == [] ==> m == 0
  {
    if ids == [] then 0
    else
      assert forall i :: i in ids ==> i == ids[0] || i in ids[1..];
      var m := MaxOf(ids[1..]);
      if ids[0] > m then ids[0] else m
  }

  /** An empty table; what was already handed off or once persisted is remembered. */
  ghost function Empty(s: State, clock: nat): State {
    State(map[], map[], {}, map[], map[], None, multiset{}, {}, Idle, Resting, Resting, s.liaison, 0, clock + 1,
          map[], map[], Gc(0, []), s.offered, s.handedOff, s.handedOff, s.flushedEver)
  }

  /** The table that loadSnapshot makes of the directories in `order`, listed by the file of epoch `e`. */
  ghost function Loaded(s: State, e: nat, order: seq<nat>): State {
    var parts := map d | d in order && d in s.dirs && s.dirs[d].Complete? :: Wrapper(d, false, s.dirs[d].part);
    State(parts, map d | d in parts :: 1, {},
          if order == [] then map[] else map[0 := Snap(order, e)],
          if order == [] then map[] else map[0 := 1],
          if order == [] then None else Some(0),
          multiset{}, {}, Idle, Resting, Resting, s.liaison, MaxOf(order), e + 1,
          map d | d in order && d in s.dirs :: s.dirs[d], s.snps, Gc(e, []),
          s.offered, s.handedOff + PointsOf(parts, SetOf(order)), s.handedOff, s.flushedEver)
  }

  /** initTSTable */
  ghost function Recovers(s: State, clock: nat, looksValid: set<nat>, order: seq<nat>): State {
    if NothingToLoad(s, looksValid) then Empty(s, clock)
    else var e :| IsNewest(e, s.snps); Loaded(s, e, order)
  }

  // ---------- when a step can happen, and what it does ----------

  ghost predicate SentBy(s: State, c: Change) {
    match Sender(c)
    case None => exists p :: p in s.pending && c == WriteChange(p)
    case Some(who) => WorkOf(LoopOf(s, who)) == Sent(c)
  }

  ghost predicate Enabled(s: State, step: Step) {
    match step
    case PrepareMem(p, part) => p !in s.parts && WFPart(part)
    case ReceiveBegin => true
    case ReceiveAbort(id) => id in s.dirs && s.dirs[id] == Writing(Receiving)
    case ReceiveFinish(id, p, part) =>
      id in s.dirs && s.dirs[id] == Writing(Receiving) && p !in s.parts && WFPart(part)
    case Build(h, c) => s.intro.Idle? && h !in s.snaps && SentBy(s, c)
    case Replace => s.intro.Built?
    case ReleasePrev => s.intro.Replaced?
    case Clean(_) => s.intro.Idle?
    case Acquire => s.cur.Some?
    case Release(h) => h in s.readers
    case LoopAcquire(who) => LoopOf(s, who).Resting? && s.cur.Some?
    case MergeBegin(who, inputs) =>
      var l := LoopOf(s, who);
      l.Holding? && l.work.Nothing? && inputs <= l.todo && |inputs| >= 2 && (who.Merger? ==> !s.liaison)
    case MergeDone(who, p, part) =>
      var w := WorkOf(LoopOf(s, who));
      w.Merging? && p !in s.parts && WFPart(part) && Refines(PartPoints(part), PointsOf(s.parts, w.inputs))
    case MergeFail(who) => WorkOf(LoopOf(s, who)).Merging?
    case FlushBegin(q) =>
      && s.flusher.Holding? && s.flusher.whole && q in s.flusher.todo
      && q in s.parts && s.parts[q].part.meta.totalCount >= 1
      && (s.flusher.work.Nothing?
          || (s.flusher.work.FlushingParts? && s.flusher.work.writing.None? && q !in s.flusher.work.inputs))
    case FlushEnd(p) =>
      p !in s.parts && WorkOf(s.flusher).FlushingParts? && WorkOf(s.flusher).writing.Some?
    case FlushSend =>
      WorkOf(s.flusher).FlushingParts? && WorkOf(s.flusher).writing.None? && WorkOf(s.flusher).inputs != {}
    case SyncSend(inputs) =>
      && s.liaison && s.merger.Holding? && s.merger.work.Nothing? && inputs != {} && inputs <= s.merger.todo
    case LoopRelease(who) => LoopOf(s, who).Holding? && LoopOf(s, who).work.Nothing?
    case Removed(id) => id in s.dirs && s.dirs[id].Deleting?
    case Crash(clock, tries, looksValid, order) =>
      && s.epoch <= clock && AllCutShort(s, tries)
      && NoDup(order) && SetOf(order) == Opened(AfterAll(s, tries), looksValid)
  }

  /** What the flusher has flushed so far. */
  ghost function FlushSoFar(l: Loop): Work {
    if WorkOf(l).FlushingParts? then WorkOf(l) else FlushingParts({}, [], map[], None)
  }

  ghost function BeginsFlush(s: State, q: PartRef): State {
    var w := FlushSoFar(s.flusher);
    s.(dirs := s.dirs[IdOf(s.parts, q) := Writing(Flushing(q))],
       flusher := Working(s.flusher, FlushingParts(w.inputs, w.outs, w.flushed, Some(q))))
  }

  /** The flushed part holds the same points under the same ID. */
  ghost function EndsFlush(s: State, p: PartRef): State {
    var w := FlushSoFar(s.flusher);
    if w.writing.Some? && w.writing.value in s.parts then
      var q := s.parts[w.writing.value];
      AddFile(s, p, q.id, q.part).(flusher := Working(s.flusher,
        FlushingParts(w.inputs + {w.writing.value}, w.outs + [p], w.flushed[q.id := p], None)))
    else s
  }

  ghost function MergeEnds(s: State, who: Who, p: PartRef, part: Part): State {
    var w := WorkOf(LoopOf(s, who));
    if w.Merging? then
      WithWork(AddFile(s, p, w.id, part), who, Sent(Change(Merge(who), w.inputs, [p], map[])))
    else s
  }

  ghost function MergeFails(s: State, who: Who): State {
    var l := LoopOf(s, who);
    if WorkOf(l).Merging? then
      WithLoop(s.(dirs := s.dirs[l.work.id := Writing(Abandoned)]), who, Holding(l.snap, {}, false, Nothing))
    else s
  }

  ghost function Acquires(s: State, who: Who): State {
    if s.cur.Some? then
      WithLoop(Hold(s, s.cur.value), who,
               Holding(s.cur.value, OfKind(s.parts, CurParts(s), who.Flusher?), true, Nothing))
    else s
  }

  ghost function Releases(s: State, who: Who): State {
    if LoopOf(s, who).Holding? then WithLoop(Drop(s, LoopOf(s, who).snap), who, Resting) else s
  }

  ghost function Next(s: State, step: Step): State {
    match step
    case PrepareMem(p, part) => Prepares(s, p, part)
    case ReceiveBegin => OpenDir(s, Receiving)
    case ReceiveAbort(id) => s.(dirs := s.dirs - {id})
    case ReceiveFinish(id, p, part) => Receives(s, id, p, part)
    case Build(h, c) => Builds(s, h, c)
    case Replace => if s.intro.Built? then Replaces(s, s.intro.next, s.intro.change) else s
    case ReleasePrev => if s.intro.Replaced? then Drop(s, s.intro.prev).(intro := Idle) else s
    case Clean(failed) => Cleans(s, failed)
    case Acquire => if s.cur.Some? then Hold(s, s.cur.value).(readers := s.readers + multiset{s.cur.value}) else s
    case Release(h) => Drop(s, h).(readers := s.readers - multiset{h})
    case LoopAcquire(who) => Acquires(s, who)
    case MergeBegin(who, inputs) => WithWork(OpenDir(s, ByLoop(who)), who, Merging(inputs, s.curPartID + 1))
    case MergeDone(who, p, part) => MergeEnds(s, who, p, part)
    case MergeFail(who) => MergeFails(s, who)
    case FlushBegin(q) => BeginsFlush(s, q)
    case FlushEnd(p) => EndsFlush(s, p)
    case FlushSend =>
      var w := FlushSoFar(s.flusher);
      WithWork(s, Flusher, Sent(Change(Flush, w.inputs, w.outs, w.flushed)))
    case SyncSend(inputs) => WithWork(s, Merger, Sent(Change(Sync, inputs, [], map[])))
    case LoopRelease(who) => Releases(s, who)
    case Removed(id) => s.(dirs := s.dirs - {id})
    case Crash(clock, tries, looksValid, order) => Recovers(AfterAll(s, tries), clock, looksValid, order)
  }

  ghost predicate Run(s: State, steps: seq<Step>, t: State)
    decreases |steps|
  {
    if steps == [] then s == t
    else Enabled(s, steps[0]) && Run(Next(s, steps[0]), steps[1..], t)
  }

  /** A table on an empty directory. */
  ghost function Initial(liaison: bool, clock: nat): State {
    State(map[], map[], {}, map[], map[], None, multiset{}, {}, Idle, Resting, Resting, liaison, 0, clock + 1,
          map[], map[], Gc(0, []), {}, {}, {}, {})
  }

  ghost predicate Reachable(s: State) {
    exists liaison, clock, steps :: Run(Initial(liaison, clock), steps, s)
  }
}
