/**
  The snapshot protocol of a table: its state and the operations its steps are made of.

  Writers prepare parts, a flusher turns memory parts into file parts (one by one or merged), a
  merger merges file parts (on a liaison, a syncer hands them off instead), readers hold snapshots,
  and a single introducer replaces the current snapshot and persists it.  The introducer's work is
  split where other threads can interleave: building the next snapshot, replacing and persisting,
  and releasing its hold on the old one.  The disk (`dirs` and `snps`) is all that survives a crash.

  What a part wrapper or a snapshot holds never changes once it exists, so `parts` and `snaps` only
  grow; the reference counters are kept apart, and an object is open as long as it has a counter.
 */
module Table {
  import opened Points
  import opened Parts

  /** The identity of a part wrapper, and of a snapshot, in memory. */
  type PartRef = nat
  type SnapRef = nat

  datatype Wrapper = Wrapper(id: nat, mem: bool, part: Part)

  datatype Snap = Snap(parts: seq<PartRef>, epoch: nat)

  /** The two background loops; on a liaison the second one is the syncer. */
  datatype Who = Flusher | Merger

  datatype Purpose = Receiving | ByLoop(who: Who) | Flushing(p: PartRef) | Abandoned

  /** A part directory: being written (its metadata file is still missing), complete, or being removed. */
  datatype Dir = Writing(purpose: Purpose) | Complete(part: Part) | Deleting

  datatype Gc = Gc(live: nat, deletable: seq<nat>)

  datatype Kind = Write | Flush | Merge(who: Who) | Sync

  /** An introduction: `inputs` leave the snapshot, `outs` enter it; a flush pairs them by part ID. */
  datatype Change = Change(kind: Kind, inputs: set<PartRef>, outs: seq<PartRef>, flushed: map<nat, PartRef>)

  datatype Intro = Idle | Built(next: SnapRef, change: Change) | Replaced(prev: SnapRef)

  /** What a background loop is doing with the snapshot it holds. */
  datatype Work =
    | Nothing
    | Merging(inputs: set<PartRef>, id: nat)
    | FlushingParts(inputs: set<PartRef>, outs: seq<PartRef>, flushed: map<nat, PartRef>, writing: Option<PartRef>)
    | Sent(change: Change)
    | Waiting

  /** `todo`: the parts of the held snapshot the loop may still use; `whole`: it has merged nothing yet. */
  datatype Loop = Resting | Holding(snap: SnapRef, todo: set<PartRef>, whole: bool, work: Work)

  datatype State = State(
    parts: map<PartRef, Wrapper>,
    refs: map<PartRef, int>,
    removable: set<PartRef>,
    snaps: map<SnapRef, Snap>,
    srefs: map<SnapRef, int>,
    cur: Option<SnapRef>,
    readers: multiset<SnapRef>,
    pending: set<PartRef>,
    intro: Intro,
    flusher: Loop,
    merger: Loop,
    liaison: bool,
    curPartID: nat,
    epoch: nat,
    dirs: map<nat, Dir>,
    snps: map<nat, seq<nat>>,
    gc: Gc,
    // history
    offered: set<Point>,
    introduced: set<Point>,
    handedOff: set<Point>,
    flushedEver: set<Point>)

  // ---------- derived views ----------

  function SeqOf(snaps: map<SnapRef, Snap>, h: SnapRef): seq<PartRef> {
    if h in snaps then snaps[h].parts else []
  }

  /** The parts of the current snapshot. */
  function CurSeq(s: State): seq<PartRef> {
    match s.cur case None => [] case Some(h) => SeqOf(s.snaps, h)
  }

  ghost function SetOf<T>(s: seq<T>): set<T> {
    set x | x in s
  }

  ghost function CurParts(s: State): set<PartRef> {
    SetOf(CurSeq(s))
  }

  ghost function PointsOf(parts: map<PartRef, Wrapper>, ps: set<PartRef>): set<Point> {
    set p, x | p in ps && p in parts && x in PartPoints(parts[p].part) :: x
  }

  /** What a reader of the current snapshot sees. */
  ghost function CurPoints(s: State): set<Point> {
    PointsOf(s.parts, CurParts(s))
  }

  /** The file parts, or the memory parts, among `ps`. */
  ghost function OfKind(parts: map<PartRef, Wrapper>, ps: set<PartRef>, mem: bool): set<PartRef> {
    set p | p in ps && p in parts && parts[p].mem == mem
  }

  function Opt<T>(o: Option<T>): multiset<T> {
    match o case None => multiset{} case Some(v) => multiset{v}
  }

  function LoopToken(l: Loop): multiset<SnapRef> {
    if l.Holding? then multiset{l.snap} else multiset{}
  }

  function IntroTokens(i: Intro, cur: Option<SnapRef>): multiset<SnapRef> {
    match i
    case Idle => multiset{}
    case Built(next, _) => multiset{next} + Opt(cur)
    case Replaced(prev) => multiset{prev}
  }

  function TokensOf(readers: multiset<SnapRef>, cur: Option<SnapRef>, intro: Intro, flusher: Loop, merger: Loop)
    : multiset<SnapRef>
  {
    readers + Opt(cur) + IntroTokens(intro, cur) + LoopToken(flusher) + LoopToken(merger)
  }

  /** Every hold on a snapshot. */
  function Tokens(s: State): multiset<SnapRef> {
    TokensOf(s.readers, s.cur, s.intro, s.flusher, s.merger)
  }

  function WorkOf(l: Loop): Work {
    if l.Holding? then l.work else Nothing
  }

  function Outs(l: Loop): seq<PartRef> {
    match WorkOf(l)
    case FlushingParts(_, outs, _, _) => outs
    case Sent(c) => c.outs
    case _ => []
  }

  function ExtraOf(pending: set<PartRef>, flusher: Loop, merger: Loop): multiset<PartRef> {
    multiset(pending) + multiset(Outs(flusher)) + multiset(Outs(merger))
  }

  /** Wrappers that no snapshot holds yet; each has one reference of its own. */
  function Extra(s: State): multiset<PartRef> {
    ExtraOf(s.pending, s.flusher, s.merger)
  }

  function LoopOf(s: State, who: Who): Loop {
    match who case Flusher => s.flusher case Merger => s.merger
  }

  function WithLoop(s: State, who: Who, l: Loop): State {
    match who case Flusher => s.(flusher := l) case Merger => s.(merger := l)
  }

  /** The loop that sent a change; none for a writer. */
  function Sender(c: Change): Option<Who> {
    match c.kind
    case Write => None
    case Flush => Some(Flusher)
    case Merge(who) => Some(who)
    case Sync => Some(Merger)
  }

  // ---------- references ----------

  /** A part loses the reference of a snapshot that is let go; without references it is closed. */
  function Unref(refs: map<PartRef, int>, ps: seq<PartRef>): map<PartRef, int> {
    map p | p in refs && !(p in ps && refs[p] <= 1) :: if p in ps then refs[p] - 1 else refs[p]
  }

  /** The directories whose removal closing these parts starts. */
  function Doomed(parts: map<PartRef, Wrapper>, refs: map<PartRef, int>, removable: set<PartRef>, ps: seq<PartRef>)
    : set<nat>
  {
    set p | p in refs && p in parts && p in ps && refs[p] <= 1 && !parts[p].mem && p in removable :: parts[p].id
  }

  function RemoveDirs(dirs: map<nat, Dir>, ids: set<nat>): map<nat, Dir> {
    map d | d in dirs :: if d in ids then Deleting else dirs[d]
  }

  function Addref(refs: map<PartRef, int>, ps: seq<PartRef>): map<PartRef, int> {
    map p | p in refs :: if p in ps then refs[p] + 1 else refs[p]
  }

  /** snapshot.incRef */
  function Hold(s: State, h: SnapRef): State {
    if h in s.srefs then s.(srefs := s.srefs[h := s.srefs[h] + 1]) else s
  }

  /** snapshot.decRef, letting go of the parts at zero. */
  function Drop(s: State, h: SnapRef): State {
    if h !in s.srefs then s
    else if s.srefs[h] > 1 then s.(srefs := s.srefs[h := s.srefs[h] - 1])
    else
      var ps := SeqOf(s.snaps, h);
      s.(srefs := s.srefs - {h},
         refs := Unref(s.refs, ps),
         dirs := RemoveDirs(s.dirs, Doomed(s.parts, s.refs, s.removable, ps)))
  }

  // ---------- the parts of the next snapshot, by ID as the source does ----------

  function IdOf(parts: map<PartRef, Wrapper>, p: PartRef): nat {
    if p in parts then parts[p].id else 0
  }

  function IdsOf(parts: map<PartRef, Wrapper>, ps: set<PartRef>): set<nat> {
    set p | p in ps :: IdOf(parts, p)
  }

  /** snapshot.remove: the parts whose ID is not in `ids`. */
  function Without(parts: map<PartRef, Wrapper>, cur: seq<PartRef>, ids: set<nat>): seq<PartRef> {
    if cur == [] then []
    else (if IdOf(parts, cur[0]) in ids then [] else [cur[0]]) + Without(parts, cur[1..], ids)
  }

  /** snapshot.merge: a part is replaced by the flushed part of the same ID. */
  function Substituted(parts: map<PartRef, Wrapper>, cur: seq<PartRef>, flushed: map<nat, PartRef>): seq<PartRef> {
    if cur == [] then []
    else
      var id := IdOf(parts, cur[0]);
      [if id in flushed then flushed[id] else cur[0]] + Substituted(parts, cur[1..], flushed)
  }

  /** The IDs a change takes out of the snapshot. */
  function GoneIds(parts: map<PartRef, Wrapper>, c: Change): set<nat> {
    if c.kind.Flush? then c.flushed.Keys else IdsOf(parts, c.inputs)
  }

  /** The parts of the current snapshot that the next one shares; copyAllTo shares all of them. */
  function Kept(parts: map<PartRef, Wrapper>, cur: seq<PartRef>, c: Change): seq<PartRef> {
    if c.kind.Write? then cur else Without(parts, cur, GoneIds(parts, c))
  }

  function NextSeq(parts: map<PartRef, Wrapper>, cur: seq<PartRef>, c: Change): seq<PartRef> {
    if c.kind.Flush? then Substituted(parts, cur, c.flushed) else Kept(parts, cur, c) + c.outs
  }

  /** The parts that snapshot.remove marks for removal; a flush replaces parts without marking them. */
  ghost function MarkedBy(parts: map<PartRef, Wrapper>, cur: seq<PartRef>, c: Change): set<PartRef> {
    if c.kind.Write? || c.kind.Flush? then {} else set p | p in cur && IdOf(parts, p) in GoneIds(parts, c)
  }

  /** persistSnapshot writes the IDs of all parts, memory parts included. */
  function Listing(parts: map<PartRef, Wrapper>, ps: seq<PartRef>): seq<nat> {
    if ps == [] then [] else [IdOf(parts, ps[0])] + Listing(parts, ps[1..])
  }

  /** registerSnapshot */
  function Register(g: Gc, epoch: nat): Gc {
    Gc(epoch, if g.live > 0 then g.deletable + [g.live] else g.deletable)
  }

  /** The snapshot files that could not be deleted. */
  function Keep(es: seq<nat>, failed: set<nat>): seq<nat> {
    if es == [] then [] else (if es[0] in failed then [es[0]] else []) + Keep(es[1..], failed)
  }

  predicate NoDup<T(==)>(s: seq<T>) {
    forall i, j :: 0 <= i < j < |s| ==> s[i] != s[j]
  }
}
