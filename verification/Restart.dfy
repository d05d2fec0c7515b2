/** Startup: which directories loadSnapshot opens, removes and numbers from. */
module Restart {
  import opened Points
  import opened Table
  import opened TableSteps
  import opened TableCrash
  import Collections

  /** The entries of `loaded` that are listed and (still) valid, in their order. */
  function Chosen(loaded: seq<nat>, listed: seq<nat>, valid: set<nat>): seq<nat> {
    if loaded == [] then []
    else (if loaded[0] in listed && loaded[0] in valid then [loaded[0]] else []) + Chosen(loaded[1..], listed, valid)
  }

  lemma {:induction false} ChosenSnoc(loaded: seq<nat>, id: nat, listed: seq<nat>, valid: set<nat>)
    ensures Chosen(loaded + [id], listed, valid)
         == Chosen(loaded, listed, valid) + (if id in listed && id in valid then [id] else [])
  {
    if loaded != [] {
      ChosenSnoc(loaded[1..], id, listed, valid);
      assert (loaded + [id])[1..] == loaded[1..] + [id];
    }
  }

  lemma {:induction false} NoneChosen(listed: seq<nat>, valid: set<nat>)
    ensures Chosen([], listed, valid) == [] && MaxOf([]) == 0
  {
  }

  lemma {:induction false} ChosenIs(loaded: seq<nat>, listed: seq<nat>, valid: set<nat>)
    ensures forall d :: d in Chosen(loaded, listed, valid) <==> d in loaded && d in listed && d in valid
    ensures NoDup(loaded) ==> NoDup(Chosen(loaded, listed, valid))
  {
    if loaded != [] {
      ChosenIs(loaded[1..], listed, valid);
      assert forall d :: d in loaded <==> d == loaded[0] || d in loaded[1..];
      var rest := Chosen(loaded[1..], listed, valid);
      if NoDup(loaded) && loaded[0] in listed && loaded[0] in valid {
        assert NoDup(loaded[1..]) && loaded[0] !in loaded[1..];
        assert Chosen(loaded, listed, valid) == [loaded[0]] + rest;
      }
    }
  }

  lemma {:induction false} MaxOfSnoc(ids: seq<nat>, id: nat)
    ensures MaxOf(ids + [id]) == if MaxOf(ids) < id then id else MaxOf(ids)
  {
    if ids != [] {
      MaxOfSnoc(ids[1..], id);
      assert (ids + [id])[1..] == ids[1..] + [id];
    }
  }

  method Contains(listed: seq<nat>, id: nat) returns (find: bool)
    ensures find == (id in listed)
  {
    find := false;
    for j := 0 to |listed|
      invariant find == (id in listed[..j])
    {
      if id == listed[j] {
        find := true;
        break;
      }
    }
  }

  /**
    loadSnapshot: opens the loaded parts that the file lists and whose metadata is valid when looked at
    again, and removes the others.  The snapshot is persisted again if a listed part is no longer valid.
   */
  method LoadSnapshot(listed: seq<nat>, loaded: seq<nat>, valid: set<nat>)
    returns (ids: seq<nat>, removed: set<nat>, curPartID: nat, needToPersist: bool)
    ensures ids == Chosen(loaded, listed, valid) && curPartID == MaxOf(ids)
    ensures removed == (set d | d in loaded && !(d in listed && d in valid))
    ensures needToPersist <==> exists d :: d in loaded && d in listed && d !in valid
  {
    hide Chosen, MaxOf;
    ids, removed, curPartID, needToPersist := [], {}, 0, false;
    NoneChosen(listed, valid);
    for i := 0 to |loaded|
      invariant ids == Chosen(loaded[..i], listed, valid) && curPartID == MaxOf(ids)
      invariant removed == (set d | d in loaded[..i] && !(d in listed && d in valid))
      invariant needToPersist <==> exists d :: d in loaded[..i] && d in listed && d !in valid
    {
      var id := loaded[i];
      assert loaded[..i + 1] == loaded[..i] + [id];
      ChosenSnoc(loaded[..i], id, listed, valid);
      MaxOfSnoc(ids, id);
      var find := Contains(listed, id);
      if !find {
        removed := removed + {id};
        continue;
      }
      if id !in valid {
        removed := removed + {id};
        needToPersist := true;
        continue;
      }
      ids := ids + [id];
      if curPartID < id {
        curPartID := id;
      }
    }
    assert loaded[..|loaded|] == loaded;
  }

  /** The newest snapshot file that can be read; the newer ones that cannot have been tried before it. */
  ghost predicate NewestReadable(e: nat, epochs: set<nat>, files: map<nat, seq<nat>>) {
    e in epochs && e in files && forall x :: x in epochs && x in files ==> x <= e
  }

  /** Tries the snapshot files from the newest on. */
  method TrySnapshots(sorted: seq<nat>, files: map<nat, seq<nat>>, ghost epochs: set<nat>)
    returns (found: bool, e: nat, failed: set<nat>)
    requires SetOf(sorted) == epochs && Collections.SortedBy(sorted, Newer)
    ensures found ==> NewestReadable(e, epochs, files) && failed == (set x | x in epochs && e < x)
    ensures !found ==> forall x :: x in epochs ==> x !in files
  {
    failed, e := {}, 0;
    for i := 0 to |sorted|
      invariant failed == SetOf(sorted[..i]) && forall x :: x in sorted[..i] ==> x !in files
    {
      assert sorted[..i + 1] == sorted[..i] + [sorted[i]];
      if sorted[i] in files {
        e := sorted[i];
        FoundNewest(sorted, i, files);
        return true, e, failed - {e};
      }
      failed := failed + {sorted[i]};
    }
    assert sorted[..|sorted|] == sorted;
    return false, e, failed;
  }

  predicate Newer(a: nat, b: nat) {
    a > b
  }

  lemma FoundNewest(sorted: seq<nat>, i: nat, files: map<nat, seq<nat>>)
    requires Collections.SortedBy(sorted, Newer) && i < |sorted| && sorted[i] in files
    requires forall x :: x in sorted[..i] ==> x !in files
    ensures NewestReadable(sorted[i], SetOf(sorted), files)
    ensures SetOf(sorted[..i]) - {sorted[i]} == (set x | x in SetOf(sorted) && sorted[i] < x)
  {
    forall j, k | 0 <= j < k < |sorted| ensures sorted[k] <= sorted[j] {
      assert !Newer(sorted[k], sorted[j]);
    }
    forall x | x in SetOf(sorted) && sorted[i] < x ensures x in SetOf(sorted[..i]) {
      var j :| 0 <= j < |sorted| && sorted[j] == x;
      assert j < i && sorted[..i][j] == x;
    }
    forall j | 0 <= j < i ensures sorted[j] !in files {
      assert sorted[..i][j] == sorted[j];
    }
    forall x | x in sorted && x in files ensures x <= sorted[i] {
      var j :| 0 <= j < |sorted| && sorted[j] == x;
      assert i <= j;
    }
    forall x | x in SetOf(sorted[..i]) && x != sorted[i] ensures x in sorted && sorted[i] < x {
      var j :| 0 <= j < i && sorted[..i][j] == x;
      assert sorted[j] == x;
    }
  }

  /** What startup opens, from which snapshot file, what it removes, the file it writes, and the garbage cleaner it leaves. */
  datatype Started = Started(ids: seq<nat>, epoch: Option<nat>, curPartID: nat, removedDirs: set<nat>, removedFiles: set<nat>,
                             written: Option<seq<nat>>, gc: Gc)

  /** The directories whose metadata can be read, and those that cannot. */
  method Sift(dirs: seq<nat>, valid: set<nat>) returns (loaded: seq<nat>, broken: set<nat>)
    ensures loaded == Chosen(dirs, dirs, valid) && broken == (set d | d in dirs && d !in valid)
  {
    loaded, broken := [], {};
    for i := 0 to |dirs|
      invariant loaded == Chosen(dirs[..i], dirs, valid) && broken == (set d | d in dirs[..i] && d !in valid)
    {
      assert dirs[..i + 1] == dirs[..i] + [dirs[i]];
      ChosenSnoc(dirs[..i], dirs[i], dirs, valid);
      if dirs[i] in valid {
        loaded := loaded + [dirs[i]];
      } else {
        broken := broken + {dirs[i]};
      }
    }
    assert dirs[..|dirs|] == dirs;
  }

  /** A listed directory was valid at the first look and is not at the second. */
  ghost predicate Vanished(dirs: seq<nat>, valid: set<nat>, again: set<nat>, listed: seq<nat>) {
    exists d :: d in dirs && d in valid && d in listed && d !in again
  }

  /**
    initTSTable on the part directories `dirs`, of which those in `valid` have readable metadata at the first
    look and those in `again` at the second, and on the snapshot files of `epochs`, of which those in `files`
    can be read.  It opens the directories, valid both times, that the newest readable file lists, and
    removes all others; newer files that cannot be read are removed too.  With nothing valid or no file at
    all, files and directories all go; with files none of which can be read, the directories go.  The file is
    written again, and its epoch registered again, iff a listed directory has vanished and another is opened.
   */
  method InitTSTable(dirs: seq<nat>, valid: set<nat>, again: set<nat>, epochs: seq<nat>, files: map<nat, seq<nat>>)
    returns (r: Started)
    requires NoDup(dirs)
    ensures NoDup(r.ids) && r.removedDirs == SetOf(dirs) - SetOf(r.ids) && r.curPartID == MaxOf(r.ids)
    ensures r.epoch.Some? <==>
      (exists d :: d in dirs && d in valid) && (exists e :: NewestReadable(e, SetOf(epochs), files))
    ensures r.epoch.None? ==> r.ids == []
    ensures r.epoch.None? ==> r.removedFiles == SetOf(epochs) || (r.removedFiles == {} && forall e :: e in epochs ==> e !in files)
    ensures r.epoch.Some? ==>
      && NewestReadable(r.epoch.value, SetOf(epochs), files)
      && (forall d :: d in r.ids <==> d in dirs && d in valid && d in again && d in files[r.epoch.value])
      && r.removedFiles == (set x | x in epochs && r.epoch.value < x)
    ensures r.written == if r.epoch.Some? && r.ids != [] && Vanished(dirs, valid, again, files[r.epoch.value]) then Some(r.ids) else None
    ensures r.gc ==
      if r.epoch.None? then Gc(0, [])
      else if r.written.None? then Register(Gc(0, []), r.epoch.value)
      else Register(Register(Gc(0, []), r.epoch.value), r.epoch.value)
  {
    hide Chosen, MaxOf, Register;
    NoneIsGreatest();
    var loaded, broken := Sift(dirs, valid);
    ChosenIs(dirs, dirs, valid);
    if |loaded| == 0 || |epochs| == 0 {
      NoneLoaded(dirs, valid, loaded, epochs, files);
      return Started([], None, 0, SetOfSeq(dirs), SetOfSeq(epochs), None, Gc(0, []));
    }
    assert loaded[0] in loaded;
    var sorted := NewestFirst(epochs);
    var found, e, failed := TrySnapshots(sorted, files, SetOf(epochs));
    if !found {
      return Started([], None, 0, SetOfSeq(dirs), {}, None, Gc(0, []));
    }
    var ids, removed, curPartID, needToPersist := LoadSnapshot(files[e], loaded, again);
    ChosenIs(loaded, files[e], again);
    var gc := Register(Gc(0, []), e);
    var written := None;
    if |ids| >= 1 {
      if needToPersist {
        written := Some(ids);
        gc := Register(gc, e);
      }
    }
    r := Started(ids, Some(e), curPartID, broken + removed, failed, written, gc);
    RemovesRest(dirs, valid, again, loaded, files[e], ids, broken, removed);
  }

  method NewestFirst(epochs: seq<nat>) returns (sorted: seq<nat>)
    ensures SetOf(sorted) == SetOf(epochs) && Collections.SortedBy(sorted, Newer)
  {
    ghost var w := Collections.SortExists(epochs, Newer);
    sorted :| multiset(sorted) == multiset(epochs) && Collections.SortedBy(sorted, Newer);
    Collections.Permuted(sorted, epochs);
  }

  lemma NoneIsGreatest()
    ensures MaxOf([]) == 0
  {
  }

  function SetOfSeq(s: seq<nat>): (r: set<nat>)
    ensures r == SetOf(s)
  {
    set x | x in s
  }

  lemma NoneLoaded(dirs: seq<nat>, valid: set<nat>, loaded: seq<nat>, epochs: seq<nat>, files: map<nat, seq<nat>>)
    requires (forall d :: d in loaded <==> d in dirs && d in valid) && (|loaded| == 0 || |epochs| == 0)
    ensures !((exists d :: d in dirs && d in valid) && (exists e :: NewestReadable(e, SetOf(epochs), files)))
  {
    if d :| d in dirs && d in valid {
      assert d in loaded;
    }
  }

  lemma RemovesRest(dirs: seq<nat>, valid: set<nat>, again: set<nat>, loaded: seq<nat>, listed: seq<nat>, ids: seq<nat>, broken: set<nat>,
                    removed: set<nat>)
    requires forall d :: d in loaded <==> d in dirs && d in valid
    requires forall d :: d in ids <==> d in loaded && d in listed && d in again
    requires broken == (set d | d in dirs && d !in valid)
    requires removed == (set d | d in loaded && !(d in listed && d in again))
    ensures broken + removed == SetOf(dirs) - SetOf(ids)
  {
  }

  /**
    What writing the file again leads to: its epoch is live and up for deletion at once, so the next cleaning
    deletes the only file unless that fails; a start after that finds no file and removes every part.
   */
  lemma RewrittenFileIsDeleted(ids: seq<nat>, e: nat, failed: set<nat>)
    requires 0 < e
    ensures var g := Register(Register(Gc(0, []), e), e); var files: map<nat, seq<nat>> := map[e := ids];
      files - (set x | x in g.deletable && x !in failed) == map[] <==> e !in failed
  {
    var files: map<nat, seq<nat>> := map[e := ids];
    var g := Register(Gc(0, []), e);
    CleanDeletesLiveIff(files, g, e, failed);
    var left := files - (set x | x in Register(g, e).deletable && x !in failed);
    assert forall x :: x in left ==> x == e;
    if e !in left {
      assert left == map[];
    }
  }

  /**
    On the disk of a state, whose snapshot files can all be read, the code does what the crash step does: it
    opens the same directories, goes on from the same epoch and part ID, and leaves the same disk.
   */
  lemma StartIsRecovery(s: State, clock: nat, looksValid: set<nat>, dirs: seq<nat>, epochs: seq<nat>, r: Started)
    requires Alive(s) && SetOf(dirs) == s.dirs.Keys && SetOf(epochs) == s.snps.Keys
    requires NoDup(r.ids) && r.removedDirs == SetOf(dirs) - SetOf(r.ids) && r.curPartID == MaxOf(r.ids)
    requires r.epoch.Some? <==>
      (exists d :: d in dirs && d in ValidDirs(s.dirs, looksValid)) && (exists e :: NewestReadable(e, SetOf(epochs), s.snps))
    requires r.epoch.None? ==> r.ids == [] && r.removedFiles == SetOf(epochs)
    requires r.epoch.Some? ==>
      && NewestReadable(r.epoch.value, SetOf(epochs), s.snps)
      && (forall d :: d in r.ids <==> d in dirs && d in ValidDirs(s.dirs, looksValid) && d in s.snps[r.epoch.value])
      && r.removedFiles == (set x | x in epochs && r.epoch.value < x)
    requires r.gc == if r.epoch.None? then Gc(0, []) else Register(Gc(0, []), r.epoch.value)
    ensures SetOf(r.ids) == Opened(s, looksValid)
    ensures var t := Recovers(s, clock, looksValid, r.ids);
      && CurSeq(t) == r.ids && t.curPartID == r.curPartID
      && t.epoch == (if r.epoch.Some? then r.epoch.value else clock) + 1
      && t.dirs.Keys == s.dirs.Keys - r.removedDirs && t.snps.Keys == s.snps.Keys - r.removedFiles && t.gc == r.gc
  {
    hide Alive, PointsOf;
    forall e ensures NewestReadable(e, SetOf(epochs), s.snps) <==> IsNewest(e, s.snps) { }
    assert forall d :: d in dirs <==> d in SetOf(dirs);
    assert NothingToLoad(s, looksValid) <==> r.epoch.None? by {
      ValidAreDirs(s, looksValid);
      hide ValidDirs;
    }
    OpenedAre(s, looksValid, r);
    if r.epoch.Some? {
      forall d | d in r.ids ensures s.dirs[d].Complete? {
        InSet(r.ids, d);
        OpensComplete(s, looksValid, d);
      }
    }
  }

  /** Startup on the disk that a crash leaves. */
  method Startup(dirs: seq<nat>, valid: set<nat>, epochs: seq<nat>, files: map<nat, seq<nat>>,
                 ghost s: State, ghost clock: nat, ghost looksValid: set<nat>)
    returns (r: Started)
    requires Alive(s) && NoDup(dirs) && SetOf(dirs) == s.dirs.Keys && valid == ValidDirs(s.dirs, looksValid)
    requires files == s.snps && SetOf(epochs) == s.snps.Keys
    ensures NoDup(r.ids) && SetOf(r.ids) == Opened(s, looksValid)
    ensures var t := Recovers(s, clock, looksValid, r.ids);
      && CurSeq(t) == r.ids && t.curPartID == r.curPartID
      && t.epoch == (if r.epoch.Some? then r.epoch.value else clock) + 1
      && t.dirs.Keys == s.dirs.Keys - r.removedDirs && t.snps.Keys == s.snps.Keys - r.removedFiles
      && r.written.None? && t.gc == r.gc
  {
    hide Alive, Recovers, Opened, ValidDirs;
    r := InitTSTable(dirs, valid, valid, epochs, files);
    assert forall e :: e in epochs <==> e in SetOf(epochs);
    StartIsRecovery(s, clock, looksValid, dirs, epochs, r);
  }

  lemma ValidAreDirs(s: State, looksValid: set<nat>)
    ensures ValidDirs(s.dirs, looksValid) <= s.dirs.Keys
  {
  }

  lemma OpenedAre(s: State, looksValid: set<nat>, r: Started)
    requires r.epoch.None? ==> NothingToLoad(s, looksValid) && r.ids == []
    requires r.epoch.Some? ==> IsNewest(r.epoch.value, s.snps)
    requires r.epoch.Some? ==> forall d :: d in r.ids <==> d in ValidDirs(s.dirs, looksValid) && d in s.snps[r.epoch.value]
    ensures SetOf(r.ids) == Opened(s, looksValid)
  {
    hide ValidDirs;
    if r.epoch.None? {
      NothingOpened(s, looksValid);
    } else {
      forall d | d in Opened(s, looksValid) ensures d in SetOf(r.ids) {
        var x :| IsNewest(x, s.snps) && d in s.snps[x];
        assert x == r.epoch.value;
      }
    }
  }
}
