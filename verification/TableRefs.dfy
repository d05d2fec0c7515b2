/**
  Reference counting.  `tokens` are the holds on snapshots and `extra` the wrappers that have a
  reference of their own; the four ways in which the counters ever change keep them exact.
 */
module TableRefs {
  import opened Points
  import opened Table

  /** The open snapshots that hold `p`. */
  ghost function Holders(snaps: map<SnapRef, Snap>, open: set<SnapRef>, p: PartRef): set<SnapRef> {
    set h | h in open && p in SeqOf(snaps, h)
  }

  /** A snapshot is open exactly while somebody holds it, and counts its holds. */
  ghost predicate SnapsCounted(snaps: map<SnapRef, Snap>, srefs: map<SnapRef, int>, tokens: multiset<SnapRef>) {
    && srefs.Keys <= snaps.Keys
    && (forall h :: h in srefs <==> h in tokens)
    && (forall h :: h in srefs ==> srefs[h] == tokens[h])
  }

  /** The parts of an open snapshot are open. */
  ghost predicate PartsOpen(snaps: map<SnapRef, Snap>, open: set<SnapRef>, refs: map<PartRef, int>) {
    forall h :: h in open ==> NoDup(SeqOf(snaps, h)) && forall p :: p in SeqOf(snaps, h) ==> p in refs
  }

  /** A part counts the open snapshots that hold it and its own reference, and is closed at zero. */
  ghost predicate PartsCounted(
    snaps: map<SnapRef, Snap>, open: set<SnapRef>, refs: map<PartRef, int>, extra: multiset<PartRef>)
  {
    && (forall p :: p in refs ==> refs[p] == |Holders(snaps, open, p)| + extra[p] && refs[p] > 0)
    && (forall p :: p in extra ==> p in refs && refs[p] == 1)
  }

  ghost predicate Counted(
    snaps: map<SnapRef, Snap>, srefs: map<SnapRef, int>, refs: map<PartRef, int>,
    tokens: multiset<SnapRef>, extra: multiset<PartRef>)
  {
    && SnapsCounted(snaps, srefs, tokens)
    && PartsOpen(snaps, srefs.Keys, refs)
    && PartsCounted(snaps, srefs.Keys, refs, extra)
  }

  /** A wrapper with a reference of its own is in no open snapshot. */
  lemma ExtraUnheld(
    snaps: map<SnapRef, Snap>, srefs: map<SnapRef, int>, refs: map<PartRef, int>,
    tokens: multiset<SnapRef>, extra: multiset<PartRef>, p: PartRef, h: SnapRef)
    requires Counted(snaps, srefs, refs, tokens, extra)
    requires p in extra && h in tokens
    ensures extra[p] == 1 && p !in SeqOf(snaps, h)
  {
    assert |Holders(snaps, srefs.Keys, p)| == 0;
    assert h !in Holders(snaps, srefs.Keys, p);
  }

  lemma {:induction false} Cardinality<T>(a: set<T>, b: set<T>)
    requires a <= b
    ensures |a| <= |b|
  {
    if a != {} {
      var x :| x in a;
      Cardinality(a - {x}, b - {x});
    }
  }

  /** A new wrapper. */
  lemma AddExtra(
    snaps: map<SnapRef, Snap>, srefs: map<SnapRef, int>, refs: map<PartRef, int>,
    tokens: multiset<SnapRef>, extra: multiset<PartRef>, p: PartRef)
    requires Counted(snaps, srefs, refs, tokens, extra)
    requires p !in refs
    ensures Counted(snaps, srefs, refs[p := 1], tokens, extra + multiset{p})
  {
    assert p !in extra;
    assert Holders(snaps, srefs.Keys, p) == {};
  }

  /** One more hold on an open snapshot. */
  lemma AddToken(
    snaps: map<SnapRef, Snap>, srefs: map<SnapRef, int>, refs: map<PartRef, int>,
    tokens: multiset<SnapRef>, extra: multiset<PartRef>, h: SnapRef)
    requires Counted(snaps, srefs, refs, tokens, extra)
    requires h in tokens
    ensures Counted(snaps, srefs[h := srefs[h] + 1], refs, tokens + multiset{h}, extra)
  {
    assert srefs[h := srefs[h] + 1].Keys == srefs.Keys;
  }

  /** One hold less, when it is not the last one. */
  lemma DropToken(
    snaps: map<SnapRef, Snap>, srefs: map<SnapRef, int>, refs: map<PartRef, int>,
    tokens: multiset<SnapRef>, extra: multiset<PartRef>, h: SnapRef)
    requires Counted(snaps, srefs, refs, tokens, extra)
    requires tokens[h] > 1
    ensures Counted(snaps, srefs[h := srefs[h] - 1], refs, tokens - multiset{h}, extra)
  {
    assert srefs[h := srefs[h] - 1].Keys == srefs.Keys;
  }

  /** A snapshot with another hold stays open. */
  lemma NotLast(
    snaps: map<SnapRef, Snap>, srefs: map<SnapRef, int>, refs: map<PartRef, int>,
    tokens: multiset<SnapRef>, extra: multiset<PartRef>, h: SnapRef)
    requires Counted(snaps, srefs, refs, tokens + multiset{h}, extra) && h in tokens
    ensures h in srefs && srefs[h] > 1 && Counted(snaps, srefs[h := srefs[h] - 1], refs, tokens, extra)
  {
    assert h in tokens + multiset{h};
    assert tokens + multiset{h} - multiset{h} == tokens;
    DropToken(snaps, srefs, refs, tokens + multiset{h}, extra, h);
  }

  lemma HoldersLess(snaps: map<SnapRef, Snap>, open: set<SnapRef>, h: SnapRef, p: PartRef)
    requires h in open
    ensures |Holders(snaps, open - {h}, p)|
         == |Holders(snaps, open, p)| - (if p in SeqOf(snaps, h) then 1 else 0)
  {
    if p in SeqOf(snaps, h) {
      assert Holders(snaps, open - {h}, p) == Holders(snaps, open, p) - {h};
    } else {
      assert Holders(snaps, open - {h}, p) == Holders(snaps, open, p);
    }
  }

  /** The last hold on a snapshot: it is closed, and so are the parts that nothing else holds. */
  lemma CloseSnap(
    snaps: map<SnapRef, Snap>, srefs: map<SnapRef, int>, refs: map<PartRef, int>,
    tokens: multiset<SnapRef>, extra: multiset<PartRef>, h: SnapRef)
    requires Counted(snaps, srefs, refs, tokens, extra)
    requires tokens[h] == 1
    ensures Counted(snaps, srefs - {h}, Unref(refs, SeqOf(snaps, h)), tokens - multiset{h}, extra)
  {
    var open, open' := srefs.Keys, (srefs - {h}).Keys;
    var refs' := Unref(refs, SeqOf(snaps, h));
    assert open' == open - {h};
    assert PartsCounted(snaps, open', refs', extra) by {
      forall p | p in refs'
        ensures refs'[p] == |Holders(snaps, open', p)| + extra[p] && refs'[p] > 0
      {
        HoldersLess(snaps, open, h, p);
      }
      forall p | p in extra ensures p in refs' && refs'[p] == 1 {
        ExtraUnheld(snaps, srefs, refs, tokens, extra, p, h);
      }
    }
    forall g, p | g in open' && p in SeqOf(snaps, g) ensures p in refs' {
      StillHeld(snaps, srefs, refs, tokens, extra, h, g, p);
    }
  }

  lemma StillHeld(
    snaps: map<SnapRef, Snap>, srefs: map<SnapRef, int>, refs: map<PartRef, int>,
    tokens: multiset<SnapRef>, extra: multiset<PartRef>, h: SnapRef, g: SnapRef, p: PartRef)
    requires Counted(snaps, srefs, refs, tokens, extra)
    requires g in srefs && h in srefs && g != h && p in SeqOf(snaps, g)
    ensures p in Unref(refs, SeqOf(snaps, h))
  {
    if p in SeqOf(snaps, h) {
      assert {g, h} <= Holders(snaps, srefs.Keys, p);
      Cardinality({g, h}, Holders(snaps, srefs.Keys, p));
    }
  }

  lemma HoldersMore(snaps: map<SnapRef, Snap>, snaps': map<SnapRef, Snap>, open: set<SnapRef>, h: SnapRef, p: PartRef)
    requires h !in open
    requires forall g :: g in open ==> SeqOf(snaps', g) == SeqOf(snaps, g)
    ensures |Holders(snaps', open + {h}, p)|
         == |Holders(snaps, open, p)| + (if p in SeqOf(snaps', h) then 1 else 0)
  {
    if p in SeqOf(snaps', h) {
      assert Holders(snaps', open + {h}, p) == Holders(snaps, open, p) + {h};
    } else {
      assert Holders(snaps', open + {h}, p) == Holders(snaps, open, p);
    }
  }

  /**
    A new snapshot of open parts `kept`, which it takes a reference of, and of wrappers `outs`, whose
    own reference it takes over.
   */
  lemma OpenSnap(
    snaps: map<SnapRef, Snap>, srefs: map<SnapRef, int>, refs: map<PartRef, int>,
    tokens: multiset<SnapRef>, extra: multiset<PartRef>, h: SnapRef, snap: Snap, kept: seq<PartRef>, outs: seq<PartRef>)
    requires Counted(snaps, srefs, refs, tokens, extra)
    requires h !in snaps
    requires forall p :: p in kept ==> p in refs && p !in extra
    requires NoDup(snap.parts) && multiset(outs) <= extra
    requires forall p :: p in snap.parts <==> p in kept || p in outs
    ensures Counted(snaps[h := snap], srefs[h := 1], Addref(refs, kept), tokens + multiset{h}, extra - multiset(outs))
  {
    var snaps', refs', extra' := snaps[h := snap], Addref(refs, kept), extra - multiset(outs);
    var open := srefs.Keys;
    assert srefs[h := 1].Keys == open + {h};
    assert h !in tokens;
    assert SnapsCounted(snaps', srefs[h := 1], tokens + multiset{h});
    OutsAreExtra(extra, outs);
    assert PartsOpen(snaps', open + {h}, refs');
    PartsCountedWith(snaps, snaps', open, refs, extra, h, kept, outs);
  }

  lemma OutsAreExtra(extra: multiset<PartRef>, outs: seq<PartRef>)
    requires multiset(outs) <= extra
    ensures forall p :: p in outs ==> p in extra
  {
    forall p | p in outs ensures p in extra {
      assert p in multiset(outs);
    }
  }

  lemma PartsCountedWith(
    snaps: map<SnapRef, Snap>, snaps': map<SnapRef, Snap>, open: set<SnapRef>, refs: map<PartRef, int>,
    extra: multiset<PartRef>, h: SnapRef, kept: seq<PartRef>, outs: seq<PartRef>)
    requires PartsCounted(snaps, open, refs, extra)
    requires h !in open && (forall g :: g in open ==> SeqOf(snaps', g) == SeqOf(snaps, g))
    requires forall p :: p in kept ==> p in refs && p !in extra
    requires multiset(outs) <= extra
    requires forall p :: p in SeqOf(snaps', h) <==> p in kept || p in outs
    ensures PartsCounted(snaps', open + {h}, Addref(refs, kept), extra - multiset(outs))
  {
    var refs', extra' := Addref(refs, kept), extra - multiset(outs);
    OutsAreExtra(extra, outs);
    forall p | p in refs'
      ensures refs'[p] == |Holders(snaps', open + {h}, p)| + extra'[p] && refs'[p] > 0
    {
      HoldersMore(snaps, snaps', open, h, p);
      MovedOut(extra, outs, p, refs);
    }
  }

  lemma MovedOut(extra: multiset<PartRef>, outs: seq<PartRef>, p: PartRef, refs: map<PartRef, int>)
    requires multiset(outs) <= extra
    requires p in refs && refs[p] >= extra[p] && (p in extra ==> refs[p] == 1)
    ensures (extra - multiset(outs))[p] == extra[p] - (if p in outs then 1 else 0)
  {
    if p in outs {
      assert p in multiset(outs);
      assert p in extra;
    } else {
      assert p !in multiset(outs);
    }
  }
}
