/**
  The columns of merged blocks.  If the columns of the blocks of each series, as they are read, merge
  cleanly, then every append of a merge is clean, and what it writes has columns that the same blocks
  can be merged with.
 */
module MergeSchemas {
  import opened Points
  import opened Schemas
  import opened Joins
  import opened FamilyOrder
  import opened Parts

  /** The columns of the blocks of one series, as a merge reads them. */
  ghost function ReadIn(bs: multiset<Block>, sid: nat): iset<Schema> {
    iset b | b in bs && b.bm.sid == sid :: AsRead(b.schema)
  }

  /** The blocks of each series merge cleanly, in whatever order and however their rows interleave. */
  ghost predicate SchemasAgree(bs: multiset<Block>) {
    forall sid :: MergesCleanly(ReadIn(bs, sid))
  }

  /** `s` is carried along with `bs`, and is empty only if one of these is. */
  ghost predicate Made(s: Schema, bs: iset<Schema>) {
    Carried(s, bs) && (s == NO_COLUMNS ==> NO_COLUMNS in bs)
  }

  /** The columns of each of `out` arise from merging blocks of its series in `bs`. */
  ghost predicate MixedFrom(out: seq<Block>, bs: multiset<Block>) {
    forall b :: b in out ==> Made(b.schema, ReadIn(bs, b.bm.sid))
  }

  // ---------- the loop of a merge ----------

  /** What is written, and what is pending of series `sid`, has columns that arise from the blocks `all` of its series. */
  ghost predicate Columned(written: seq<Block>, pending: Option<Schema>, todo: multiset<Block>, sid: nat, all: multiset<Block>) {
    && SchemasAgree(all) && todo <= all && MixedFrom(written, all)
    && (pending.Some? ==> Made(pending.value, ReadIn(all, sid)))
  }

  lemma Begin(all: multiset<Block>)
    requires SchemasAgree(all)
    ensures Columned([], None, all, 0, all)
  {
    hide Mergeable, Join, MergesCleanly;
  }

  lemma CarriedMerges(p: Schema, b: Schema, bs: iset<Schema>)
    requires MergesCleanly(bs) && Made(p, bs) && b in bs
    ensures Mergeable(p, b)
    ensures forall s :: Sides(s, p, b) ==> Made(s, bs) && WFSchema(s)
  {
    hide Mergeable, Join, WFSchema;
    var k :| Carries(k, bs);
    assert p in k;
    JoinOfNothing(p, b);
    JoinOfNothing(b, p);
    forall s | Sides(s, p, b) ensures Made(s, bs) && WFSchema(s) {
      MergeTurn(s, p, b);
      forall k' | Carries(k', bs) ensures s in k' {
        BetweenIsCarried(s, p, b, k', bs);
      }
    }
  }

  /** Only nothing joined with nothing has no columns. */
  lemma JoinOfNothing(a: Schema, b: Schema)
    ensures Join(a, b) == NO_COLUMNS ==> a == NO_COLUMNS
  {
    assert |JoinTags(a.tags, b.tags)| >= |a.tags| && |JoinNames(a.fields, b.fields)| >= |a.fields|;
  }

  /** The next block replaces what is pending, once that has been written or there is none. */
  lemma Fetch(written: seq<Block>, pending: Option<Schema>, todo: multiset<Block>, sid: nat, all: multiset<Block>, b: Block)
    requires Columned(written, pending, todo, sid, all) && b in todo
    ensures b in all && WFSchema(AsRead(b.schema)) && AlwaysClean(NO_COLUMNS, AsRead(b.schema))
    ensures WFSchema(NO_COLUMNS) && Join(NO_COLUMNS, AsRead(b.schema)) == AsRead(b.schema)
    ensures Columned(written, Some(AsRead(b.schema)), todo - multiset{b}, b.bm.sid, all)
    ensures Columned(written, None, todo - multiset{b}, b.bm.sid, all)
  {
    hide Mergeable, Join, AsRead, AlwaysClean, MergesCleanly, WFSchema, Carried, MixedFrom;
    assert b in all;
    var r, bs := AsRead(b.schema), ReadIn(all, b.bm.sid);
    BlockCarried(r, bs);
    JoinNothing(r);
    EmptyIsClean(r);
  }

  /** The blocks themselves are carried along. */
  lemma BlockCarried(b: Schema, bs: iset<Schema>)
    requires MergesCleanly(bs) && b in bs
    ensures Carried(b, bs) && WFSchema(b)
  {
    hide WFSchema, AlwaysClean, Join;
    JoinNothing(b);
    forall k | Carries(k, bs) ensures b in k && WFSchema(b) {
      assert Mergeable(NO_COLUMNS, b) && Join(NO_COLUMNS, b) in k;
    }
  }

  /** The next block, of the pending series, is merged with what is pending. */
  lemma Merge(written: seq<Block>, pending: Schema, todo: multiset<Block>, sid: nat, all: multiset<Block>, b: Block)
    requires Columned(written, Some(pending), todo, sid, all) && b in todo && b.bm.sid == sid
    ensures Mergeable(pending, AsRead(b.schema))
    ensures forall s :: Sides(s, pending, AsRead(b.schema)) ==>
      Columned(written, Some(s), todo - multiset{b}, sid, all) && WFSchema(s)
  {
    hide Mergeable, Join, AsRead, MergesCleanly, WFSchema, Sides, Carried, MixedFrom;
    assert b in all;
    CarriedMerges(pending, AsRead(b.schema), ReadIn(all, sid));
  }

  /** A block with the pending columns is written. */
  lemma Write(written: seq<Block>, pending: Schema, todo: multiset<Block>, sid: nat, all: multiset<Block>, out: Block)
    requires Columned(written, Some(pending), todo, sid, all) && out.bm.sid == sid && out.schema == pending
    ensures Columned(written + [out], Some(pending), todo, sid, all)
  {
    hide Carried, SchemasAgree;
  }

  /** Such a block is written and nothing stays pending. */
  lemma WriteLast(written: seq<Block>, pending: Schema, todo: multiset<Block>, sid: nat, all: multiset<Block>, out: Block)
    requires Columned(written, Some(pending), todo, sid, all) && out.bm.sid == sid && out.schema == pending
    ensures Columned(written + [out], None, todo, sid, all)
  {
    hide Carried, SchemasAgree;
  }

  lemma Written(written: seq<Block>, pending: Option<Schema>, todo: multiset<Block>, sid: nat, all: multiset<Block>)
    requires Columned(written, pending, todo, sid, all)
    ensures MixedFrom(written, all)
  {
  }

  // ---------- merges of merges ----------

  /** A set of schemas that merging, writing and reading back never leaves. */
  ghost predicate Lasting(k: iset<Schema>) {
    Carries(k, iset s | s in k :: AsRead(s))
  }

  /** Every block has columns of the set for its series. */
  ghost predicate Within(bs: multiset<Block>, ks: nat -> iset<Schema>) {
    forall b :: b in bs ==> b.schema in ks(b.bm.sid)
  }

  lemma ReadWithin(bs: multiset<Block>, ks: nat -> iset<Schema>, sid: nat)
    requires Within(bs, ks) && Lasting(ks(sid))
    ensures Carries(ks(sid), ReadIn(bs, sid))
  {
    hide Carries, AsRead;
    var read := iset s | s in ks(sid) :: AsRead(s);
    assert ReadIn(bs, sid) <= read;
    CarriesFewer(ks(sid), read, ReadIn(bs, sid));
  }

  /** Blocks within lasting sets agree, and whatever merges make of them is within the same sets. */
  lemma StillWithin(bs: multiset<Block>, out: seq<Block>, ks: nat -> iset<Schema>)
    requires Within(bs, ks) && (forall sid :: Lasting(ks(sid)))
    ensures SchemasAgree(bs)
    ensures MixedFrom(out, bs) ==> Within(multiset(out), ks)
  {
    hide Carries, Lasting, ReadIn;
    forall sid: nat ensures Carries(ks(sid), ReadIn(bs, sid)) {
      ReadWithin(bs, ks, sid);
    }
  }
}
