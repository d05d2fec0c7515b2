/**
  Ways in which the columns of a series can grow and its blocks still merge cleanly for ever, and one in
  which they cannot.
 */
module SchemaGrowth {
  import opened Schemas
  import opened Joins
  import opened FamilyOrder
  import opened MergeSchemas

  /** A set all of whose members can be appended to each other, and which joining does not leave. */
  lemma PairwiseCarries(k: iset<Schema>)
    requires NO_COLUMNS in k
    requires forall p, q :: p in k && q in k ==> WFSchema(p) && AlwaysClean(p, q) && Join(p, q) in k
    ensures Carries(k, k)
  {
    hide WFSchema, AlwaysClean, Join;
  }

  lemma PairwiseLasts(k: iset<Schema>)
    requires Carries(k, k) && forall s :: s in k ==> AsRead(s) in k
    ensures Lasting(k)
  {
    hide Carries, AsRead;
    CarriesFewer(k, k, iset s | s in k :: AsRead(s));
  }

  // ---------- columns that are only added at the end ----------

  /** One list of fields continues the other. */
  predicate FieldsFit(a: seq<string>, b: seq<string>) {
    a <= b || b <= a
  }

  /** `b` has the families of `a` first, each with the columns it has in `a` first. */
  predicate Continues(a: seq<FamilyNames>, b: seq<FamilyNames>) {
    && |a| <= |b|
    && forall i :: 0 <= i < |a| ==> a[i].name == b[i].name && a[i].columns <= b[i].columns
  }

  /** One list of families continues the other, and the fast path succeeds or writes nothing. */
  predicate TagsFit(a: seq<FamilyNames>, b: seq<FamilyNames>) {
    a == b || ((Continues(a, b) || Continues(b, a)) && (|a| != |b| || (!Wrote(a, b) && !Wrote(b, a))))
  }

  predicate Fits(a: Schema, b: Schema) {
    TagsFit(a.tags, b.tags) && FieldsFit(a.fields, b.fields)
  }

  function Larger(a: Schema, b: Schema): Schema {
    Schema(if Continues(a.tags, b.tags) then b.tags else a.tags, if a.fields <= b.fields then b.fields else a.fields)
  }

  lemma {:induction false} KnownFirst(a: seq<string>, b: seq<string>, known: set<string>, i: nat)
    requires i < |a| <= |b| && a <= b && NameSet(a) <= known
    ensures FreshBefore(b, known, a[i]) == 0
  {
    assert b[0] == a[0] && a[0] in NameSet(a);
    if i > 0 && b[0] != a[i] {
      assert a[1..] <= b[1..] && NameSet(a[1..]) <= NameSet(a);
      KnownFirst(a[1..], b[1..], known, i - 1);
    }
  }

  lemma PrefixNoneLate(a: seq<string>, room: nat, b: seq<string>)
    requires FieldsFit(a, b)
    ensures NoneLate(NameSet(a), room, b)
  {
    forall n | n in b && n in NameSet(a) ensures FreshBefore(b, NameSet(a), n) <= room {
      if a <= b {
        var i :| 0 <= i < |a| && a[i] == n;
        KnownFirst(a, b, NameSet(a), i);
      } else {
        NoneFresh(b, NameSet(a), n);
      }
    }
  }

  /** Field lists that continue each other are clean, however little room there is. */
  lemma FieldsFitClean(a: seq<string>, room: nat, b: seq<string>)
    requires FieldsFit(a, b)
    ensures Clean(a, room, b)
  {
    PrefixNoneLate(a, room, b);
    if |a| == |b| {
      assert a == b;
    }
  }

  lemma HeadsPrefix(a: seq<FamilyNames>, b: seq<FamilyNames>)
    requires Continues(a, b)
    ensures Heads(a) <= Heads(b)
  {
    forall i | 0 <= i < |a| ensures Heads(a)[i] == Heads(b)[i] { }
  }

  /** The columns that `b` has for the i-th family of `a`. */
  lemma {:induction false} Counterpart(a: seq<FamilyNames>, b: seq<FamilyNames>, i: nat)
    requires UniqueTags(a) && UniqueTags(b) && (Continues(a, b) || Continues(b, a)) && i < |a|
    ensures ColumnNamesOf(b, a[i].name) == if i < |b| then b[i].columns else []
    ensures i < |b| ==> a[i].name == b[i].name && FieldsFit(a[i].columns, b[i].columns)
  {
    if i < |b| {
      ColumnNamesAt(b, i);
    } else {
      forall j | 0 <= j < |b| ensures Heads(b)[j] != a[i].name {
        assert a[j].name == b[j].name && Heads(a)[j] != Heads(a)[i];
      }
      ColumnNamesMissing(b, a[i].name);
    }
  }

  /** Families that continue each other are fine, however little room there is. */
  lemma ContinuesFine(a: seq<FamilyNames>, rooms: seq<nat>, room: nat, b: seq<FamilyNames>)
    requires |rooms| == |a| && UniqueTags(a) && UniqueTags(b) && (Continues(a, b) || Continues(b, a))
    ensures FamiliesFine(a, rooms, room, b)
  {
    hide ColumnNamesOf;
    if Continues(a, b) { HeadsPrefix(a, b); } else { HeadsPrefix(b, a); }
    PrefixNoneLate(Heads(a), room, Heads(b));
    forall i | 0 <= i < |a|
      ensures FamilyFine(a[i].columns, rooms[i], IsLate(a, room, b, a[i].name), ColumnNamesOf(b, a[i].name))
    {
      Counterpart(a, b, i);
      if i < |b| {
        assert Heads(a)[i] == Heads(b)[i] && Heads(a)[i] in NameSet(Heads(a)) && Heads(b)[i] in Heads(b);
        PrefixNoneLate(a[i].columns, rooms[i], b[i].columns);
      }
    }
  }

  lemma TagsFitClean(a: seq<FamilyNames>, rooms: seq<nat>, room: nat, b: seq<FamilyNames>)
    requires |rooms| == |a| && UniqueTags(a) && UniqueTags(b) && TagsFit(a, b)
    ensures CleanTags(a, rooms, room, b)
  {
    hide FamiliesFine;
    if a != b {
      ContinuesFine(a, rooms, room, b);
    }
  }

  lemma {:induction false} FreshTail(a: seq<string>, b: seq<string>, known: set<string>)
    requires (forall n :: n in a ==> n in known) && (forall n :: n in b ==> n !in known)
    ensures FreshNames(a + b, known) == b
  {
    if a == [] {
      assert a + b == b;
      if b != [] {
        FreshTail([], b[1..], known);
        assert [] + b[1..] == b[1..];
      }
    } else {
      FreshTail(a[1..], b, known);
      assert (a + b)[1..] == a[1..] + b;
    }
  }

  lemma JoinPrefix(a: seq<string>, b: seq<string>)
    requires FieldsFit(a, b) && Unique(b)
    ensures JoinNames(a, b) == if a <= b then b else a
  {
    if a <= b {
      assert b == a + b[|a|..];
      forall n | n in b[|a|..] ensures n !in NameSet(a) {
        var j :| 0 <= j < |b[|a|..]| && b[|a|..][j] == n;
        assert forall i :: 0 <= i < |a| ==> b[i] != b[|a| + j];
      }
      FreshTail(a, b[|a|..], NameSet(a));
    } else {
      JoinKnown(a, b);
    }
  }

  lemma {:induction false} FreshFamiliesTail(a: seq<FamilyNames>, b: seq<FamilyNames>, known: set<string>)
    requires forall i :: 0 <= i < |a| ==> a[i].name in known
    requires forall i :: 0 <= i < |b| ==> b[i].name !in known
    ensures FreshFamilyNames(a + b, known) == b
  {
    if a == [] {
      assert a + b == b;
      if b != [] {
        assert forall i :: 0 <= i < |b[1..]| ==> b[1..][i] == b[i + 1];
        FreshFamiliesTail([], b[1..], known);
        assert [] + b[1..] == b[1..];
      }
    } else {
      assert forall i :: 0 <= i < |a[1..]| ==> a[1..][i] == a[i + 1];
      FreshFamiliesTail(a[1..], b, known);
      assert (a + b)[1..] == a[1..] + b;
    }
  }

  lemma {:induction false} FreshRest(a: seq<FamilyNames>, b: seq<FamilyNames>)
    requires UniqueTags(b) && (Continues(a, b) || Continues(b, a))
    ensures FreshFamilyNames(b, NameSet(Heads(a))) == if |a| <= |b| then b[|a|..] else []
  {
    hide FreshFamilyNames;
    var n := if |a| <= |b| then |a| else |b|;
    assert b == b[..n] + b[n..];
    forall i | 0 <= i < |b[..n]| ensures b[..n][i].name in NameSet(Heads(a)) {
      assert Heads(a)[i] == b[i].name;
    }
    forall i | 0 <= i < |b[n..]| ensures b[n..][i].name !in NameSet(Heads(a)) {
      forall j | 0 <= j < |a| ensures Heads(a)[j] != b[n + i].name {
        assert Heads(a)[j] == Heads(b)[j] && Heads(b)[j] != Heads(b)[n + i];
      }
    }
    FreshFamiliesTail(b[..n], b[n..], NameSet(Heads(a)));
  }

  /** The join of schemas that fit is the larger one. */
  lemma JoinFits(a: Schema, b: Schema)
    requires WFSchema(a) && WFSchema(b) && Fits(a, b)
    ensures Join(a, b) == Larger(a, b)
  {
    hide ColumnNamesOf, JoinNames, FreshFamilyNames, Wrote;
    JoinPrefix(a.fields, b.fields);
    FreshRest(a.tags, b.tags);
    var t, l := JoinTags(a.tags, b.tags), Larger(a, b).tags;
    forall i | 0 <= i < |a.tags| ensures t[i] == l[i] {
      Counterpart(a.tags, b.tags, i);
      if i < |b.tags| {
        JoinPrefix(a.tags[i].columns, b.tags[i].columns);
      } else {
        JoinKnown(a.tags[i].columns, []);
      }
    }
  }

  lemma FitsClean(a: Schema, b: Schema)
    requires WFSchema(a) && WFSchema(b) && Fits(a, b)
    ensures AlwaysClean(a, b)
  {
    hide Clean, CleanTags, FieldsFit, TagsFit;
    FieldsFitClean(a.fields, 0, b.fields);
    TagsFitClean(a.tags, RoomsFor(a.tags, NO_ROOM.columns), 0, b.tags);
  }

  /** Of these schemas any two fit, and families are in the order of their names. */
  ghost predicate Chain(ss: iset<Schema>) {
    && (forall a :: a in ss ==> WFSchema(a) && FamilyOrder.InOrder(a))
    && (forall a, b :: a in ss && b in ss ==> Fits(a, b))
  }

  /** The tags of a schema in `ss`, or none, and the fields of one, or none. */
  ghost predicate Mixed(s: Schema, ss: iset<Schema>) {
    && (s.tags == [] || exists a :: a in ss && a.tags == s.tags)
    && (s.fields == [] || exists a :: a in ss && a.fields == s.fields)
  }

  lemma MixedFits(a: Schema, b: Schema, ss: iset<Schema>)
    requires Chain(ss) && Mixed(a, ss) && Mixed(b, ss)
    ensures WFSchema(a) && FamilyOrder.InOrder(a) && Fits(a, b) && Mixed(Larger(a, b), ss)
  {
    hide TagsFit, FieldsFit, Ascending, UniqueTags, Unique;
    EmptyFits(a.tags, a.fields);
    EmptyFits(b.tags, b.fields);
    if a.tags != [] && b.tags != [] {
      var x, y :| x in ss && x.tags == a.tags && y in ss && y.tags == b.tags;
      assert Fits(x, y);
    }
    if a.fields != [] && b.fields != [] {
      var x, y :| x in ss && x.fields == a.fields && y in ss && y.fields == b.fields;
      assert Fits(x, y);
    }
  }

  lemma EmptyFits(tags: seq<FamilyNames>, fields: seq<string>)
    ensures TagsFit([], tags) && TagsFit(tags, []) && FieldsFit([], fields) && FieldsFit(fields, [])
    ensures Unique([]) && UniqueTags([]) && Ascending(Heads([]))
  {
  }

  /**
    Columns added at the end only: if, as read, the fields of each block are a prefix of those of any
    larger one, and its families come first, each with its columns first, then the blocks merge cleanly,
    and so does everything that merges ever make of them.
   */
  lemma ChainLasts(ss: iset<Schema>, k: iset<Schema>)
    requires Chain(ss) && k == iset s | Mixed(s, ss)
    ensures ss <= k && Carries(k, ss) && Lasting(k)
  {
    hide Chain, Fits, Join, AlwaysClean, WFSchema, Larger, AsRead, FamilyOrder.InOrder;
    forall p, q | p in k && q in k ensures WFSchema(p) && AlwaysClean(p, q) && Join(p, q) in k && AsRead(p) == p {
      MixedFits(p, q, ss);
      MixedFits(q, p, ss);
      FitsClean(p, q);
      JoinFits(p, q);
      AsReadIs(p);
    }
    PairwiseCarries(k);
    PairwiseLasts(k);
    CarriesFewer(k, k, ss);
  }


  // ---------- a family that is added ----------

  lemma {:induction false} SetSize(names: seq<string>)
    requires Unique(names)
    ensures |NameSet(names)| == |names|
  {
    if names != [] {
      var init, x := names[..|names| - 1], names[|names| - 1];
      assert names == init + [x];
      SetSize(init);
      assert NameSet(names) == NameSet(init) + {x} && x !in NameSet(init);
    }
  }

  /** A list that has the names of both has as many as the second, if that has those of the first. */
  lemma JoinSize(a: seq<string>, b: seq<string>)
    requires Unique(a) && Unique(b) && forall n :: n in a ==> n in b
    ensures |JoinNames(a, b)| == |b|
  {
    hide JoinNames;
    JoinNamesAre(a, b);
    SetSize(JoinNames(a, b));
    SetSize(b);
    assert NameSet(JoinNames(a, b)) == NameSet(b);
  }

  /**
    A family that is added after a first one that has columns, and not at the end, breaks merges: appended
    once, it comes last; appended again, the lists of families are equally long and differ in their order, and the fast path gives up
    after it has written the first family.
   */
  lemma InsertedFamilyBreaks(a: Schema, b: Schema)
    requires WFSchema(a) && WFSchema(b) && a.tags != [] && b.tags != []
    requires a.tags[0] == b.tags[0] && a.tags[0].columns != []
    requires (forall n :: n in Heads(a.tags) ==> n in Heads(b.tags)) && !(Heads(a.tags) <= Heads(b.tags))
    ensures !Mergeable(a, b)
  {
    hide FamiliesFine, Clean, UniqueTags, ColumnNamesOf, FreshFamilyNames, JoinNames;
    var j, first := JoinTags(a.tags, b.tags), b.tags[0].columns;
    UniqueHeads(a.tags);
    UniqueHeads(b.tags);
    JoinHeads(a.tags, b.tags);
    JoinSize(Heads(a.tags), Heads(b.tags));
    JoinNamesIs(Heads(a.tags), Heads(b.tags));
    assert |Heads(j)| == |j| && |Heads(b.tags)| == |b.tags|;
    ColumnNamesAt(b.tags, 0);
    JoinKnown(first, first);
    assert j[0] == b.tags[0];
    assert Wrote(j, b.tags);
  }

  lemma UniqueHeads(fs: seq<FamilyNames>)
    requires UniqueTags(fs)
    ensures Unique(Heads(fs))
  {
  }

  /** One append of such a block is clean all the same. */
  lemma InsertedFamilyOnce(f: FamilyNames, g: FamilyNames, h: FamilyNames)
    requires f.name != g.name && f.name != h.name && g.name != h.name && f.columns != []
    requires Unique(f.columns) && Unique(g.columns) && Unique(h.columns)
    ensures var a, b := Schema([f, h], []), Schema([f, g, h], []); AlwaysClean(a, b) && !Mergeable(a, b)
  {
    var a, b := Schema([f, h], []), Schema([f, g, h], []);
    InsertedWF(f, g, h);
    InsertedClean(f, g, h);
    assert Heads(a.tags) == [f.name, h.name] && Heads(b.tags) == [f.name, g.name, h.name];
    assert Heads(a.tags)[1] != Heads(b.tags)[1];
    InsertedFamilyBreaks(a, b);
  }

  lemma InsertedWF(f: FamilyNames, g: FamilyNames, h: FamilyNames)
    requires f.name != g.name && f.name != h.name && g.name != h.name
    requires Unique(f.columns) && Unique(g.columns) && Unique(h.columns)
    ensures WFSchema(Schema([f, h], [])) && WFSchema(Schema([f, g, h], []))
  {
    assert Heads([f, h]) == [f.name, h.name] && Heads([f, g, h]) == [f.name, g.name, h.name];
  }

  lemma InsertedClean(f: FamilyNames, g: FamilyNames, h: FamilyNames)
    requires f.name != g.name && f.name != h.name && g.name != h.name
    ensures AlwaysClean(Schema([f, h], []), Schema([f, g, h], []))
  {
    hide FreshBefore, ColumnNamesOf;
    var a, b := [f, h], [f, g, h];
    assert Heads(b) == [f.name, g.name, h.name];
    ColumnNamesAt(b, 0);
    ColumnNamesAt(b, 2);
    forall i | 0 <= i < 2 ensures FamilyFine(a[i].columns, 0, IsLate(a, 0, b, a[i].name), a[i].columns) {
      ItselfFine(a[i].columns, IsLate(a, 0, b, a[i].name));
    }
  }

  lemma ItselfFine(columns: seq<string>, late: bool)
    ensures FamilyFine(columns, 0, late, columns)
  {
    PrefixNoneLate(columns, 0, columns);
  }

  // ---------- a family that is read first ----------

  ghost function Prepended(f: FamilyNames, g: FamilyNames, fields: seq<string>): iset<Schema> {
    iset{NO_COLUMNS, Schema([f], fields), Schema([g, f], fields), Schema([f, g], fields)}
  }

  /** Lists of these families, each with the same columns wherever it is. */
  ghost predicate Of(tags: seq<FamilyNames>, f: FamilyNames, g: FamilyNames) {
    tags == [f] || tags == [g, f] || tags == [f, g]
  }

  lemma {:induction false} OfColumns(tags: seq<FamilyNames>, f: FamilyNames, g: FamilyNames, n: string)
    requires Of(tags, f, g) && f.name != g.name
    ensures ColumnNamesOf(tags, n)
         == if n == f.name then f.columns else if n == g.name && |tags| == 2 then g.columns else []
    ensures Heads(tags) == if tags == [f] then [f.name] else if tags == [g, f] then [g.name, f.name] else [f.name, g.name]
  {
    hide ColumnNamesOf;
    OneFamily(f, n);
    TwoFamilies(f, g, n);
    TwoFamilies(g, f, n);
    assert Heads([f]) == [f.name] && Heads([f, g]) == [f.name, g.name] && Heads([g, f]) == [g.name, f.name];
  }

  lemma {:induction false} OneFamily(x: FamilyNames, n: string)
    ensures ColumnNamesOf([x], n) == if n == x.name then x.columns else []
  {
    assert [x][1..] == [];
  }

  lemma {:induction false} TwoFamilies(x: FamilyNames, y: FamilyNames, n: string)
    ensures ColumnNamesOf([x, y], n) == if n == x.name then x.columns else if n == y.name then y.columns else []
  {
    assert [x, y][1..] == [y];
    OneFamily(y, n);
  }

  lemma {:induction false} OneFresh(x: FamilyNames, known: set<string>)
    ensures FreshFamilyNames([x], known) == if x.name in known then [] else [x]
  {
    assert [x][1..] == [];
  }

  lemma {:induction false} TwoFresh(x: FamilyNames, y: FamilyNames, known: set<string>)
    ensures FreshFamilyNames([x, y], known) == (if x.name in known then [] else [x]) + (if y.name in known then [] else [y])
  {
    assert [x, y][1..] == [y];
    OneFresh(y, known);
  }

  lemma {:induction false} TwoSorted(x: string, y: string)
    requires Below(x, y)
    ensures SortNames([x, y]) == [x, y] == SortNames([y, x]) && SortNames([y]) == [y]
  {
    hide Below, SortNames;
    BelowIsStrict(x, y);
    SortNamesIs([x, y]);
    SortNamesIs([y]);
    SortNamesIs([y, x]);
    AscendingUnique(SortNames([y, x]), [x, y]);
  }

  lemma OfWF(tags: seq<FamilyNames>, f: FamilyNames, g: FamilyNames, fields: seq<string>)
    requires Of(tags, f, g) && f.name != g.name && Unique(f.columns) && Unique(g.columns) && Unique(fields)
    ensures WFSchema(Schema(tags, fields))
  {
    OfColumns(tags, f, g, f.name);
  }

  lemma OfClean(a: seq<FamilyNames>, b: seq<FamilyNames>, f: FamilyNames, g: FamilyNames, fields: seq<string>)
    requires Of(a, f, g) && Of(b, f, g) && f.name != g.name
    ensures AlwaysClean(Schema(a, fields), Schema(b, fields))
  {
    hide FreshBefore, ColumnNamesOf;
    OfColumns(b, f, g, f.name);
    OfColumns(b, f, g, g.name);
    forall i | 0 <= i < |a|
      ensures FamilyFine(a[i].columns, 0, IsLate(a, 0, b, a[i].name), ColumnNamesOf(b, a[i].name))
    {
      ItselfFine(a[i].columns, IsLate(a, 0, b, a[i].name));
    }
  }

  lemma OfJoin(a: seq<FamilyNames>, b: seq<FamilyNames>, f: FamilyNames, g: FamilyNames, fields: seq<string>)
    requires Of(a, f, g) && Of(b, f, g) && f.name != g.name && Unique(f.columns) && Unique(g.columns) && Unique(fields)
    ensures Join(Schema(a, fields), Schema(b, fields)) == Schema(if |a| < |b| then [f, g] else a, fields)
  {
    hide ColumnNamesOf, JoinNames, FreshNames, FreshFamilyNames;
    var known := NameSet(Heads(a));
    OneFresh(f, known);
    TwoFresh(f, g, known);
    TwoFresh(g, f, known);
    OfColumns(b, f, g, f.name);
    OfColumns(b, f, g, g.name);
    OfColumns(a, f, g, f.name);
    JoinKnown(fields, fields);
    JoinKnown(f.columns, f.columns);
    JoinKnown(g.columns, g.columns);
    JoinKnown(g.columns, []);
    assert f.name in known && (g.name in known <==> |a| == 2);
    var t := JoinTags(a, b);
    assert |t| == |a| + |FreshFamilyNames(b, known)|;
    forall i | 0 <= i < |a| ensures t[i] == a[i] { }
  }

  lemma OfRead(tags: seq<FamilyNames>, f: FamilyNames, g: FamilyNames, fields: seq<string>)
    requires Of(tags, f, g) && Below(g.name, f.name) && Unique(f.columns) && Unique(g.columns) && Unique(fields)
    ensures AsRead(Schema(tags, fields)) == Schema(if tags == [f] then [f] else [g, f], fields)
  {
    hide ColumnNamesOf, Below, SortNames;
    BelowIsStrict(g.name, f.name);
    OfColumns(tags, f, g, f.name);
    OfColumns(tags, f, g, g.name);
    TwoSorted(g.name, f.name);
  }

  /** A new family whose name comes before that of the old one is read first; such blocks merge cleanly for ever. */
  lemma PrependedFamilyLasts(f: FamilyNames, g: FamilyNames, fields: seq<string>)
    requires Below(g.name, f.name) && Unique(f.columns) && Unique(g.columns) && Unique(fields)
    ensures Lasting(Prepended(f, g, fields))
  {
    BelowIsStrict(g.name, f.name);
    hide AlwaysClean, Join, WFSchema, AsRead, Below;
    var k := Prepended(f, g, fields);
    forall p, q | p in k && q in k ensures WFSchema(p) && AlwaysClean(p, q) && Join(p, q) in k && AsRead(p) in k {
      EmptyIsClean(p);
      EmptyIsClean(q);
      JoinNothing(q);
      NothingKnown(p);
      NothingRead();
      if p != NO_COLUMNS {
        OfWF(p.tags, f, g, fields);
        OfRead(p.tags, f, g, fields);
        JoinAbsorbs(p, NO_COLUMNS);
        if q != NO_COLUMNS {
          OfClean(p.tags, q.tags, f, g, fields);
          OfJoin(p.tags, q.tags, f, g, fields);
        }
      }
    }
    PairwiseCarries(k);
    PairwiseLasts(k);
  }

  lemma NothingRead()
    ensures AsRead(NO_COLUMNS) == NO_COLUMNS
  {
    assert Heads([]) == [];
  }
}
