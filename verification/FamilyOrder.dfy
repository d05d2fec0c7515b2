/**
  Reading a block back.  Its metadata keeps tag families in a map, so a merge sees them in the order of
  their names, whatever order they were written in; columns within a family keep theirs.
 */
module FamilyOrder {
  import Collections
  import opened Schemas

  // ---------- sort.Strings ----------

  /** By the first character that differs; a proper prefix comes first. */
  predicate Below(a: string, b: string) {
    b != [] && (a == [] || a[0] < b[0] || (a[0] == b[0] && Below(a[1..], b[1..])))
  }

  predicate Ascending(names: seq<string>) {
    forall i, j :: 0 <= i < j < |names| ==> Below(names[i], names[j])
  }

  /** What the order means: where the two first differ, the lesser character or the end. */
  lemma {:induction false} BelowIff(a: string, b: string)
    ensures Below(a, b) <==> FirstDifference(a, b)
    decreases |a|
  {
    if a != [] && b != [] {
      BelowIff(a[1..], b[1..]);
      if a[0] < b[0] {
        assert DiffersAt(a, b, 0);
      }
      if a[0] == b[0] && FirstDifference(a[1..], b[1..]) {
        var n :| 0 <= n <= |a[1..]| && DiffersAt(a[1..], b[1..], n);
        assert a[..n + 1] == [a[0]] + a[1..][..n] && b[..n + 1] == [b[0]] + b[1..][..n];
        assert DiffersAt(a, b, n + 1);
      }
      if FirstDifference(a, b) {
        var n :| 0 <= n <= |a| && DiffersAt(a, b, n);
        if n > 0 {
          assert a[..n][0] == b[..n][0];
          assert a[1..][..n - 1] == a[..n][1..] && b[1..][..n - 1] == b[..n][1..];
          assert DiffersAt(a[1..], b[1..], n - 1);
        } else {
          assert a[0] < b[0];
        }
      }
    } else if a == [] && b != [] {
      assert DiffersAt(a, b, 0);
    }
  }

  predicate FirstDifference(a: string, b: string) {
    exists n :: 0 <= n <= |a| && DiffersAt(a, b, n)
  }

  predicate DiffersAt(a: string, b: string, n: nat) {
    n <= |a| && n < |b| && a[..n] == b[..n] && (n == |a| || a[n] < b[n])
  }

  lemma {:induction false} BelowIsStrict(a: string, b: string)
    ensures Below(a, b) ==> !Below(b, a) && a != b
    decreases |a|
  {
    if a != [] && b != [] {
      BelowIsStrict(a[1..], b[1..]);
    }
  }

  lemma {:induction false} BelowIsTotal(a: string, b: string)
    ensures a == b || Below(a, b) || Below(b, a)
    decreases |a|
  {
    if a != [] && b != [] {
      BelowIsTotal(a[1..], b[1..]);
      assert a == [a[0]] + a[1..] && b == [b[0]] + b[1..];
    }
  }

  lemma {:induction false} BelowIsTransitive(a: string, b: string, c: string)
    requires Below(a, b) && Below(b, c)
    ensures Below(a, c)
    decreases |a|
  {
    if a != [] && a[0] == b[0] == c[0] {
      BelowIsTransitive(a[1..], b[1..], c[1..]);
    }
  }

  lemma BelowOrders()
    ensures Collections.Orders(Below)
  {
    hide Below;
    forall a, b | Below(a, b) ensures !Below(b, a) {
      BelowIsStrict(a, b);
    }
    forall a, b, c | Below(a, c) ensures Below(a, b) || Below(b, c) {
      BelowIsTotal(a, b);
      if Below(b, a) {
        BelowIsTransitive(b, a, c);
      }
    }
  }

  function Insert(x: string, s: seq<string>): seq<string> {
    if s == [] || Below(x, s[0]) then [x] + s else [s[0]] + Insert(x, s[1..])
  }

  function SortNames(s: seq<string>): seq<string> {
    if s == [] then [] else Insert(s[0], SortNames(s[1..]))
  }

  lemma {:induction false} InsertElems(x: string, s: seq<string>)
    ensures multiset(Insert(x, s)) == multiset{x} + multiset(s)
  {
    hide Below;
    if s != [] && !Below(x, s[0]) {
      InsertElems(x, s[1..]);
      assert s == [s[0]] + s[1..];
    }
  }

  lemma {:induction false} InsertAscends(x: string, s: seq<string>)
    requires Ascending(s) && x !in s
    ensures Ascending(Insert(x, s))
  {
    hide Below, Insert;
    InsertHead(x, s);
    if s != [] {
      BelowIsTotal(x, s[0]);
      if Below(x, s[0]) {
        forall i | 0 < i < |s| ensures Below(x, s[i]) {
          BelowIsTransitive(x, s[0], s[i]);
        }
      } else {
        InsertAscends(x, s[1..]);
        InsertedAfter(s[0], x, s[1..]);
      }
    }
  }

  lemma {:induction false} InsertHead(x: string, s: seq<string>)
    ensures Insert(x, s) == if s == [] || Below(x, s[0]) then [x] + s else [s[0]] + Insert(x, s[1..])
  {
  }

  lemma {:induction false} InsertedAfter(first: string, x: string, s: seq<string>)
    requires Below(first, x) && forall i :: 0 <= i < |s| ==> Below(first, s[i])
    ensures forall i :: 0 <= i < |Insert(x, s)| ==> Below(first, Insert(x, s)[i])
  {
    hide Below, Insert;
    InsertElems(x, s);
    var r := Insert(x, s);
    forall i | 0 <= i < |r| ensures Below(first, r[i]) {
      assert r[i] in multiset(r);
      if r[i] != x {
        assert r[i] in s;
      }
    }
  }

  lemma {:induction false} SortElems(s: seq<string>)
    ensures multiset(SortNames(s)) == multiset(s)
  {
    hide Insert;
    if s != [] {
      SortElems(s[1..]);
      InsertElems(s[0], SortNames(s[1..]));
      assert s == [s[0]] + s[1..];
    }
  }

  lemma {:induction false} SortAscends(s: seq<string>)
    requires Unique(s)
    ensures Ascending(SortNames(s))
  {
    hide Insert, Below;
    if s != [] {
      forall i, j | 0 <= i < j < |s[1..]| ensures s[1..][i] != s[1..][j] {
        assert s[i + 1] != s[j + 1];
      }
      SortAscends(s[1..]);
      SortElems(s[1..]);
      Collections.Permuted(SortNames(s[1..]), s[1..]);
      forall i | 0 <= i < |s[1..]| ensures s[1..][i] != s[0] {
        assert s[0] != s[i + 1];
      }
      InsertAscends(s[0], SortNames(s[1..]));
    }
  }

  lemma {:induction false} SortedStays(s: seq<string>)
    requires Ascending(s)
    ensures SortNames(s) == s
  {
    hide Insert, Below;
    if s != [] {
      forall i, j | 0 <= i < j < |s[1..]| ensures Below(s[1..][i], s[1..][j]) {
        assert Below(s[i + 1], s[j + 1]);
      }
      SortedStays(s[1..]);
      InsertHead(s[0], s[1..]);
      assert s == [s[0]] + s[1..];
    }
  }

  lemma {:induction false} SortNamesIs(s: seq<string>)
    ensures multiset(SortNames(s)) == multiset(s)
    ensures Unique(s) ==> Ascending(SortNames(s))
    ensures Ascending(s) ==> SortNames(s) == s
  {
    hide SortNames, Unique, Ascending;
    SortElems(s);
    if Unique(s) { SortAscends(s); }
    if Ascending(s) { SortedStays(s); }
  }

  /** An ascending list is determined by its elements: any sort gives the same. */
  lemma {:induction false} SortIsUnique(names: seq<string>, sorted: seq<string>)
    requires multiset(sorted) == multiset(names) && Collections.SortedBy(sorted, Below) && Unique(names)
    ensures sorted == SortNames(names)
  {
    hide SortNames, Below;
    SortNamesIs(names);
    SameAscending(sorted, SortNames(names), names);
  }

  lemma {:induction false} UniquePermuted(a: seq<string>, b: seq<string>)
    requires multiset(a) == multiset(b) && Unique(a)
    ensures Unique(b)
  {
    forall i, j | 0 <= i < j < |b| ensures b[i] != b[j] {
      if b[i] == b[j] {
        Collections.Twice(b, i, j);
        AtMostOnce(a, b[i]);
        assert false;
      }
    }
  }

  lemma {:induction false} AtMostOnce(a: seq<string>, x: string)
    requires Unique(a)
    ensures multiset(a)[x] <= 1
  {
    if a != [] {
      assert a == [a[0]] + a[1..];
      forall i, j | 0 <= i < j < |a[1..]| ensures a[1..][i] != a[1..][j] {
        assert a[i + 1] != a[j + 1];
      }
      AtMostOnce(a[1..], x);
      if x == a[0] {
        forall i | 0 <= i < |a[1..]| ensures a[1..][i] != x {
          assert a[0] != a[i + 1];
        }
        assert x !in a[1..];
      }
    }
  }

  lemma SameAscending(s: seq<string>, t: seq<string>, names: seq<string>)
    requires multiset(s) == multiset(names) && multiset(t) == multiset(names) && Unique(names)
    requires Collections.SortedBy(s, Below) && Ascending(t)
    ensures s == t
  {
    hide Below;
    UniquePermuted(names, s);
    forall i, j | 0 <= i < j < |s| ensures Below(s[i], s[j]) {
      BelowIsTotal(s[i], s[j]);
    }
    AscendingUnique(s, t);
  }

  lemma {:induction false} AscendingUnique(s: seq<string>, t: seq<string>)
    requires Ascending(s) && Ascending(t) && multiset(s) == multiset(t)
    ensures s == t
  {
    hide Below;
    assert |multiset(s)| == |s| && |multiset(t)| == |t|;
    if s != [] {
      SameFirst(s, t);
      assert s == [s[0]] + s[1..] && t == [t[0]] + t[1..];
      assert multiset(s[1..]) == multiset(s) - multiset{s[0]} && multiset(t[1..]) == multiset(t) - multiset{t[0]};
      AscendingUnique(s[1..], t[1..]);
    }
  }

  lemma SameFirst(s: seq<string>, t: seq<string>)
    requires Ascending(s) && Ascending(t) && multiset(s) == multiset(t) && s != [] && t != []
    ensures s[0] == t[0]
  {
    hide Below;
    Collections.Permuted(s, t);
    assert s[0] in t && t[0] in s;
    var i :| 0 <= i < |t| && t[i] == s[0];
    var j :| 0 <= j < |s| && s[j] == t[0];
    BelowIsStrict(s[0], t[0]);
  }

  // ---------- the schema as a merge reads it ----------

  function AsReadTags(tags: seq<FamilyNames>): seq<FamilyNames> {
    var keys := SortNames(Heads(tags));
    seq(|keys|, i requires 0 <= i < |keys| => FamilyNames(keys[i], ColumnNamesOf(tags, keys[i])))
  }

  function AsRead(s: Schema): Schema {
    Schema(AsReadTags(s.tags), s.fields)
  }

  /** Families in the order of their names. */
  ghost predicate InOrder(s: Schema) {
    Ascending(Heads(s.tags))
  }

  lemma {:induction false} SameWherever(fs: seq<FamilyNames>, name: string, columns: seq<string>)
    requires name in Heads(fs) && forall i :: 0 <= i < |fs| && fs[i].name == name ==> fs[i].columns == columns
    ensures ColumnNamesOf(fs, name) == columns
  {
    if fs[0].name != name {
      assert Heads(fs)[1..] == Heads(fs[1..]);
      assert forall i :: 0 <= i < |fs[1..]| ==> fs[1..][i] == fs[i + 1];
      SameWherever(fs[1..], name, columns);
    }
  }

  /** Every family is read with the columns it was written with. */
  lemma {:induction false} ReadColumns(s: Schema, n: string)
    ensures ColumnNamesOf(AsRead(s).tags, n) == ColumnNamesOf(s.tags, n)
  {
    hide SortNames, ColumnNamesOf;
    var heads, tags := Heads(s.tags), AsReadTags(s.tags);
    var keys := SortNames(heads);
    SortNamesIs(heads);
    Collections.Permuted(heads, keys);
    assert Heads(tags) == keys;
    if n in keys {
      SameWherever(tags, n, ColumnNamesOf(s.tags, n));
    } else {
      ColumnNamesMissing(tags, n);
      ColumnNamesMissing(s.tags, n);
    }
  }

  lemma AsReadIs(s: Schema)
    requires WFSchema(s)
    ensures WFSchema(AsRead(s)) && InOrder(AsRead(s))
    ensures forall n :: ColumnNamesOf(AsRead(s).tags, n) == ColumnNamesOf(s.tags, n)
    ensures InOrder(s) ==> AsRead(s) == s
  {
    hide SortNames, ColumnNamesOf, Below;
    var heads, tags := Heads(s.tags), AsReadTags(s.tags);
    var keys := SortNames(heads);
    SortNamesIs(heads);
    UniquePermuted(heads, keys);
    Collections.Permuted(heads, keys);
    assert Heads(tags) == keys;
    forall i | 0 <= i < |tags| ensures Unique(tags[i].columns) {
      assert keys[i] in heads;
      var j :| 0 <= j < |heads| && heads[j] == keys[i];
      ColumnNamesAt(s.tags, j);
    }
    forall n ensures ColumnNamesOf(tags, n) == ColumnNamesOf(s.tags, n) {
      ReadColumns(s, n);
    }
    if InOrder(s) {
      forall i | 0 <= i < |tags| ensures tags[i] == s.tags[i] {
        ColumnNamesAt(s.tags, i);
      }
    }
  }
}
