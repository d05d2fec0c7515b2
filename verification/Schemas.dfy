/**
  The names of a block's columns, and what they decide.  Appending one block to another matches tag
  families, tag columns and fields by name; whether it appends rows depends on the two lists of
  names, and on the room left in the slices, alone.
 */
module Schemas {

  datatype FamilyNames = FamilyNames(name: string, columns: seq<string>)

  datatype Schema = Schema(tags: seq<FamilyNames>, fields: seq<string>)

  const NO_COLUMNS := Schema([], [])

  predicate Unique(names: seq<string>) {
    forall i, j :: 0 <= i < j < |names| ==> names[i] != names[j]
  }

  function NameSet(names: seq<string>): set<string> {
    set n | n in names
  }

  function Heads(fs: seq<FamilyNames>): seq<string> {
    seq(|fs|, i requires 0 <= i < |fs| => fs[i].name)
  }

  predicate UniqueTags(fs: seq<FamilyNames>) {
    Unique(Heads(fs)) && forall i :: 0 <= i < |fs| ==> Unique(fs[i].columns)
  }

  predicate WFSchema(s: Schema) {
    UniqueTags(s.tags) && Unique(s.fields)
  }

  /** How many leading names agree. */
  function Matching(a: seq<string>, b: seq<string>): (k: nat)
    ensures k <= |a| && k <= |b| && forall i :: 0 <= i < k ==> a[i] == b[i]
    ensures k < |a| && k < |b| ==> a[k] != b[k]
    ensures |a| == |b| == k <==> a == b
  {
    if a == [] || b == [] || a[0] != b[0] then 0
    else
      var k := Matching(a[1..], b[1..]);
      assert forall i :: 0 < i < k + 1 ==> a[i] == a[1..][i - 1] && b[i] == b[1..][i - 1];
      assert a == [a[0]] + a[1..] && b == [b[0]] + b[1..];
      k + 1
  }

  /** How many names before `name` are new. */
  function FreshBefore(names: seq<string>, known: set<string>, name: string): nat {
    if names == [] || names[0] == name then 0
    else (if names[0] in known then 0 else 1) + FreshBefore(names[1..], known, name)
  }

  function FreshCount(names: seq<string>, known: set<string>): nat {
    if names == [] then 0 else (if names[0] in known then 0 else 1) + FreshCount(names[1..], known)
  }

  lemma {:induction false} FreshBeforeSnoc(names: seq<string>, n: string, known: set<string>, name: string)
    ensures name in names ==> FreshBefore(names + [n], known, name) == FreshBefore(names, known, name)
    ensures name !in names && n == name ==> FreshBefore(names + [n], known, name) == FreshCount(names, known)
  {
    if names != [] {
      FreshBeforeSnoc(names[1..], n, known, name);
      assert (names + [n])[1..] == names[1..] + [n];
    }
  }

  lemma {:induction false} FreshCountSnoc(names: seq<string>, n: string, known: set<string>)
    ensures FreshCount(names + [n], known) == FreshCount(names, known) + (if n in known then 0 else 1)
  {
    if names != [] {
      FreshCountSnoc(names[1..], n, known);
      assert (names + [n])[1..] == names[1..] + [n];
    }
  }

  lemma {:induction false} FreshBeforeBound(names: seq<string>, known: set<string>, name: string)
    ensures FreshBefore(names, known, name) <= |names|
  {
    if names != [] {
      FreshBeforeBound(names[1..], known, name);
    }
  }

  // ---------- fields, or the columns of one family ----------

  /** No shared column comes after more new columns than the slice has room for. */
  ghost predicate NoneLate(known: set<string>, room: nat, names: seq<string>) {
    forall n :: n in names && n in known ==> FreshBefore(names, known, n) <= room
  }

  /** The names agree throughout; or the fast path gives up at once and no shared column comes too late. */
  ghost predicate Clean(a: seq<string>, room: nat, b: seq<string>) {
    a == b || ((|a| != |b| || Matching(a, b) == 0) && NoneLate(NameSet(a), room, b))
  }

  // ---------- tag families ----------

  function ColumnNamesOf(fs: seq<FamilyNames>, name: string): seq<string> {
    if fs == [] then [] else if fs[0].name == name then fs[0].columns else ColumnNamesOf(fs[1..], name)
  }

  /** The fast path appends to some column before it gives up, if it does. */
  predicate Wrote(a: seq<FamilyNames>, b: seq<FamilyNames>) {
    && a != [] && b != [] && a[0].name == b[0].name && |a[0].columns| == |b[0].columns|
    && (Matching(a[0].columns, b[0].columns) > 0 || (a[0].columns == [] && Wrote(a[1..], b[1..])))
  }

  /** The family `name` of `a` comes after more new families of `b` than the slice has room for. */
  predicate IsLate(a: seq<FamilyNames>, room: nat, b: seq<FamilyNames>, name: string) {
    FreshBefore(Heads(b), NameSet(Heads(a)), name) > room
  }

  /** A late family gains no column; in any other, no shared column comes too late. */
  ghost predicate FamilyFine(columns: seq<string>, room: nat, late: bool, others: seq<string>) {
    if late then NameSet(others) <= NameSet(columns) else NoneLate(NameSet(columns), room, others)
  }

  ghost predicate FamiliesFine(a: seq<FamilyNames>, rooms: seq<nat>, room: nat, b: seq<FamilyNames>)
    requires |rooms| == |a|
  {
    forall i :: 0 <= i < |a| ==>
      FamilyFine(a[i].columns, rooms[i], IsLate(a, room, b, a[i].name), ColumnNamesOf(b, a[i].name))
  }

  /** The names agree throughout; or the fast path writes nothing and every family is fine. */
  ghost predicate CleanTags(a: seq<FamilyNames>, rooms: seq<nat>, room: nat, b: seq<FamilyNames>)
    requires |rooms| == |a|
  {
    a == b || ((|a| != |b| || !Wrote(a, b)) && FamiliesFine(a, rooms, room, b))
  }

  // ---------- names ----------

  lemma {:induction false} ColumnNamesAt(fs: seq<FamilyNames>, i: nat)
    requires Unique(Heads(fs)) && i < |fs|
    ensures ColumnNamesOf(fs, fs[i].name) == fs[i].columns
  {
    if i > 0 {
      assert Heads(fs)[0] != Heads(fs)[i];
      forall j, k | 0 <= j < k < |fs[1..]| ensures Heads(fs[1..])[j] != Heads(fs[1..])[k] {
        assert Heads(fs)[j + 1] != Heads(fs)[k + 1];
      }
      ColumnNamesAt(fs[1..], i - 1);
    }
  }

  lemma {:induction false} ColumnNamesMissing(fs: seq<FamilyNames>, name: string)
    requires name !in Heads(fs)
    ensures ColumnNamesOf(fs, name) == []
  {
    if fs != [] {
      assert Heads(fs)[0] == fs[0].name;
      forall j | 0 <= j < |fs[1..]| ensures Heads(fs[1..])[j] != name {
        assert Heads(fs)[j + 1] == Heads(fs[1..])[j];
      }
      ColumnNamesMissing(fs[1..], name);
    }
  }

  lemma {:induction false} NoneFresh(names: seq<string>, known: set<string>, name: string)
    requires NameSet(names) <= known
    ensures FreshBefore(names, known, name) == 0
  {
    if names != [] {
      assert names[0] in NameSet(names) && NameSet(names[1..]) <= NameSet(names);
      NoneFresh(names[1..], known, name);
    }
  }
}
