/** Sequences and multisets: what sort.Sort and sort.Slice may rely on, every sequence has a sorted permutation. */
module Collections {

  /** A strict weak order. */
  ghost predicate Orders<T(!new)>(less: (T, T) -> bool) {
    && (forall a, b :: less(a, b) ==> !less(b, a))
    && (forall a, b, c :: less(a, c) ==> less(a, b) || less(b, c))
  }

  predicate SortedBy<T>(s: seq<T>, less: (T, T) -> bool) {
    forall i, j :: 0 <= i < j < |s| ==> !less(s[j], s[i])
  }

  lemma {:induction false} SortExists<T(!new)>(s: seq<T>, less: (T, T) -> bool) returns (r: seq<T>)
    requires Orders(less)
    ensures multiset(r) == multiset(s) && SortedBy(r, less)
  {
    if s == [] {
      r := [];
    } else {
      var t := SortExists(s[1..], less);
      var k := 0;
      while k < |t| && less(t[k], s[0])
        invariant 0 <= k <= |t|
        invariant forall i :: 0 <= i < k ==> less(t[i], s[0])
      {
        k := k + 1;
      }
      Inserted(t, k, s[0], less);
      r := t[..k] + [s[0]] + t[k..];
      assert t == t[..k] + t[k..] && s == [s[0]] + s[1..];
    }
  }

  lemma Inserted<T(!new)>(t: seq<T>, k: nat, x: T, less: (T, T) -> bool)
    requires Orders(less) && SortedBy(t, less) && k <= |t|
    requires (forall i :: 0 <= i < k ==> less(t[i], x)) && (k < |t| ==> !less(t[k], x))
    ensures SortedBy(t[..k] + [x] + t[k..], less)
  {
    var r := t[..k] + [x] + t[k..];
    forall i, j | 0 <= i < j < |r| ensures !less(r[j], r[i]) {
      if i == k {
        var y, z := t[k], t[j - 1];
        assert r[j] == z && (k < j - 1 ==> !less(z, y));
        assert less(z, x) ==> less(z, y) || less(y, x);
      } else if j != k {
        assert !less(t[if j < k then j else j - 1], t[if i < k then i else i - 1]);
      }
    }
  }

  // ---------- container/heap, by its contract ----------

  /** The `k`-th key is a least one. */
  ghost predicate LeastAt<T>(keys: seq<T>, k: nat, less: (T, T) -> bool) {
    k < |keys| && forall i :: 0 <= i < |keys| ==> !less(keys[i], keys[k])
  }

  lemma {:induction false} LeastExists<T(!new)>(keys: seq<T>, less: (T, T) -> bool) returns (k: nat)
    requires keys != [] && Orders(less)
    ensures LeastAt(keys, k, less)
  {
    if |keys| == 1 {
      k := 0;
    } else {
      var m := LeastExists(keys[1..], less);
      k := if less(keys[m + 1], keys[0]) then m + 1 else 0;
      forall i | 0 <= i < |keys| ensures !less(keys[i], keys[k]) {
        if i > 0 {
          assert !less(keys[1..][i - 1], keys[1..][m]);
          assert less(keys[i], keys[0]) ==> less(keys[i], keys[m + 1]) || less(keys[m + 1], keys[0]);
        }
      }
    }
  }

  /** heap.Init, heap.Fix and heap.Pop: some least element comes to the front, and which one is left open. */
  method Least<T(!new)>(keys: seq<T>, less: (T, T) -> bool) returns (k: nat)
    requires keys != [] && Orders(less)
    ensures LeastAt(keys, k, less)
  {
    ghost var w := LeastExists(keys, less);
    var n :| 0 <= n < |keys| && forall i :: 0 <= i < |keys| ==> !less(keys[i], keys[n]);
    k := n;
  }

  /** The `k`-th element moved to the front. */
  function ToFront<T>(s: seq<T>, k: nat): seq<T>
    requires k < |s|
  {
    [s[k]] + (s[..k] + s[k + 1..])
  }

  lemma ToFrontIs<T>(s: seq<T>, k: nat)
    requires k < |s|
    ensures ToFront(s, k) == [s[k]] + (s[..k] + s[k + 1..])
  {
  }

  lemma Twice<T>(s: seq<T>, i: nat, j: nat)
    requires i < j < |s| && s[i] == s[j]
    ensures multiset(s)[s[i]] >= 2
  {
    assert s == s[..i] + [s[i]] + s[i + 1..j] + [s[j]] + s[j + 1..];
  }

  /** A permutation has the same elements. */
  lemma Permuted<T>(a: seq<T>, b: seq<T>)
    requires multiset(a) == multiset(b)
    ensures |a| == |b| && forall x :: x in a <==> x in b
  {
    assert |multiset(a)| == |a| && |multiset(b)| == |b|;
    forall x ensures x in a <==> x in b {
      assert x in a <==> x in multiset(a);
      assert x in b <==> x in multiset(b);
    }
  }

  lemma Associative<T>(a: multiset<T>, b: multiset<T>, c: multiset<T>)
    ensures a + (b + c) == a + b + c
  {
  }
}
