/**
  Choosing the file parts to merge: among the balanced windows of the parts sorted by size that fit
  the disk, one with the greatest ratio of output size to largest input.  Ratios are exact reals.
 */
module MergePolicy {
  import Collections

  datatype Candidate = Candidate(size: nat, minTs: int, id: nat)

  datatype Policy = Policy(maxParts: nat, multiplier: real, maxFanOutSize: nat)

  // ---------- order ----------

  /** By size, and backwards by timestamp. */
  predicate Less(a: Candidate, b: Candidate) {
    if a.size == b.size then a.minTs > b.minTs else a.size < b.size
  }

  predicate Sorted(s: seq<Candidate>) {
    forall i, j :: 0 <= i < j < |s| ==> !Less(s[j], s[i])
  }

  // ---------- windows ----------

  function Sum(a: seq<Candidate>): nat {
    if a == [] then 0 else a[0].size + Sum(a[1..])
  }

  /** sumCompressedSize */
  method SumCompressedSize(a: seq<Candidate>) returns (n: nat)
    ensures n == Sum(a)
  {
    n := 0;
    for k := 0 to |a|
      invariant n + Sum(a[k..]) == Sum(a)
    {
      assert a[k..] == [a[k]] + a[k + 1..];
      n := n + a[k].size;
    }
  }

  lemma {:induction false} SumAtLeast(a: seq<Candidate>, k: nat)
    requires k < |a|
    ensures Sum(a) >= a[k].size
  {
    if k > 0 {
      SumAtLeast(a[1..], k - 1);
    }
  }

  lemma {:induction false} SumMonotone(a: seq<Candidate>, b: seq<Candidate>)
    requires |a| == |b| && forall k :: 0 <= k < |a| ==> a[k].size <= b[k].size
    ensures Sum(a) <= Sum(b)
  {
    if a != [] {
      SumMonotone(a[1..], b[1..]);
    }
  }

  predicate Positive(s: seq<Candidate>) {
    forall k :: 0 <= k < |s| ==> s[k].size > 0
  }

  predicate IsWindow(s: seq<Candidate>, n: nat, j: nat) {
    1 <= n && j + n <= |s|
  }

  function Window(s: seq<Candidate>, n: nat, j: nat): seq<Candidate>
    requires IsWindow(s, n, j)
  {
    s[j..j + n]
  }

  /** The smallest part, n times, is at least the largest. */
  predicate Balanced(a: seq<Candidate>)
    requires a != []
  {
    a[0].size * |a| >= a[|a| - 1].size
  }

  function Ratio(a: seq<Candidate>): real
    requires a != [] && a[|a| - 1].size > 0
  {
    Sum(a) as real / a[|a| - 1].size as real
  }

  function MaxSrc(p: Policy, s: seq<Candidate>): nat {
    if p.maxParts > |s| then |s| else p.maxParts
  }

  function MinSrc(p: Policy, s: seq<Candidate>): nat {
    var half := (MaxSrc(p, s) + 1) / 2;
    if half < 2 then 2 else half
  }

  /** The windows that may be chosen. */
  predicate Eligible(p: Policy, fanOut: nat, s: seq<Candidate>, n: nat, j: nat) {
    && MinSrc(p, s) <= n <= MaxSrc(p, s) && IsWindow(s, n, j)
    && Balanced(Window(s, n, j)) && Sum(Window(s, n, j)) <= fanOut
  }

  /** Windows are tried by length, then by position. */
  predicate Tried(n: nat, j: nat, n': nat, j': nat) {
    n < n' || (n == n' && j < j')
  }

  /** Once a window is too big, the later ones of its length are too: stopping there skips none. */
  lemma LaterIsBigger(s: seq<Candidate>, n: nat, j: nat, j': nat)
    requires Sorted(s) && IsWindow(s, n, j) && IsWindow(s, n, j') && j <= j'
    ensures Sum(Window(s, n, j)) <= Sum(Window(s, n, j'))
  {
    forall k | 0 <= k < n ensures Window(s, n, j)[k].size <= Window(s, n, j')[k].size {
      if j < j' {
        assert !Less(s[j' + k], s[j + k]);
      }
    }
    SumMonotone(Window(s, n, j), Window(s, n, j'));
  }

  datatype Best = NoWindow | Best(n: nat, j: nat)

  /** `b` is the last of the best windows among those tried before (n, j). */
  ghost predicate BestSoFar(p: Policy, fanOut: nat, s: seq<Candidate>, n: nat, j: nat, b: Best, m: real)
    requires Positive(s)
  {
    match b
    case NoWindow => m == 0.0 && forall n': nat, j': nat :: Eligible(p, fanOut, s, n', j') ==> !Tried(n', j', n, j)
    case Best(bn, bj) =>
      && Eligible(p, fanOut, s, bn, bj) && Tried(bn, bj, n, j) && m == Ratio(Window(s, bn, bj))
      && forall n': nat, j': nat :: Eligible(p, fanOut, s, n', j') && Tried(n', j', n, j) ==>
           && Ratio(Window(s, n', j')) <= m
           && (Ratio(Window(s, n', j')) == m ==> Tried(n', j', bn, bj + 1))
  }

  lemma AtLeastOne(x: real, y: real)
    requires x >= y > 0.0
    ensures x / y >= 1.0
  {
    AtMostOver(1.0, y, x);
  }

  lemma RatioPositive(a: seq<Candidate>)
    requires a != [] && a[|a| - 1].size > 0
    ensures Ratio(a) >= 1.0
  {
    SumAtLeast(a, |a| - 1);
    AtLeastOne(Sum(a) as real, a[|a| - 1].size as real);
  }

  /** The next window is not eligible. */
  lemma SkipWindow(p: Policy, fanOut: nat, s: seq<Candidate>, n: nat, j: nat, b: Best, m: real)
    requires Positive(s) && BestSoFar(p, fanOut, s, n, j, b, m) && !Eligible(p, fanOut, s, n, j)
    ensures BestSoFar(p, fanOut, s, n, j + 1, b, m)
  {
    hide Eligible, Ratio;
    assert forall n': nat, j': nat :: Tried(n', j', n, j + 1) ==> Tried(n', j', n, j) || (n' == n && j' == j);
  }

  /** The next window is eligible, and at least as good or not. */
  lemma TakeWindow(p: Policy, fanOut: nat, s: seq<Candidate>, n: nat, j: nat, b: Best, m: real)
    requires Positive(s) && BestSoFar(p, fanOut, s, n, j, b, m) && Eligible(p, fanOut, s, n, j)
    ensures var r := Ratio(Window(s, n, j));
      if r < m then BestSoFar(p, fanOut, s, n, j + 1, b, m) else BestSoFar(p, fanOut, s, n, j + 1, Best(n, j), r)
  {
    RatioPositive(Window(s, n, j));
    hide Eligible, Ratio;
    assert forall n': nat, j': nat :: Tried(n', j', n, j + 1) ==> Tried(n', j', n, j) || (n' == n && j' == j);
  }

  /** No window of this length from `j` on is eligible. */
  lemma EndLength(p: Policy, fanOut: nat, s: seq<Candidate>, n: nat, j: nat, b: Best, m: real)
    requires Positive(s) && BestSoFar(p, fanOut, s, n, j, b, m)
    requires forall j': nat :: j' >= j ==> !Eligible(p, fanOut, s, n, j')
    ensures BestSoFar(p, fanOut, s, n + 1, 0, b, m)
  {
    hide Eligible, Ratio;
    assert forall n': nat, j': nat :: Tried(n', j', n + 1, 0) ==> Tried(n', j', n, j) || (n' == n && j' >= j);
  }

  /** The windows of one length. */
  method TryLength(p: Policy, fanOut: nat, s: seq<Candidate>, n: nat, best: Best, maxM: real)
    returns (best': Best, maxM': real)
    requires Sorted(s) && Positive(s) && MinSrc(p, s) <= n <= MaxSrc(p, s) && BestSoFar(p, fanOut, s, n, 0, best, maxM)
    ensures BestSoFar(p, fanOut, s, n + 1, 0, best', maxM')
  {
    best', maxM' := best, maxM;
    var j := 0;
    while j <= |s| - n
      invariant BestSoFar(p, fanOut, s, n, j, best', maxM')
    {
      hide BestSoFar, Ratio, Sorted, Sum;
      var a := s[j..j + n];
      if a[0].size * |a| < a[|a| - 1].size {
        SkipWindow(p, fanOut, s, n, j, best', maxM');
        j := j + 1;
        continue;
      }
      var outSize := SumCompressedSize(a);
      if outSize > fanOut {
        forall j': nat | j' >= j ensures !Eligible(p, fanOut, s, n, j') {
          if IsWindow(s, n, j') {
            LaterIsBigger(s, n, j, j');
          }
        }
        EndLength(p, fanOut, s, n, j, best', maxM');
        return;
      }
      TakeWindow(p, fanOut, s, n, j, best', maxM');
      var m := outSize as real / a[|a| - 1].size as real;
      assert m == Ratio(Window(s, n, j)) by { RatioIs(a); }
      if m >= maxM' {
        maxM', best' := m, Best(n, j);
      }
      j := j + 1;
    }
    EndLength(p, fanOut, s, n, j, best', maxM');
  }

  lemma {:induction false} RatioIs(a: seq<Candidate>)
    requires a != [] && a[|a| - 1].size > 0
    ensures Ratio(a) == Sum(a) as real / a[|a| - 1].size as real
  {
  }

  // ---------- the policy ----------

  function FanOut(p: Policy, free: nat): nat {
    if free < p.maxFanOutSize then free else p.maxFanOutSize
  }

  /** The largest part that can take part in a worthwhile merge. */
  function MaxInPart(p: Policy, fanOut: nat): int
    requires p.multiplier > 0.0
  {
    (fanOut as real / p.multiplier).Floor
  }

  function Threshold(p: Policy): real {
    var half := p.maxParts as real / 2.0;
    if half < p.multiplier then p.multiplier else half
  }

  function NotTooBig(src: seq<Candidate>, limit: int): seq<Candidate> {
    if src == [] then [] else (if src[0].size > limit then [] else [src[0]]) + NotTooBig(src[1..], limit)
  }

  lemma {:induction false} NotTooBigSnoc(src: seq<Candidate>, c: Candidate, limit: int)
    ensures NotTooBig(src + [c], limit) == NotTooBig(src, limit) + (if c.size > limit then [] else [c])
  {
    if src != [] {
      NotTooBigSnoc(src[1..], c, limit);
      assert (src + [c])[1..] == src[1..] + [c];
    }
  }

  lemma {:induction false} NotTooBigIs(src: seq<Candidate>, limit: int, c: Candidate)
    ensures multiset(NotTooBig(src, limit))[c] == if c.size > limit then 0 else multiset(src)[c]
  {
    if src != [] {
      NotTooBigIs(src[1..], limit, c);
      assert src == [src[0]] + src[1..];
    }
  }

  /** Leaving out big parts loses no window that fits and reaches the multiplier. */
  lemma {:induction false} FilterLosesNothing(p: Policy, fanOut: nat, a: seq<Candidate>, c: Candidate)
    requires p.multiplier > 0.0 && Sorted(a) && Positive(a) && c in a
    requires Sum(a) <= fanOut && Ratio(a) >= p.multiplier
    ensures c.size <= MaxInPart(p, fanOut)
  {
    hide Sum;
    var last, x := a[|a| - 1].size as real, Sum(a) as real;
    var k :| 0 <= k < |a| && a[k] == c;
    assert c.size <= a[|a| - 1].size by {
      if k < |a| - 1 {
        assert !Less(a[|a| - 1], a[k]);
      }
    }
    AtLeastTimes(x, last, p.multiplier);
    AtMostOver(last, p.multiplier, fanOut as real);
  }

  lemma AtLeastTimes(x: real, y: real, m: real)
    requires y > 0.0 && x / y >= m
    ensures x >= m * y
  {
    var q := x / y;
    assert q * y == x;
    NotNegative(q - m, y);
  }

  lemma NotNegative(a: real, b: real)
    requires a >= 0.0 && b > 0.0
    ensures a * b >= 0.0
  {
  }

  lemma AtMostOver(l: real, m: real, f: real)
    requires m > 0.0 && m * l <= f
    ensures l <= f / m
  {
    var q := f / m;
    assert q * m == f;
    if l > q {
      BothPositive(l - q, m);
    }
  }

  lemma BothPositive(a: real, b: real)
    requires a > 0.0 && b > 0.0
    ensures a * b > 0.0
  {
  }

  /** The chosen parts: the last of the best windows, if it reaches the threshold. */
  ghost predicate IsChoice(p: Policy, fanOut: nat, s: seq<Candidate>, chosen: seq<Candidate>)
    requires Positive(s)
  {
    if chosen == [] then
      forall n: nat, j: nat :: Eligible(p, fanOut, s, n, j) ==> Ratio(Window(s, n, j)) < Threshold(p)
    else
      exists n: nat, j: nat :: IsLastBest(p, fanOut, s, chosen, n, j)
  }

  ghost predicate IsLastBest(p: Policy, fanOut: nat, s: seq<Candidate>, chosen: seq<Candidate>, n: nat, j: nat)
    requires Positive(s)
  {
    && Eligible(p, fanOut, s, n, j) && chosen == Window(s, n, j) && Ratio(chosen) >= Threshold(p)
    && forall n': nat, j': nat :: Eligible(p, fanOut, s, n', j') ==>
         && Ratio(Window(s, n', j')) <= Ratio(chosen)
         && (Ratio(Window(s, n', j')) == Ratio(chosen) ==> Tried(n', j', n, j + 1))
  }

  // ---------- all parts, sorted ----------

  function Sizes(s: seq<Candidate>): seq<nat> {
    seq(|s|, k requires 0 <= k < |s| => s[k].size)
  }

  predicate Rising(x: seq<nat>) {
    forall i, j :: 0 <= i < j < |x| ==> x[i] <= x[j]
  }

  lemma {:induction false} SizesSame(a: seq<Candidate>, b: seq<Candidate>)
    requires multiset(a) == multiset(b)
    ensures multiset(Sizes(a)) == multiset(Sizes(b))
  {
    assert |multiset(a)| == |a| && |multiset(b)| == |b|;
    if a != [] {
      assert a[0] in multiset(b);
      var k :| 0 <= k < |b| && b[k] == a[0];
      var c := b[..k] + b[k + 1..];
      hide Sizes;
      SizesWithout(a, 0);
      SizesWithout(b, k);
      assert a[..0] + a[1..] == a[1..];
      SizesSame(a[1..], c);
    }
  }

  lemma SizesWithout(b: seq<Candidate>, k: nat)
    requires k < |b|
    ensures multiset(b[..k] + b[k + 1..]) == multiset(b) - multiset{b[k]}
    ensures multiset(Sizes(b)) == multiset(Sizes(b[..k] + b[k + 1..])) + multiset{b[k].size}
  {
    assert b == b[..k] + [b[k]] + b[k + 1..];
    assert Sizes(b) == Sizes(b[..k]) + [b[k].size] + Sizes(b[k + 1..]);
    assert Sizes(b[..k] + b[k + 1..]) == Sizes(b[..k]) + Sizes(b[k + 1..]);
  }

  lemma {:induction false} RisingUnique(x: seq<nat>, y: seq<nat>)
    requires Rising(x) && Rising(y) && multiset(x) == multiset(y)
    ensures x == y
  {
    assert |multiset(x)| == |x| && |multiset(y)| == |y|;
    if x != [] {
      LeastFirst(x, y);
      LeastFirst(y, x);
      assert x == [x[0]] + x[1..] && y == [y[0]] + y[1..];
      assert multiset(x[1..]) == multiset(x) - multiset{x[0]} && multiset(y[1..]) == multiset(y) - multiset{y[0]};
      RisingUnique(x[1..], y[1..]);
    }
  }

  lemma LeastFirst(x: seq<nat>, y: seq<nat>)
    requires Rising(y) && multiset(x) == multiset(y) && x != []
    ensures y != [] && y[0] <= x[0]
  {
    assert x[0] in multiset(x) && x[0] in multiset(y);
    var i :| 0 <= i < |y| && y[i] == x[0];
  }

  lemma SortedSizes(a: seq<Candidate>, b: seq<Candidate>)
    requires Sorted(a) && Sorted(b) && multiset(a) == multiset(b)
    ensures Sizes(a) == Sizes(b)
  {
    forall i, j | 0 <= i < j < |a| ensures Sizes(a)[i] <= Sizes(a)[j] { assert !Less(a[j], a[i]); }
    forall i, j | 0 <= i < j < |b| ensures Sizes(b)[i] <= Sizes(b)[j] { assert !Less(b[j], b[i]); }
    SizesSame(a, b);
    RisingUnique(Sizes(a), Sizes(b));
  }

  /** In order of size the parts that are not too big come first. */
  lemma {:induction false} SmallFirst(all: seq<Candidate>, limit: int)
    requires Sorted(all)
    ensures |NotTooBig(all, limit)| <= |all| && NotTooBig(all, limit) == all[..|NotTooBig(all, limit)|]
    ensures forall k :: |NotTooBig(all, limit)| <= k < |all| ==> all[k].size > limit
  {
    if all != [] {
      SmallFirst(all[1..], limit);
      if all[0].size > limit {
        forall k | 0 < k < |all| ensures all[k].size > limit {
          assert !Less(all[k], all[0]);
        }
        NoneSmall(all, limit);
      } else {
        var rest := NotTooBig(all[1..], limit);
        assert all[..|rest| + 1] == [all[0]] + all[1..][..|rest|];
        assert forall k :: 0 < k < |all| ==> all[k] == all[1..][k - 1];
      }
    }
  }

  lemma {:induction false} NoneSmall(all: seq<Candidate>, limit: int)
    requires forall k :: 0 <= k < |all| ==> all[k].size > limit
    ensures NotTooBig(all, limit) == []
  {
    if all != [] {
      NoneSmall(all[1..], limit);
    }
  }

  /** Whatever order the sort leaves equal parts in, the sizes are the same. */
  lemma {:induction false} FilteredSizes(src: seq<Candidate>, all: seq<Candidate>, s: seq<Candidate>, limit: int)
    requires Sorted(all) && Sorted(s) && multiset(all) == multiset(src) && multiset(s) == multiset(NotTooBig(src, limit))
    ensures |s| <= |all| && Sizes(s) == Sizes(all[..|s|])
    ensures forall k :: |s| <= k < |all| ==> all[k].size > limit
  {
    var small := NotTooBig(all, limit);
    SmallFirst(all, limit);
    forall c ensures multiset(small)[c] == multiset(s)[c] {
      NotTooBigIs(all, limit, c);
      NotTooBigIs(src, limit, c);
    }
    assert multiset(s) == multiset(small);
    forall i, j | 0 <= i < j < |small| ensures !Less(small[j], small[i]) {
      assert small[i] == all[i] && small[j] == all[j];
    }
    SortedSizes(s, small);
    assert |Sizes(s)| == |s| && |Sizes(small)| == |small|;
  }

  lemma {:induction false} SumSizes(a: seq<Candidate>, b: seq<Candidate>)
    requires Sizes(a) == Sizes(b)
    ensures |a| == |b| && Sum(a) == Sum(b) && forall k :: 0 <= k < |a| ==> a[k].size == b[k].size
  {
    assert |Sizes(a)| == |a| && |Sizes(b)| == |b|;
    if a != [] {
      assert Sizes(a)[0] == Sizes(b)[0];
      assert Sizes(a[1..]) == Sizes(a)[1..] && Sizes(b[1..]) == Sizes(b)[1..];
      SumSizes(a[1..], b[1..]);
      forall k | 0 <= k < |a| ensures a[k].size == b[k].size {
        assert Sizes(a)[k] == Sizes(b)[k];
      }
    }
  }

  /** A balanced window of all parts that fits the disk, of a length that is tried for `s`. */
  predicate Worthwhile(p: Policy, fanOut: nat, s: seq<Candidate>, all: seq<Candidate>, n: nat, j: nat)
    requires Positive(all)
  {
    && MinSrc(p, s) <= n <= MaxSrc(p, s) && IsWindow(all, n, j)
    && Balanced(Window(all, n, j)) && Sum(Window(all, n, j)) <= fanOut && Ratio(Window(all, n, j)) >= Threshold(p)
  }

  /** No such window is better than the choice; if there is one, something is chosen. */
  ghost predicate BestOfAll(p: Policy, fanOut: nat, s: seq<Candidate>, all: seq<Candidate>, chosen: seq<Candidate>)
    requires Positive(all)
  {
    forall n: nat, j: nat :: Worthwhile(p, fanOut, s, all, n, j) ==>
      chosen != [] && chosen[|chosen| - 1].size > 0 && Ratio(Window(all, n, j)) <= Ratio(chosen)
  }

  /** A worthwhile window of all parts is an eligible one of those that pass the filter. */
  lemma {:induction false} WindowPasses(p: Policy, fanOut: nat, src: seq<Candidate>, all: seq<Candidate>, s: seq<Candidate>, n: nat, j: nat)
    requires p.multiplier > 0.0 && Positive(all) && Sorted(all) && Sorted(s) && multiset(all) == multiset(src)
    requires multiset(s) == multiset(NotTooBig(src, MaxInPart(p, fanOut))) && Positive(s)
    requires Worthwhile(p, fanOut, s, all, n, j)
    ensures Eligible(p, fanOut, s, n, j) && Ratio(Window(s, n, j)) == Ratio(Window(all, n, j))
  {
    hide Sorted, NotTooBig, Sizes, Sum;
    var a := Window(all, n, j);
    FilteredSizes(src, all, s, MaxInPart(p, fanOut));
    WindowSorted(all, n, j);
    assert a[n - 1] in a;
    FilterLosesNothing(p, fanOut, a, a[n - 1]);
    assert a[n - 1] == all[j + n - 1];
    assert j + n <= |s|;
    WindowSizes(all, s, n, j);
    SumSizes(a, Window(s, n, j));
  }

  lemma WindowSorted(all: seq<Candidate>, n: nat, j: nat)
    requires Sorted(all) && Positive(all) && IsWindow(all, n, j)
    ensures Sorted(Window(all, n, j)) && Positive(Window(all, n, j))
  {
    var a := Window(all, n, j);
    forall i, k | 0 <= i < k < |a| ensures !Less(a[k], a[i]) {
      assert a[i] == all[j + i] && a[k] == all[j + k];
    }
  }

  lemma WindowSizes(all: seq<Candidate>, s: seq<Candidate>, n: nat, j: nat)
    requires |s| <= |all| && Sizes(s) == Sizes(all[..|s|]) && IsWindow(s, n, j)
    ensures Sizes(Window(s, n, j)) == Sizes(Window(all, n, j))
  {
    assert Sizes(Window(s, n, j)) == Sizes(s)[j..j + n];
    assert Sizes(Window(all, n, j)) == Sizes(all[..|s|])[j..j + n];
  }

  lemma ChosenPositive(p: Policy, fanOut: nat, s: seq<Candidate>, chosen: seq<Candidate>)
    requires Positive(s) && IsChoice(p, fanOut, s, chosen)
    ensures chosen != [] ==> chosen[|chosen| - 1].size > 0
  {
    hide Ratio, Threshold, Balanced, Sum;
  }

  lemma {:induction false} ChoiceOfAll(p: Policy, fanOut: nat, src: seq<Candidate>, all: seq<Candidate>, s: seq<Candidate>, chosen: seq<Candidate>)
    requires p.multiplier > 0.0 && Positive(all) && Sorted(all) && Sorted(s) && multiset(all) == multiset(src)
    requires multiset(s) == multiset(NotTooBig(src, MaxInPart(p, fanOut))) && Positive(s)
    requires IsChoice(p, fanOut, s, chosen)
    ensures BestOfAll(p, fanOut, s, all, chosen)
  {
    hide Ratio, Sorted, NotTooBig, Eligible, Threshold;
    ChosenPositive(p, fanOut, s, chosen);
    forall n: nat, j: nat | Worthwhile(p, fanOut, s, all, n, j)
      ensures chosen != [] && chosen[|chosen| - 1].size > 0 && Ratio(Window(all, n, j)) <= Ratio(chosen)
    {
      WindowPasses(p, fanOut, src, all, s, n, j);
    }
  }

  lemma SamePositive(src: seq<Candidate>, all: seq<Candidate>)
    requires Positive(src) && multiset(all) == multiset(src)
    ensures Positive(all)
  {
    forall k | 0 <= k < |all| ensures all[k].size > 0 {
      assert all[k] in multiset(all) && all[k] in multiset(src);
    }
  }

  // ---------- the policy, in its own terms ----------

  /** By size; of two parts of one size, the one that starts later comes first. */
  predicate BySize(s: seq<Candidate>) {
    forall i, j :: 0 <= i < j < |s| ==>
      s[i].size <= s[j].size && (s[i].size == s[j].size ==> s[i].minTs >= s[j].minTs)
  }

  /** Merging up to the multiplier times the part fits the disk and the greatest fan-out. */
  predicate SmallEnough(p: Policy, free: nat, c: Candidate) {
    c.size as real * p.multiplier <= free as real && c.size as real * p.multiplier <= p.maxFanOutSize as real
  }

  /**
    What may be merged, when `m` parts are small enough: from two to the maximum number of parts, and at
    least half of that or of `m`; together no more than fits the disk and the greatest fan-out; the
    smallest, as often as there are parts, no smaller than the largest; and together at least the
    multiplier, and half the maximum number of parts, times the largest.
   */
  predicate WorthMerging(p: Policy, free: nat, m: nat, a: seq<Candidate>) {
    && 2 <= |a| <= p.maxParts && |a| <= m && (p.maxParts <= 2 * |a| || m <= 2 * |a|)
    && Sum(a) <= free && Sum(a) <= p.maxFanOutSize
    && a[|a| - 1].size <= a[0].size * |a|
    && p.multiplier * a[|a| - 1].size as real <= Sum(a) as real
    && p.maxParts * a[|a| - 1].size <= 2 * Sum(a)
  }

  /** `b` makes at least as much of its largest part as `a` does. */
  predicate AtLeastAsGood(b: seq<Candidate>, a: seq<Candidate>)
    requires a != [] && b != []
  {
    Sum(a) * b[|b| - 1].size <= Sum(b) * a[|a| - 1].size
  }

  /** The `n` parts from the `j`-th on are worth merging. */
  predicate WorthWindow(p: Policy, free: nat, m: nat, s: seq<Candidate>, n: nat, j: nat) {
    j + n <= |s| && WorthMerging(p, free, m, s[j..j + n])
  }

  /** The chosen parts are a window that is worth merging; no other is better, and none as good has more parts or comes later. */
  ghost predicate LastBest(p: Policy, free: nat, s: seq<Candidate>, chosen: seq<Candidate>) {
    exists n: nat, j: nat ::
      && WorthWindow(p, free, |s|, s, n, j) && chosen == s[j..j + n]
      && forall n': nat, j': nat :: WorthWindow(p, free, |s|, s, n', j') ==>
           && AtLeastAsGood(chosen, s[j'..j' + n'])
           && (AtLeastAsGood(s[j'..j' + n'], chosen) ==> n' < n || (n' == n && j' <= j))
  }

  lemma SortedBySize(s: seq<Candidate>)
    ensures Sorted(s) <==> BySize(s)
  {
    if Sorted(s) {
      forall i, j | 0 <= i < j < |s|
        ensures s[i].size <= s[j].size && (s[i].size == s[j].size ==> s[i].minTs >= s[j].minTs)
      {
        assert !Less(s[j], s[i]);
      }
    }
  }

  lemma OverTimes(x: real, y: real, m: real)
    requires y > 0.0
    ensures x / y >= m <==> x >= m * y
  {
    if x / y >= m {
      AtLeastTimes(x, y, m);
    }
    if x >= m * y {
      AtMostOver(m, y, x);
    }
  }

  lemma {:induction false} RealTimes(a: nat, b: nat)
    ensures (a * b) as real == a as real * b as real
  {
    if a > 0 {
      RealTimes(a - 1, b);
      assert a * b == (a - 1) * b + b;
      assert a as real * b as real == (a - 1) as real * b as real + b as real;
    }
  }

  lemma CompareRatios(x: real, y: real, x': real, y': real)
    requires y > 0.0 && y' > 0.0
    ensures x / y <= x' / y' <==> x * y' <= x' * y
  {
    OverTimes(x', y', x / y);
    var q := x / y;
    assert q * y == x;
    TimesPositive(q * y', x', y);
    assert q * y' * y == x * y';
  }

  lemma TimesPositive(a: real, b: real, y: real)
    requires y > 0.0
    ensures a <= b <==> a * y <= b * y
  {
    if a <= b {
      assert (b - a) * y >= 0.0;
    } else {
      BothPositive(a - b, y);
    }
  }

  lemma PassesIs(p: Policy, free: nat, c: Candidate)
    requires p.multiplier > 0.0
    ensures c.size <= MaxInPart(p, FanOut(p, free)) <==> SmallEnough(p, free, c)
  {
    OverTimes(FanOut(p, free) as real, p.multiplier, c.size as real);
  }

  lemma {:induction false} ReachesIs(p: Policy, a: seq<Candidate>)
    requires a != [] && a[|a| - 1].size > 0
    ensures Ratio(a) >= Threshold(p) <==>
      p.multiplier * a[|a| - 1].size as real <= Sum(a) as real && p.maxParts * a[|a| - 1].size <= 2 * Sum(a)
  {
    hide Sum;
    var x, y := Sum(a) as real, a[|a| - 1].size as real;
    OverTimes(x, y, p.multiplier);
    OverTimes(x, y, p.maxParts as real / 2.0);
    RealTimes(p.maxParts, a[|a| - 1].size);
    assert p.maxParts as real / 2.0 * y == p.maxParts as real * y / 2.0;
  }

  lemma BetterIs(a: seq<Candidate>, b: seq<Candidate>)
    requires a != [] && a[|a| - 1].size > 0 && b != [] && b[|b| - 1].size > 0
    ensures Ratio(a) <= Ratio(b) <==> AtLeastAsGood(b, a)
  {
    hide Sum;
    CompareRatios(Sum(a) as real, a[|a| - 1].size as real, Sum(b) as real, b[|b| - 1].size as real);
    RealTimes(Sum(a), b[|b| - 1].size);
    RealTimes(Sum(b), a[|a| - 1].size);
  }

  lemma WorthIs(p: Policy, free: nat, s: seq<Candidate>, all: seq<Candidate>, n: nat, j: nat)
    requires Positive(all)
    ensures Worthwhile(p, FanOut(p, free), s, all, n, j) <==> WorthWindow(p, free, |s|, all, n, j)
  {
    hide Sum, Ratio, Threshold;
    if 1 <= n && j + n <= |all| {
      ReachesIs(p, Window(all, n, j));
    }
  }

  /** A choice among the eligible windows is one among those worth merging. */
  lemma ChoiceMeans(p: Policy, free: nat, s: seq<Candidate>, chosen: seq<Candidate>)
    requires Positive(s) && IsChoice(p, FanOut(p, free), s, chosen)
    ensures chosen == [] ==> forall n: nat, j: nat :: !WorthWindow(p, free, |s|, s, n, j)
    ensures chosen != [] ==> LastBest(p, free, s, chosen)
  {
    hide Ratio, Threshold, Sum, Balanced, WorthMerging, AtLeastAsGood;
    forall n: nat, j: nat ensures Worthwhile(p, FanOut(p, free), s, s, n, j) <==> WorthWindow(p, free, |s|, s, n, j) {
      WorthIs(p, free, s, s, n, j);
    }
    if chosen != [] {
      var n: nat, j: nat :| IsLastBest(p, FanOut(p, free), s, chosen, n, j);
      assert WorthWindow(p, free, |s|, s, n, j);
      forall n': nat, j': nat | WorthWindow(p, free, |s|, s, n', j')
        ensures AtLeastAsGood(chosen, s[j'..j' + n'])
        ensures AtLeastAsGood(s[j'..j' + n'], chosen) ==> n' < n || (n' == n && j' <= j)
      {
        assert Worthwhile(p, FanOut(p, free), s, s, n', j');
        BetterIs(Window(s, n', j'), chosen);
        BetterIs(chosen, Window(s, n', j'));
      }
    }
  }

  /** The parts that pass the filter. */
  lemma {:induction false} PassIs(p: Policy, src: seq<Candidate>, free: nat, sorted: seq<Candidate>, c: Candidate)
    requires p.multiplier > 0.0 && multiset(sorted) == multiset(NotTooBig(src, MaxInPart(p, FanOut(p, free))))
    ensures multiset(sorted)[c] == if SmallEnough(p, free, c) then multiset(src)[c] else 0
  {
    hide NotTooBig, MaxInPart, SmallEnough;
    NotTooBigIs(src, MaxInPart(p, FanOut(p, free)), c);
    PassesIs(p, free, c);
  }

  /** If a window of `all` is worth merging, something at least as good is chosen. */
  ghost predicate NoneBetter(p: Policy, free: nat, m: nat, all: seq<Candidate>, chosen: seq<Candidate>) {
    forall n: nat, j: nat :: WorthWindow(p, free, m, all, n, j) ==> chosen != [] && AtLeastAsGood(chosen, all[j..j + n])
  }

  lemma BestMeans(p: Policy, free: nat, s: seq<Candidate>, all: seq<Candidate>, chosen: seq<Candidate>)
    requires Positive(all) && BestOfAll(p, FanOut(p, free), s, all, chosen)
    ensures NoneBetter(p, free, |s|, all, chosen)
  {
    hide Ratio, Threshold, Sum, Balanced, AtLeastAsGood;
    forall n: nat, j: nat | WorthWindow(p, free, |s|, all, n, j) ensures chosen != [] && AtLeastAsGood(chosen, all[j..j + n]) {
      WorthIs(p, free, s, all, n, j);
      BetterIs(Window(all, n, j), chosen);
    }
  }

  lemma ChosenIsWorth(p: Policy, free: nat, s: seq<Candidate>, chosen: seq<Candidate>)
    requires LastBest(p, free, s, chosen)
    ensures WorthMerging(p, free, |s|, chosen) && exists n: nat, j: nat :: WorthWindow(p, free, |s|, s, n, j)
  {
    hide WorthMerging, AtLeastAsGood;
  }

  lemma {:induction false} WorthMeans(p: Policy, free: nat, m: nat, a: seq<Candidate>)
    requires WorthMerging(p, free, m, a)
    ensures 2 <= |a| <= p.maxParts && |a| <= m && (p.maxParts <= 2 * |a| || m <= 2 * |a|)
    ensures Sum(a) <= free && Sum(a) <= p.maxFanOutSize && a[|a| - 1].size <= a[0].size * |a|
    ensures p.multiplier * a[|a| - 1].size as real <= Sum(a) as real && p.maxParts * a[|a| - 1].size <= 2 * Sum(a)
  {
    hide Sum;
  }

  /**
    getPartsToMerge.  `sorted` is the order that the sort made of the parts that are small enough.  Nothing
    is chosen exactly when no window of these is worth merging; else the last of the best such windows is.
    However all the parts are sorted by size, no window of them that is worth merging is better.
   */
  method GetPartsToMerge(p: Policy, src: seq<Candidate>, free: nat) returns (chosen: seq<Candidate>, sorted: seq<Candidate>)
    requires Positive(src) && p.multiplier > 0.0
    ensures BySize(sorted)
    ensures forall c :: multiset(sorted)[c] == if SmallEnough(p, free, c) then multiset(src)[c] else 0
    ensures chosen == [] <==> forall n: nat, j: nat :: !WorthWindow(p, free, |sorted|, sorted, n, j)
    ensures chosen != [] ==> LastBest(p, free, sorted, chosen)
    ensures chosen != [] ==> 2 <= |chosen| <= p.maxParts && |chosen| <= |sorted|
    ensures chosen != [] ==> p.maxParts <= 2 * |chosen| || |sorted| <= 2 * |chosen|
    ensures chosen != [] ==> Sum(chosen) <= free && Sum(chosen) <= p.maxFanOutSize
    ensures chosen != [] ==> chosen[|chosen| - 1].size <= chosen[0].size * |chosen|
    ensures chosen != [] ==> p.multiplier * chosen[|chosen| - 1].size as real <= Sum(chosen) as real
    ensures chosen != [] ==> p.maxParts * chosen[|chosen| - 1].size <= 2 * Sum(chosen)
    ensures forall all :: BySize(all) && multiset(all) == multiset(src) ==> NoneBetter(p, free, |sorted|, all, chosen)
  {
    chosen, sorted := Choose(p, src, free);
    hide *;
    SortedBySize(sorted);
    forall c ensures multiset(sorted)[c] == if SmallEnough(p, free, c) then multiset(src)[c] else 0 {
      PassIs(p, src, free, sorted, c);
    }
    ChoiceMeans(p, free, sorted, chosen);
    if chosen != [] {
      ChosenIsWorth(p, free, sorted, chosen);
      WorthMeans(p, free, |sorted|, chosen);
    }
    forall all | BySize(all) && multiset(all) == multiset(src) ensures NoneBetter(p, free, |sorted|, all, chosen) {
      SortedBySize(all);
      SamePositive(src, all);
      ChoiceOfAll(p, FanOut(p, free), src, all, sorted, chosen);
      BestMeans(p, free, sorted, all, chosen);
    }
  }

  method Choose(p: Policy, src: seq<Candidate>, free: nat) returns (chosen: seq<Candidate>, sorted: seq<Candidate>)
    requires Positive(src) && p.multiplier > 0.0
    ensures Sorted(sorted) && Positive(sorted)
    ensures multiset(sorted) == multiset(NotTooBig(src, MaxInPart(p, FanOut(p, free))))
    ensures IsChoice(p, FanOut(p, free), sorted, chosen)
  {
    var fanOut := FanOut(p, free);
    var tmp := FilterBig(src, MaxInPart(p, fanOut));
    ghost var r := Collections.SortExists(tmp, Less);
    assert Sorted(r);
    sorted :| multiset(sorted) == multiset(tmp) && Sorted(sorted);
    StillPositive(src, MaxInPart(p, fanOut), sorted);
    if |src| < 2 {
      FewParts(p, fanOut, src, sorted);
      return [], sorted;
    }
    var best, maxM := Search(p, fanOut, sorted);
    chosen := [];
    if maxM >= Threshold(p) {
      if best.Best? {
        chosen := sorted[best.j..best.j + best.n];
      }
    }
    ChoiceIs(p, fanOut, sorted, best, maxM, chosen);
  }

  method FilterBig(src: seq<Candidate>, limit: int) returns (tmp: seq<Candidate>)
    ensures tmp == NotTooBig(src, limit)
  {
    tmp := [];
    for i := 0 to |src|
      invariant tmp == NotTooBig(src[..i], limit)
    {
      assert src[..i + 1] == src[..i] + [src[i]];
      NotTooBigSnoc(src[..i], src[i], limit);
      if src[i].size > limit {
        continue;
      }
      tmp := tmp + [src[i]];
    }
    assert src[..|src|] == src;
  }

  method Search(p: Policy, fanOut: nat, s: seq<Candidate>) returns (best: Best, maxM: real)
    requires Sorted(s) && Positive(s)
    ensures BestSoFar(p, fanOut, s, MaxSrc(p, s) + 1, 0, best, maxM)
  {
    best, maxM := NoWindow, 0.0;
    var n := MinSrc(p, s);
    if n > MaxSrc(p, s) {
      return;
    }
    while n <= MaxSrc(p, s)
      invariant MinSrc(p, s) <= n <= MaxSrc(p, s) + 1
      invariant BestSoFar(p, fanOut, s, n, 0, best, maxM)
    {
      best, maxM := TryLength(p, fanOut, s, n, best, maxM);
      n := n + 1;
    }
  }

  lemma {:induction false} StillPositive(src: seq<Candidate>, limit: int, sorted: seq<Candidate>)
    requires Positive(src) && multiset(sorted) == multiset(NotTooBig(src, limit))
    ensures Positive(sorted) && |sorted| <= |src|
  {
    forall k | 0 <= k < |sorted| ensures sorted[k].size > 0 {
      assert sorted[k] in multiset(sorted);
      NotTooBigIs(src, limit, sorted[k]);
      assert sorted[k] in multiset(src);
    }
    NotTooBigShort(src, limit);
    assert |multiset(sorted)| == |sorted|;
  }

  lemma {:induction false} NotTooBigShort(src: seq<Candidate>, limit: int)
    ensures |NotTooBig(src, limit)| <= |src|
  {
    if src != [] {
      NotTooBigShort(src[1..], limit);
    }
  }

  lemma FewParts(p: Policy, fanOut: nat, src: seq<Candidate>, s: seq<Candidate>)
    requires |src| < 2 && |s| <= |src| && Positive(s)
    ensures IsChoice(p, fanOut, s, [])
  {
  }

  lemma ChoiceIs(p: Policy, fanOut: nat, s: seq<Candidate>, best: Best, m: real, chosen: seq<Candidate>)
    requires Positive(s) && p.multiplier > 0.0 && BestSoFar(p, fanOut, s, MaxSrc(p, s) + 1, 0, best, m)
    requires chosen == if m >= Threshold(p) && best.Best? then s[best.j..best.j + best.n] else []
    ensures IsChoice(p, fanOut, s, chosen)
  {
    hide Ratio;
    assert forall n: nat, j: nat :: Eligible(p, fanOut, s, n, j) ==> Tried(n, j, MaxSrc(p, s) + 1, 0);
    if chosen != [] {
      assert chosen == Window(s, best.n, best.j);
      assert IsLastBest(p, fanOut, s, chosen, best.n, best.j);
    }
  }
}
