/** String-array tag values: elements escaped and delimited, written one after another. */
module VarArray {
  import opened Points

  const DELIMITER: byte := 124
  const ESCAPE: byte := 92

  predicate Special(b: byte) {
    b == DELIMITER || b == ESCAPE
  }

  // ---------- encoding ----------

  function Escaped(src: Bytes): Bytes {
    if src == [] then []
    else (if Special(src[0]) then [ESCAPE, src[0]] else [src[0]]) + Escaped(src[1..])
  }

  function Encoded(src: Bytes): Bytes {
    Escaped(src) + [DELIMITER]
  }

  function EncodedAll(xs: seq<Bytes>): Bytes {
    if xs == [] then [] else Encoded(xs[0]) + EncodedAll(xs[1..])
  }

  /** The format in bytes: a bar ends an element, and a backslash goes before each bar and backslash in it. */
  lemma {:induction false} EncodedBytes(b: byte, src: Bytes)
    ensures Encoded([]) == [124]
    ensures Encoded([b] + src) == (if b == 124 || b == 92 then [92, b] else [b]) + Encoded(src)
  {
    assert ([b] + src)[1..] == src;
  }

  lemma {:induction false} NothingToEscape(src: Bytes)
    requires DELIMITER !in src && ESCAPE !in src
    ensures Escaped(src) == src
  {
    if src != [] {
      assert src[0] in src;
      assert forall b :: b in src[1..] ==> b in src;
      NothingToEscape(src[1..]);
      assert src == [src[0]] + src[1..];
    }
  }

  lemma {:induction false} EscapedSnoc(src: Bytes, b: byte)
    ensures Escaped(src + [b]) == Escaped(src) + (if Special(b) then [ESCAPE, b] else [b])
  {
    if src != [] {
      EscapedSnoc(src[1..], b);
      assert (src + [b])[1..] == src[1..] + [b];
    }
  }

  /** marshalVarArray: a copy when there is nothing to escape, else byte by byte. */
  method MarshalVarArray(dest: Bytes, src: Bytes) returns (r: Bytes)
    ensures r == dest + Encoded(src)
  {
    if DELIMITER !in src && ESCAPE !in src {
      NothingToEscape(src);
      r := dest + src;
      r := r + [DELIMITER];
      return;
    }
    r := dest;
    for i := 0 to |src|
      invariant r == dest + Escaped(src[..i])
    {
      var b := src[i];
      EscapedSnoc(src[..i], b);
      assert src[..i + 1] == src[..i] + [b];
      if b == DELIMITER || b == ESCAPE {
        r := r + [ESCAPE];
      }
      r := r + [b];
    }
    assert src[..|src|] == src;
    r := r + [DELIMITER];
  }

  lemma {:induction false} EncodedAllSnoc(xs: seq<Bytes>, x: Bytes)
    ensures EncodedAll(xs + [x]) == EncodedAll(xs) + Encoded(x)
  {
    if xs != [] {
      EncodedAllSnoc(xs[1..], x);
      assert (xs + [x])[1..] == xs[1..] + [x];
    }
  }

  /** nameValue.marshal of an array value. */
  method MarshalAll(xs: seq<Bytes>) returns (r: Bytes)
    ensures r == EncodedAll(xs)
  {
    r := [];
    for i := 0 to |xs|
      invariant r == EncodedAll(xs[..i])
    {
      EncodedAllSnoc(xs[..i], xs[i]);
      assert xs[..i + 1] == xs[..i] + [xs[i]];
      r := MarshalVarArray(r, xs[i]);
    }
    assert xs[..|xs|] == xs;
  }

  // ---------- decoding ----------

  datatype Decode = Element(value: Bytes, rest: Bytes) | EmptyValue | InvalidEscape | Unterminated

  /** The bytes up to the first delimiter that is not escaped. */
  function Scan(src: Bytes): Decode {
    if src == [] then Unterminated
    else if src[0] == ESCAPE then
      if |src| < 2 then InvalidEscape else Prepend(src[1], Scan(src[2..]))
    else if src[0] == DELIMITER then Element([], src[1..])
    else Prepend(src[0], Scan(src[1..]))
  }

  function Prepend(b: byte, d: Decode): Decode {
    if d.Element? then Element([b] + d.value, d.rest) else d
  }

  function Append(dest: Bytes, d: Decode): Decode {
    if d.Element? then Element(dest + d.value, d.rest) else d
  }

  function Decoded(dest: Bytes, src: Bytes): Decode {
    if src == [] then EmptyValue else Append(dest, Scan(src))
  }

  lemma AppendPrepend(dest: Bytes, b: byte, d: Decode)
    ensures Append(dest, Prepend(b, d)) == Append(dest + [b], d)
  {
    if d.Element? {
      assert dest + ([b] + d.value) == dest + [b] + d.value;
    }
  }

  /** unmarshalVarArray */
  method UnmarshalVarArray(dest: Bytes, src: Bytes) returns (r: Decode)
    ensures r == Decoded(dest, src)
  {
    if |src| == 0 {
      return EmptyValue;
    }
    if src[0] == DELIMITER {
      assert dest + [] == dest;
      return Element(dest, src[1..]);
    }
    var d, s := dest, src;
    while |s| > 0
      invariant Append(d, Scan(s)) == Append(dest, Scan(src))
      decreases |s|
    {
      if s[0] == ESCAPE {
        if |s| < 2 {
          return InvalidEscape;
        }
        AppendPrepend(d, s[1], Scan(s[2..]));
        assert s[1..][1..] == s[2..];
        s := s[1..];
        d := d + [s[0]];
      } else if s[0] == DELIMITER {
        assert d + [] == d;
        return Element(d, s[1..]);
      } else {
        AppendPrepend(d, s[0], Scan(s[1..]));
        d := d + [s[0]];
      }
      s := s[1..];
    }
    return Unterminated;
  }

  // ---------- what decoding means ----------

  /** `src` is a run of plain and escaped bytes that stand for `x`. */
  predicate StandsFor(src: Bytes, x: Bytes)
    decreases |x|
  {
    if x == [] then src == []
    else if src == [] then false
    else if src[0] == ESCAPE then |src| >= 2 && src[1] == x[0] && StandsFor(src[2..], x[1..])
    else src[0] != DELIMITER && src[0] == x[0] && StandsFor(src[1..], x[1..])
  }

  /** An element is read exactly when the input is such a run, a delimiter and the rest. */
  lemma {:induction false} ScanIff(src: Bytes, x: Bytes, rest: Bytes)
    ensures Scan(src) == Element(x, rest)
       <==> exists run :: StandsFor(run, x) && src == run + [DELIMITER] + rest
    decreases |src|
  {
    if Scan(src) == Element(x, rest) {
      var run := RunOf(src);
    }
    if run :| StandsFor(run, x) && src == run + [DELIMITER] + rest {
      ScanRun(run, x, rest);
    }
  }

  lemma {:induction false} ScanRun(run: Bytes, x: Bytes, rest: Bytes)
    requires StandsFor(run, x)
    ensures Scan(run + [DELIMITER] + rest) == Element(x, rest)
    decreases |x|
  {
    var src := run + [DELIMITER] + rest;
    if x == [] {
      assert src == [DELIMITER] + rest;
    } else if run[0] == ESCAPE {
      ScanRun(run[2..], x[1..], rest);
      assert src[2..] == run[2..] + [DELIMITER] + rest;
    } else {
      ScanRun(run[1..], x[1..], rest);
      assert src[1..] == run[1..] + [DELIMITER] + rest;
    }
  }

  lemma {:induction false} RunOf(src: Bytes) returns (run: Bytes)
    requires Scan(src).Element?
    ensures StandsFor(run, Scan(src).value) && src == run + [DELIMITER] + Scan(src).rest
    decreases |src|
  {
    if src[0] == DELIMITER {
      run := [];
      assert src == [] + [DELIMITER] + src[1..];
    } else if src[0] == ESCAPE {
      var r := RunOf(src[2..]);
      run := [ESCAPE, src[1]] + r;
      assert run[2..] == r;
    } else {
      var r := RunOf(src[1..]);
      run := [src[0]] + r;
      assert run[1..] == r;
    }
  }

  lemma {:induction false} EscapedStands(x: Bytes)
    ensures StandsFor(Escaped(x), x)
  {
    if x != [] {
      EscapedStands(x[1..]);
      if Special(x[0]) {
        assert Escaped(x)[2..] == Escaped(x[1..]);
      } else {
        assert Escaped(x)[1..] == Escaped(x[1..]);
      }
    }
  }

  /** One decode step gives back the first element and exactly what follows it. */
  lemma {:induction false} ScanEncoded(x: Bytes, rest: Bytes)
    ensures Scan(Encoded(x) + rest) == Element(x, rest)
  {
    EscapedStands(x);
    ScanRun(Escaped(x), x, rest);
  }

  /** A run of plain and escaped bytes, complete to the end. */
  predicate Tokens(src: Bytes) {
    || src == []
    || (src[0] == ESCAPE && |src| >= 2 && Tokens(src[2..]))
    || (!Special(src[0]) && Tokens(src[1..]))
  }

  /** Malformed input: a run without a delimiter, or one with an escape at the very end. */
  lemma {:induction false} ScanErrors(src: Bytes)
    ensures Scan(src) == Unterminated <==> Tokens(src)
    ensures Scan(src) == InvalidEscape <==> src != [] && src[|src| - 1] == ESCAPE && Tokens(src[..|src| - 1])
    ensures Scan(src) != EmptyValue
    decreases |src|
  {
    if |src| >= 2 && src[0] == ESCAPE {
      ScanErrors(src[2..]);
      if |src| > 2 {
        assert src[..|src| - 1][2..] == src[2..][..|src[2..]| - 1];
      }
    } else if |src| >= 2 && src[0] != DELIMITER {
      ScanErrors(src[1..]);
      assert src[..|src| - 1][1..] == src[1..][..|src[1..]| - 1];
    }
  }

  // ---------- whole arrays ----------

  datatype Values = Values(xs: seq<Bytes>) | Panic

  lemma {:induction false} ScanShorter(src: Bytes)
    ensures Scan(src).Element? ==> |Scan(src).rest| < |src|
    decreases |src|
  {
    if src != [] {
      if src[0] == ESCAPE {
        if |src| >= 2 { ScanShorter(src[2..]); }
      } else if src[0] != DELIMITER {
        ScanShorter(src[1..]);
      }
    }
  }

  function DecodedAll(value: Bytes): Values
    decreases |value|
  {
    if value == [] then Values([])
    else
      var d := Scan(value);
      if !d.Element? then Panic
      else
        ScanShorter(value);
        match DecodedAll(d.rest) case Values(xs) => Values([d.value] + xs) case Panic => Panic
  }

  /** Runs, each closed by a delimiter. */
  function Closed(runs: seq<Bytes>): Bytes {
    if runs == [] then [] else runs[0] + [DELIMITER] + Closed(runs[1..])
  }

  predicate AllStand(runs: seq<Bytes>, xs: seq<Bytes>) {
    |runs| == |xs| && forall i :: 0 <= i < |xs| ==> StandsFor(runs[i], xs[i])
  }

  /** `value` is runs for `xs`, each closed by a delimiter. */
  ghost predicate IsArray(value: Bytes, xs: seq<Bytes>) {
    exists runs :: AllStand(runs, xs) && value == Closed(runs)
  }

  lemma {:induction false} ClosedDecodes(runs: seq<Bytes>, xs: seq<Bytes>)
    requires AllStand(runs, xs)
    ensures DecodedAll(Closed(runs)) == Values(xs)
  {
    if runs != [] {
      ClosedDecodes(runs[1..], xs[1..]);
      ScanRun(runs[0], xs[0], Closed(runs[1..]));
      assert [xs[0]] + xs[1..] == xs;
    }
  }

  lemma {:induction false} RunsOf(value: Bytes) returns (runs: seq<Bytes>)
    requires DecodedAll(value).Values?
    ensures AllStand(runs, DecodedAll(value).xs) && value == Closed(runs)
    decreases |value|
  {
    if value == [] {
      runs := [];
    } else {
      ScanShorter(value);
      var run := RunOf(value);
      var more := RunsOf(Scan(value).rest);
      runs := [run] + more;
      assert runs[1..] == more;
    }
  }

  /** The whole array is read exactly when the value is such runs; anything else panics. */
  lemma {:induction false} DecodedIff(value: Bytes, xs: seq<Bytes>)
    ensures DecodedAll(value) == Values(xs) <==> IsArray(value, xs)
  {
    if DecodedAll(value) == Values(xs) {
      var runs := RunsOf(value);
    }
    if IsArray(value, xs) {
      var runs :| AllStand(runs, xs) && value == Closed(runs);
      ClosedDecodes(runs, xs);
    }
  }

  /** The array branch of mustDecodeTagValue. */
  method DecodeArray(value: Bytes) returns (r: Values)
    ensures r == DecodedAll(value)
    ensures r.Panic? <==> forall xs :: !IsArray(value, xs)
    ensures r.Values? ==> IsArray(value, r.xs)
  {
    r := DecodeLoop(value);
    forall xs {
      DecodedIff(value, xs);
    }
    if r.Values? {
      assert IsArray(value, r.xs);
    }
  }

  method DecodeLoop(value: Bytes) returns (r: Values)
    ensures r == DecodedAll(value)
  {
    var values: seq<Bytes>, v := [], value;
    while |v| > 0
      invariant DecodedAll(value) == match DecodedAll(v) case Values(xs) => Values(values + xs) case Panic => Panic
      decreases |v|
    {
      var d := UnmarshalVarArray([], v);
      ScanShorter(v);
      if !d.Element? {
        return Panic;
      }
      assert [] + Scan(v).value == Scan(v).value;
      if DecodedAll(d.rest).Values? {
        assert values + ([d.value] + DecodedAll(d.rest).xs) == values + [d.value] + DecodedAll(d.rest).xs;
      }
      values, v := values + [d.value], d.rest;
    }
    assert values + [] == values;
    return Values(values);
  }

  /** Decoding what was encoded gives the array back, whatever bytes its elements hold. */
  lemma {:induction false} RoundTrip(xs: seq<Bytes>)
    ensures DecodedAll(EncodedAll(xs)) == Values(xs)
  {
    if xs != [] {
      RoundTrip(xs[1..]);
      ScanEncoded(xs[0], EncodedAll(xs[1..]));
      assert [xs[0]] + xs[1..] == xs;
    }
  }

  /** Writing an array value and reading it back. */
  method WriteAndRead(xs: seq<Bytes>) returns (r: Values)
    ensures r == Values(xs)
  {
    var value := MarshalAll(xs);
    RoundTrip(xs);
    r := DecodeArray(value);
  }
}
