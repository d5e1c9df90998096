/** The CDR transfer syntax (section 15.3 of CORBA 3.0.3) as the Python codec applies it:
    padding to a multiple of the size, counted from behind the four-byte header, two's
    complement integers of either byte order, and strings with a terminating zero. */
module CdrFormat {
  import opened Bytes
  import opened Format
  import opened CdrTypes

  /** Bytes skipped before a number of the given size; single bytes are never aligned. */
  function Padding(offset: nat, size: nat): (p: nat)
    requires size > 0
    ensures p < size
  {
    if size == 1 then 0
    else
      var a := (offset - 4) % size;
      if a > 0 then size - a else 0
  }

  function Zeros(n: nat): (z: bytes)
    ensures |z| == n
  {
    seq(n, i => 0)
  }

  function Reversed(s: bytes): (r: bytes)
    ensures |r| == |s|
  {
    seq(|s|, i requires 0 <= i < |s| => s[|s| - 1 - i])
  }

  function NumberBytes(n: nat, size: nat, little: bool): (s: bytes)
    ensures |s| == size
  {
    if little then LE(n, size) else Reversed(LE(n, size))
  }

  function NumberOf(s: bytes, little: bool): nat {
    FromLE(if little then s else Reversed(s))
  }

  lemma NumberReadsBack(n: nat, size: nat, little: bool)
    requires n < Pow256(size)
    ensures NumberOf(NumberBytes(n, size, little), little) == n
  {
    hide LE, FromLE, Pow256;
    FromLEFits(n, size);
    assert Reversed(Reversed(LE(n, size))) == LE(n, size);
  }

  // ---------- numbers ----------

  /** A number behind its padding. */
  function WithNumber(out: bytes, n: nat, size: nat, little: bool): (r: bytes)
    requires size > 0
    ensures |r| == |out| + Padding(|out|, size) + size
  {
    out + Zeros(Padding(|out|, size)) + NumberBytes(n, size, little)
  }

  /** Reads a number behind its padding, and the offset behind it. */
  function NumberAt(data: bytes, offset: nat, size: nat, little: bool): (r: Option<(nat, nat)>)
    requires size > 0
    ensures r.Some? ==> offset < r.value.1 <= |data|
  {
    var at := offset + Padding(offset, size);
    if at + size > |data| then None else Some((NumberOf(data[at..at + size], little), at + size))
  }

  lemma NumberStands(out: bytes, n: nat, size: nat, little: bool, rest: bytes)
    requires size > 0 && n < Pow256(size)
    ensures NumberAt(WithNumber(out, n, size, little) + rest, |out|, size, little) ==
            Some((n, |WithNumber(out, n, size, little)|))
  {
    hide Padding, NumberOf, NumberBytes, Pow256;
    NumberReadsBack(n, size, little);
    var at := |out| + Padding(|out|, size);
    var data := WithNumber(out, n, size, little) + rest;
    assert data[at..at + size] == NumberBytes(n, size, little);
  }

  // ---------- scalars ----------

  predicate IsSigned(t: Primitive) {
    t.CharType? || t.Int8? || t.Int16? || t.Int32? || t.Int64?
  }

  /** The bits of a scalar in the type's width; values out of range raise. */
  function BitsOf(t: Primitive, x: Scalar): (r: Option<nat>)
    ensures r.Some? ==> r.value < Pow256(Width(t)) && !IsString(t)
  {
    var m := Pow256(Width(t));
    if IsString(t) then None
    else if t.BoolType? then
      (Powers(); if x.BoolValue? then Some(if x.b then 1 else 0) else None)
    else if IsFloat(t) then (if x.FloatValue? && x.bits < m then Some(x.bits) else None)
    else if !x.IntValue? then None
    else if IsSigned(t) then
      (if x.n < 0 then (if 0 - x.n <= m / 2 then Some(x.n + m) else None)
       else if x.n < (m + 1) / 2 then Some(x.n) else None)
    else if 0 <= x.n < m then Some(x.n) else None
  }

  /** The scalar some bits stand for. */
  function ScalarOf(t: Primitive, bits: nat): Scalar {
    var m := Pow256(Width(t));
    if t.BoolType? then BoolValue(bits != 0)
    else if IsFloat(t) then FloatValue(bits)
    else if IsSigned(t) && bits >= m / 2 then IntValue(bits - m)
    else IntValue(bits)
  }

  lemma PowersAreEven(t: Primitive)
    ensures Pow256(Width(t)) % 2 == 0 && Pow256(Width(t)) >= 256
  {
    Powers();
  }

  lemma BitsReadBack(t: Primitive, x: Scalar)
    requires BitsOf(t, x).Some?
    ensures ScalarOf(t, BitsOf(t, x).value) == x
  {
    hide Pow256, Width;
    PowersAreEven(t);
  }

  /** A scalar in the output; strings carry their length plus one and end in a zero byte,
      wide strings are not supported. */
  function WithScalar(out: bytes, t: Primitive, x: Scalar, little: bool): (r: Option<bytes>)
    ensures r.Some? ==> |out| < |r.value|
  {
    if t.StringType? then
      if x.StringValue? && |x.s| + 1 < U32 then Some(WithNumber(out, |x.s| + 1, 4, little) + x.s + [0]) else None
    else if t.WStringType? then None
    else
      var bits :- BitsOf(t, x);
      Some(WithNumber(out, bits, Width(t), little))
  }

  /** Reads a string: slices are cut at the end of the data, as Python's are. */
  function StringAt(data: bytes, offset: nat, little: bool): Option<(Scalar, nat)> {
    var (length, at) :- NumberAt(data, offset, 4, little);
    if length <= 1 then Some((StringValue([]), at + length))
    else Some((StringValue(Slice(data, at, length - 1)), at + length))
  }

  function Slice(data: bytes, at: nat, n: nat): bytes {
    if at >= |data| then [] else if at + n <= |data| then data[at..at + n] else data[at..]
  }

  function ScalarAt(data: bytes, offset: nat, t: Primitive, little: bool): Option<(Scalar, nat)> {
    if t.StringType? then StringAt(data, offset, little)
    else if t.WStringType? then None
    else
      var (bits, next) :- NumberAt(data, offset, Width(t), little);
      Some((ScalarOf(t, bits), next))
  }

  /** A scalar is read back, and the reader stops where the writer stopped. */
  lemma ScalarStands(out: bytes, t: Primitive, x: Scalar, little: bool, rest: bytes)
    requires WithScalar(out, t, x, little).Some?
    ensures var w := WithScalar(out, t, x, little).value;
            out <= w && ScalarAt(w + rest, |out|, t, little) == Some((x, |w|))
  {
    hide Pow256, WithNumber, NumberAt, Padding;
    Powers();
    var w := WithScalar(out, t, x, little).value;
    if t.StringType? {
      var n := |x.s| + 1;
      var head := WithNumber(out, n, 4, little);
      NumberKeepsPrefix(out, n, 4, little);
      NumberStands(out, n, 4, little, x.s + [0] + rest);
      assert head + x.s + [0] + rest == head + (x.s + [0] + rest);
      MiddleStands(head, x.s, [0] + rest);
      assert w + rest == head + x.s + ([0] + rest);
    } else {
      var bits := BitsOf(t, x).value;
      NumberKeepsPrefix(out, bits, Width(t), little);
      NumberStands(out, bits, Width(t), little, rest);
      BitsReadBack(t, x);
    }
  }

  lemma MiddleStands(a: bytes, b: bytes, c: bytes)
    ensures (a + b + c)[|a|..|a| + |b|] == b
  {
  }

  lemma NumberKeepsPrefix(out: bytes, n: nat, size: nat, little: bool)
    requires size > 0
    ensures out <= WithNumber(out, n, size, little)
  {
    hide NumberBytes, Padding;
  }

  // ---------- arrays of scalars ----------

  function WithScalars(out: bytes, t: Primitive, xs: seq<Scalar>, little: bool): (r: Option<bytes>)
    ensures r.Some? ==> |out| <= |r.value|
    decreases |xs|
  {
    if xs == [] then (if t.WStringType? then None else Some(out))
    else
      var before :- WithScalars(out, t, xs[..|xs| - 1], little);
      WithScalar(before, t, xs[|xs| - 1], little)
  }

  function ScalarsAt(data: bytes, offset: nat, t: Primitive, n: nat, little: bool): Option<(seq<Scalar>, nat)>
    decreases n
  {
    if n == 0 then (if t.WStringType? then None else Some(([], offset)))
    else
      var (before, at) :- ScalarsAt(data, offset, t, n - 1, little);
      var (last, next) :- ScalarAt(data, at, t, little);
      Some((before + [last], next))
  }

  lemma {:induction false} ScalarsStand(out: bytes, t: Primitive, xs: seq<Scalar>, little: bool, rest: bytes)
    requires WithScalars(out, t, xs, little).Some?
    ensures var w := WithScalars(out, t, xs, little).value;
            out <= w && ScalarsAt(w + rest, |out|, t, |xs|, little) == Some((xs, |w|))
    decreases |xs|
  {
    hide WithScalar, ScalarAt;
    if xs != [] {
      var n := |xs| - 1;
      var before := WithScalars(out, t, xs[..n], little).value;
      var w := WithScalar(before, t, xs[n], little).value;
      ScalarStands(before, t, xs[n], little, rest);
      var more := w[|before|..] + rest;
      assert w + rest == before + more;
      ScalarsStand(out, t, xs[..n], little, more);
      assert xs[..n] + [xs[n]] == xs;
    }
  }

  predicate IsOctetValue(x: Scalar) {
    x.IntValue? && 0 <= x.n < 256
  }

  lemma OctetStands(out: bytes, t: Primitive, x: Scalar, little: bool)
    requires IsOctet(t)
    ensures WithScalar(out, t, x, little).Some? <==> IsOctetValue(x)
    ensures IsOctetValue(x) ==> WithScalar(out, t, x, little) == Some(out + [x.n as byte])
  {
    hide Pow256, NumberBytes;
    Powers();
    if IsOctetValue(x) {
      OneOctet(x.n, little);
      assert out + Zeros(0) == out;
    }
  }

  lemma OctetsMore(xs: seq<Scalar>, x: Scalar)
    ensures AllOctets(xs + [x]) <==> AllOctets(xs) && IsOctetValue(x)
    ensures AllOctets(xs + [x]) ==> OctetsOf(xs + [x]) == OctetsOf(xs) + [x.n as byte]
  {
    if AllOctets(xs + [x]) {
      assert forall i :: 0 <= i < |xs| ==> xs[i] == (xs + [x])[i];
      assert (xs + [x])[|xs|] == x;
    }
  }

  /** Octets written one by one are the bytes written at once. */
  lemma {:induction false} OctetsAreBytes(out: bytes, t: Primitive, xs: seq<Scalar>, little: bool)
    requires IsOctet(t)
    ensures WithScalars(out, t, xs, little).Some? <==> AllOctets(xs)
    ensures AllOctets(xs) ==> WithScalars(out, t, xs, little) == Some(out + OctetsOf(xs))
    decreases |xs|
  {
    hide WithScalar, AllOctets, OctetsOf, IsOctetValue, WithScalars;
    if xs == [] {
      NoScalars(out, t, little);
      NoOctets();
      assert out + [] == out;
    } else {
      var n := |xs| - 1;
      OctetsAreBytes(out, t, xs[..n], little);
      assert xs == xs[..n] + [xs[n]];
      ScalarsMore(out, t, xs[..n], xs[n], little);
      OctetsMore(xs[..n], xs[n]);
      if AllOctets(xs[..n]) {
        var before := out + OctetsOf(xs[..n]);
        OctetStands(before, t, xs[n], little);
        if AllOctets(xs) {
          OctetValue(xs[n]);
          Associates(out, OctetsOf(xs[..n]), [xs[n].n as byte]);
        }
      }
    }
  }

  lemma Associates(a: bytes, b: bytes, c: bytes)
    ensures a + b + c == a + (b + c)
  {
  }

  lemma NoScalars(out: bytes, t: Primitive, little: bool)
    ensures !t.WStringType? ==> WithScalars(out, t, [], little) == Some(out)
  {
  }

  lemma ScalarsMore(out: bytes, t: Primitive, xs: seq<Scalar>, x: Scalar, little: bool)
    ensures WithScalars(out, t, xs + [x], little) ==
            match WithScalars(out, t, xs, little) case None => None case Some(w) => WithScalar(w, t, x, little)
  {
    hide WithScalar;
    assert (xs + [x])[..|xs|] == xs;
  }

  lemma OctetValue(x: Scalar)
    requires IsOctetValue(x)
    ensures x.IntValue? && 0 <= x.n < 256
  {
  }

  lemma NoOctets()
    ensures AllOctets([]) && OctetsOf([]) == []
  {
  }

  lemma OneOctet(n: nat, little: bool)
    requires n < 256
    ensures NumberBytes(n, 1, little) == [n as byte]
  {
    assert LE(n, 1) == [(n % 256) as byte] + LE(n / 256, 0);
    assert Reversed([n as byte]) == [n as byte];
  }
}
