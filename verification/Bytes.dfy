/** Bytes as numbers. */
module ByteValues {
  type byte = bv8

  lemma ByteOfInt(n: int)
    requires 0 <= n < 256
    ensures (n as byte) as int == n
  {
  }

  lemma IntOfByte(b: byte)
    ensures (b as int) as byte == b
  {
  }
}

/** Byte strings and little-endian integers. */
module Bytes {
  import V = ByteValues

  type byte = V.byte
  type bytes = seq<byte>

  datatype Option<+T> = None | Some(value: T) {
    predicate IsFailure() {
      None?
    }

    function PropagateFailure<U>(): Option<U>
      requires None?
    {
      None
    }

    function Extract(): T
      requires Some?
    {
      value
    }
  }

  /** 256 to the power `k`. */
  function Pow256(k: nat): (p: nat)
    ensures p > 0
  {
    if k == 0 then 1 else 256 * Pow256(k - 1)
  }

  /** The `k` low bytes of `n`, least significant first; higher bytes are cut off. */
  function LE(n: nat, k: nat): (s: bytes)
    ensures |s| == k
    decreases k
  {
    if k == 0 then [] else [(n % 256) as byte] + LE(n / 256, k - 1)
  }

  /** The number a little-endian byte string stands for. */
  function FromLE(s: bytes): (n: nat)
    ensures n < Pow256(|s|)
    decreases |s|
  {
    if s == [] then 0
    else
      var rest := FromLE(s[1..]);
      s[0] as int + 256 * rest
  }

  /** Reading back a written integer loses exactly what does not fit. */
  lemma {:induction false} FromLEOfLE(n: nat, k: nat)
    ensures FromLE(LE(n, k)) == n % Pow256(k)
    decreases k
  {
    if k > 0 {
      var p := Pow256(k - 1);
      FromLEOfLE(n / 256, k - 1);
      assert LE(n, k)[1..] == LE(n / 256, k - 1);
      V.ByteOfInt(n % 256);
      hide Pow256;
      PowerUnfold(k);
      ModByParts(n, p);
    }
  }

  lemma PowerUnfold(k: nat)
    ensures k > 0 ==> Pow256(k) == 256 * Pow256(k - 1)
  {
  }

  lemma ModByParts(n: nat, p: nat)
    requires p > 0
    ensures n % 256 + 256 * ((n / 256) % p) == n % (256 * p)
  {
    var q, d := n / 256, n % 256;
    var a, b := q / p, q % p;
    assert n == (256 * p) * a + (256 * b + d) by {
      assert q == p * a + b;
      assert 256 * (p * a) == (256 * p) * a;
    }
    assert 0 <= 256 * b + d < 256 * p;
    RemainderIsUnique(n, 256 * p, a, 256 * b + d);
  }

  lemma ProductIsNonNegative(m: int, d: int)
    requires m >= 0 && d >= 0
    ensures m * d >= 0
  {
  }

  lemma ProductGrows(m: int, a: int, b: int)
    requires m > 0 && a < b
    ensures m * a + m <= m * b
  {
    var d := b - a - 1;
    ProductIsNonNegative(m, d);
    assert m * (a + 1 + d) == m * a + m + m * d;
    assert a + 1 + d == b;
  }

  lemma RemainderIsUnique(n: int, m: int, q: int, r: int)
    requires m > 0 && 0 <= r < m && n == m * q + r
    ensures n % m == r
  {
    if q > n / m {
      ProductGrows(m, n / m, q);
    } else if q < n / m {
      ProductGrows(m, q, n / m);
    }
  }

  /** Quotient and remainder of a number given by its lowest byte and the rest. */
  lemma LowestByte(b: byte, rest: nat)
    ensures (b as int + 256 * rest) % 256 == b as int
    ensures (b as int + 256 * rest) / 256 == rest
    ensures (b as int) as byte == b
  {
    V.IntOfByte(b);
    QuotientAndRemainder(b as int, rest);
  }

  lemma QuotientAndRemainder(d: int, rest: nat)
    requires 0 <= d < 256
    ensures (d + 256 * rest) % 256 == d
    ensures (d + 256 * rest) / 256 == rest
  {
  }

  lemma {:induction false} LEOfFromLE(s: bytes)
    ensures LE(FromLE(s), |s|) == s
    decreases |s|
  {
    hide Pow256;
    if s != [] {
      LEOfFromLE(s[1..]);
      var rest := FromLE(s[1..]);
      LowestByte(s[0], rest);
      assert s == [s[0]] + s[1..];
    }
  }

  lemma Powers()
    ensures Pow256(1) == 0x100 && Pow256(2) == 0x1_0000
    ensures Pow256(4) == 0x1_0000_0000 && Pow256(8) == 0x1_0000_0000_0000_0000
  {
    assert Pow256(3) == 0x100_0000;
    assert Pow256(5) == 0x100_0000_0000;
    assert Pow256(6) == 0x1_0000_0000_0000;
    assert Pow256(7) == 0x100_0000_0000_0000;
  }

  /** A number that fits its width survives. */
  lemma FromLEFits(n: nat, k: nat)
    requires n < Pow256(k)
    ensures FromLE(LE(n, k)) == n
  {
    FromLEOfLE(n, k);
    RemainderIsUnique(n, Pow256(k), 0, n);
  }
}
