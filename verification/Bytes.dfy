/** Bytes and the fixed-width integers written in them. */
module Bytes {
  import opened Words

  type byte = b: nat | b < 256

  function Power256(n: nat): (r: nat)
    ensures r > 0
  {
    if n == 0 then 1 else 256 * Power256(n - 1)
  }

  // The lowest width bytes of v, least significant first: what a cast to that width keeps.
  function LittleEndian(v: nat, width: nat): (r: seq<byte>)
    ensures |r| == width
  {
    if width == 0 then [] else [v % 256] + LittleEndian(v / 256, width - 1)
  }

  function FromLittleEndian(b: seq<byte>): nat {
    if b == [] then 0 else b[0] + 256 * FromLittleEndian(b[1..])
  }

  // The same with the most significant byte first.
  function BigEndian(v: nat, width: nat): (r: seq<byte>)
    ensures |r| == width
  {
    if width == 0 then [] else BigEndian(v / 256, width - 1) + [v % 256]
  }

  function FromBigEndian(b: seq<byte>): nat {
    if b == [] then 0 else 256 * FromBigEndian(b[..|b| - 1]) + b[|b| - 1]
  }

  lemma {:induction false} LittleEndianRoundTrip(v: nat, width: nat)
    requires v < Power256(width)
    ensures FromLittleEndian(LittleEndian(v, width)) == v
  {
    if width > 0 {
      LittleEndianRoundTrip(v / 256, width - 1);
    }
  }

  lemma {:induction false} LittleEndianInverse(b: seq<byte>)
    ensures FromLittleEndian(b) < Power256(|b|)
    ensures LittleEndian(FromLittleEndian(b), |b|) == b
  {
    if b != [] {
      LittleEndianInverse(b[1..]);
      assert b == [b[0]] + b[1..];
    }
  }

  // Byte k is digit k to the base 256, counted from the low end or from the high end.
  lemma {:induction false} LittleEndianDigit(v: nat, width: nat, k: nat)
    requires k < width
    ensures LittleEndian(v, width)[k] == v / Power256(k) % 256
  {
    if k > 0 {
      LittleEndianDigit(v / 256, width - 1, k - 1);
      DivideTwice(v, Power256(k - 1));
    }
  }

  lemma {:induction false} BigEndianDigit(v: nat, width: nat, k: nat)
    requires k < width
    ensures BigEndian(v, width)[width - 1 - k] == v / Power256(k) % 256
  {
    if k > 0 {
      BigEndianDigit(v / 256, width - 1, k - 1);
      DivideTwice(v, Power256(k - 1));
    }
  }

  lemma DivideTwice(v: nat, p: nat)
    requires p > 0
    ensures v / 256 / p == v / (256 * p)
  {
    var q := v / 256 / p;
    assert q * p <= v / 256 < (q + 1) * p;
    assert 256 * (q * p) <= v < 256 * ((q + 1) * p);
    QuotientIs(v, 256 * p, q);
  }

  lemma QuotientIs(v: nat, m: nat, q: nat)
    requires m > 0 && q * m <= v < (q + 1) * m
    ensures v / m == q
  {
    Smaller(v / m, q + 1, m);
    Smaller(q, v / m + 1, m);
  }

  lemma Smaller(a: nat, b: nat, m: nat)
    requires m > 0 && a * m < b * m
    ensures a < b
  {
  }

  lemma {:induction false} BigEndianRoundTrip(v: nat, width: nat)
    requires v < Power256(width)
    ensures FromBigEndian(BigEndian(v, width)) == v
  {
    if width > 0 {
      BigEndianRoundTrip(v / 256, width - 1);
      assert BigEndian(v, width)[..width - 1] == BigEndian(v / 256, width - 1);
    }
  }

  lemma {:induction false} BigEndianInverse(b: seq<byte>)
    ensures FromBigEndian(b) < Power256(|b|)
    ensures BigEndian(FromBigEndian(b), |b|) == b
  {
    if b != [] {
      BigEndianInverse(b[..|b| - 1]);
      assert b == b[..|b| - 1] + [b[|b| - 1]];
    }
  }

  lemma {:induction false} PowerSum(m: nat, n: nat)
    ensures Power256(m + n) == Power256(m) * Power256(n)
  {
    if m > 0 {
      PowerSum(m - 1, n);
      assert 256 * (Power256(m - 1) * Power256(n)) == Power256(m) * Power256(n);
    }
  }

  lemma Width256()
    ensures Power256(32) == MAX_U256 + 1
  {
    Widths();
    PowerSum(8, 8);
    PowerSum(16, 16);
  }

  lemma Widths()
    ensures Power256(1) == 0x100 && Power256(2) == 0x1_0000 && Power256(4) == 0x1_0000_0000
    ensures Power256(8) == 0x1_0000_0000_0000_0000
  {
    assert Power256(3) == 0x100_0000;
    assert Power256(5) == 0x100_0000_0000;
    assert Power256(6) == 0x1_0000_0000_0000;
    assert Power256(7) == 0x100_0000_0000_0000;
  }
}
