/** ERC-7930 interoperable addresses, in the byte layout that the code uses. */
module Eip7930 {
  import opened Wrappers
  import opened Words
  import opened Bytes

  const TWO_64: nat := 0x1_0000_0000_0000_0000
  const CURRENT_VERSION: byte := 1
  const EIP155: Bytes2 := [0, 0]
  const ETH_ADDRESS_LENGTH: nat := 20

  type Bytes2 = b: seq<byte> | |b| == 2 witness [0, 0]
  type Address = b: seq<byte> | |b| == ETH_ADDRESS_LENGTH witness seq(ETH_ADDRESS_LENGTH, _ => 0)

  datatype InteropAddress = InteropAddress(version: byte, chainType: Bytes2, chainReference: seq<byte>,
                                           address: seq<byte>)

  datatype InteropError =
    | TooShort(expected: nat, actual: nat)
    | UnsupportedVersion(found: byte)
    | UnsupportedChainType(chainType: Bytes2)

  // ----- codec -----

  function LowByte(n: nat): byte {
    n % 256
  }

  function Encoded(a: InteropAddress): seq<byte> {
    [a.version] + a.chainType + [LowByte(|a.chainReference|), LowByte(|a.address|)] + a.chainReference + a.address
  }

  method ToBytes(a: InteropAddress) returns (bytes: seq<byte>)
    ensures bytes == Encoded(a)
  {
    bytes := [];
    bytes := bytes + [a.version];
    bytes := bytes + a.chainType;
    bytes := bytes + [LowByte(|a.chainReference|)];
    bytes := bytes + [LowByte(|a.address|)];
    bytes := bytes + a.chainReference;
    bytes := bytes + a.address;
  }

  function FromBytes(bytes: seq<byte>): Result<InteropAddress, InteropError> {
    if |bytes| < 6 then Err(TooShort(6, |bytes|))
    else if bytes[0] != CURRENT_VERSION then Err(UnsupportedVersion(bytes[0]))
    else
      var refEnd := 5 + bytes[3] as nat;
      var end := refEnd + bytes[4] as nat;
      if |bytes| != end then Err(TooShort(end, |bytes|))
      else Ok(InteropAddress(bytes[0], bytes[1..3], bytes[5..refEnd], bytes[refEnd..]))
  }

  // The addresses that the layout has room for.
  predicate Representable(a: InteropAddress) {
    && a.version == CURRENT_VERSION
    && |a.chainReference| <= 255 && |a.address| <= 255
    && (a.chainReference != [] || a.address != [])
  }

  // Version, chain type, the two lengths in one byte each, reference, address.
  lemma LayoutOf(a: InteropAddress)
    ensures var b, n := Encoded(a), |a.chainReference|;
      && |b| == 5 + n + |a.address|
      && b[0] == a.version && b[1..3] == a.chainType
      && b[3] == n % 256 && b[4] == |a.address| % 256
      && b[5..5 + n] == a.chainReference && b[5 + n..] == a.address
  {
  }

  // An address that does not fit is rejected when it is read back, never misread.
  lemma RoundTripIff(a: InteropAddress)
    ensures Representable(a) ==> FromBytes(Encoded(a)) == Ok(a)
    ensures !Representable(a) ==> FromBytes(Encoded(a)).Err?
  {
    var bytes := Encoded(a);
    assert bytes[0] == a.version && bytes[3] == LowByte(|a.chainReference|) && bytes[4] == LowByte(|a.address|);
    if Representable(a) {
      assert bytes[1..3] == a.chainType;
      assert bytes[5..5 + |a.chainReference|] == a.chainReference;
      assert bytes[5 + |a.chainReference|..] == a.address;
    }
  }

  // What is accepted is the encoding of the address read from it, so no two inputs read alike.
  lemma AcceptsOnlyEncodings(bytes: seq<byte>)
    requires FromBytes(bytes).Ok?
    ensures Representable(FromBytes(bytes).value)
    ensures Encoded(FromBytes(bytes).value) == bytes
  {
    var refEnd := 5 + bytes[3] as nat;
    assert bytes == [bytes[0]] + bytes[1..3] + [bytes[3], bytes[4]] + bytes[5..refEnd] + bytes[refEnd..];
  }

  // ----- Ethereum chain ids -----

  // The big-endian form without leading zeros, but never empty.
  ghost predicate Minimal(b: seq<byte>, id: nat) {
    b != [] && FromBigEndian(b) == id && (|b| > 1 ==> b[0] != 0)
  }

  // The three branches give the same form.
  method NewEthereum(chainId: u64, address: Address) returns (a: InteropAddress)
    ensures a.version == 1 && a.chainType == [0, 0] && a.address == address
    ensures Minimal(a.chainReference, chainId)
  {
    var reference: seq<byte>;
    if chainId <= 255 {
      reference := [LowByte(chainId)];
      assert reference == BigEndian(chainId, 1);
      BigEndianRoundTrip(chainId, 1);
    } else if chainId <= 65535 {
      reference := [LowByte(chainId / 256), LowByte(chainId)];
      assert FromBigEndian(reference[..1]) == LowByte(chainId / 256) by {
        assert reference[..1][..0] == [];
      }
    } else {
      reference := ChainReference(chainId);
    }
    a := InteropAddress(CURRENT_VERSION, EIP155, reference, address);
  }

  // The loop that takes the lowest byte off until nothing is left.
  method ChainReference(chainId: u64) returns (bytes: seq<byte>)
    requires chainId > 0
    ensures Minimal(bytes, chainId)
  {
    bytes := [];
    var id := chainId;
    while id > 0
      invariant chainId == Weighted(id, |bytes|) + FromBigEndian(bytes)
      invariant id == 0 ==> bytes != [] && bytes[0] != 0
    {
      FromBigEndianCons(LowByte(id), bytes);
      Shift(id, |bytes|);
      bytes := [LowByte(id)] + bytes;
      id := id / 256;
    }
  }

  // What v is worth in front of n more bytes.
  ghost function Weighted(v: nat, n: nat): (r: nat)
    ensures v == 0 ==> r == 0
  {
    v * Power256(n)
  }

  lemma {:induction false} FromBigEndianCons(b: byte, rest: seq<byte>)
    ensures FromBigEndian([b] + rest) == Weighted(b, |rest|) + FromBigEndian(rest)
  {
    if rest != [] {
      var front := rest[..|rest| - 1];
      assert ([b] + rest)[..|rest|] == [b] + front;
      FromBigEndianCons(b, front);
      Scale(b, Power256(|front|));
    }
  }

  lemma Scale(b: nat, p: nat)
    ensures 256 * (b * p) == b * (256 * p)
  {
  }

  lemma Shift(id: nat, n: nat)
    ensures Weighted(id, n) == Weighted(id / 256, n + 1) + Weighted(id % 256, n)
  {
    Distribute(id / 256, id % 256, Power256(n));
  }

  lemma Distribute(q: nat, r: nat, p: nat)
    ensures (256 * q + r) * p == q * (256 * p) + r * p
  {
    assert 256 * q * p == q * (256 * p);
  }

  // A reference of more than eight bytes loses its upper ones: the shift is on 64 bits.
  ghost function ChainId(a: InteropAddress): Result<u64, InteropError> {
    if a.chainType != EIP155 then Err(UnsupportedChainType(a.chainType))
    else Ok(FromBigEndian(a.chainReference) % TWO_64)
  }

  method EthereumChainId(a: InteropAddress) returns (r: Result<u64, InteropError>)
    ensures r == ChainId(a)
  {
    if a.chainType != EIP155 {
      return Err(UnsupportedChainType(a.chainType));
    }
    var chainId: u64 := 0;
    for i := 0 to |a.chainReference|
      invariant chainId == FromBigEndian(a.chainReference[..i]) % TWO_64
    {
      assert a.chainReference[..i + 1][..i] == a.chainReference[..i];
      ShiftIn(FromBigEndian(a.chainReference[..i]), a.chainReference[i]);
      chainId := chainId * 256 % TWO_64 + a.chainReference[i];
    }
    assert a.chainReference[..|a.chainReference|] == a.chainReference;
    r := Ok(chainId);
  }

  lemma ShiftIn(v: nat, b: byte)
    ensures (v % TWO_64) * 256 % TWO_64 + b == (v * 256 + b) % TWO_64
  {
    var q, r := v / TWO_64, v % TWO_64;
    var high, low := r / (TWO_64 / 256), r % (TWO_64 / 256);
    assert r * 256 == high * TWO_64 + low * 256;
    assert v * 256 + b == (q * 256 + high) * TWO_64 + (low * 256 + b);
    Remainder(high, low * 256);
    Remainder(q * 256 + high, low * 256 + b);
  }

  lemma Remainder(q: nat, r: nat)
    requires r < TWO_64
    ensures (q * TWO_64 + r) % TWO_64 == r
  {
  }

  // ----- what ties them together -----

  // A minimal form is the shortest one, and the only one of its length or less.
  lemma MinimalIsShortest(b: seq<byte>, other: seq<byte>, id: nat)
    requires Minimal(b, id) && other != [] && FromBigEndian(other) == id
    ensures |b| <= |other|
    ensures |other| == |b| ==> other == b
  {
    BigEndianInverse(other);
    BigEndianInverse(b);
    if |b| > 1 {
      LeadingByte(b);
      if |other| < |b| {
        Power256Grows(|other|, |b| - 1);
      }
    }
  }

  lemma LeadingByte(b: seq<byte>)
    requires b != [] && b[0] != 0
    ensures FromBigEndian(b) >= Power256(|b| - 1)
  {
    assert b == [b[0]] + b[1..];
    FromBigEndianCons(b[0], b[1..]);
    AtLeastOnce(b[0], Power256(|b| - 1));
  }

  lemma AtLeastOnce(a: nat, p: nat)
    requires a >= 1
    ensures a * p >= p
  {
  }

  lemma {:induction false} Power256Grows(m: nat, n: nat)
    requires m <= n
    ensures Power256(m) <= Power256(n)
  {
    if m < n {
      Power256Grows(m, n - 1);
    }
  }

  // The reference of any 64-bit id has at most eight bytes and is read back as that id.
  lemma ChainIdRoundTrip(a: InteropAddress, id: u64)
    requires a.chainType == EIP155 && Minimal(a.chainReference, id)
    ensures ChainId(a) == Ok(id) && |a.chainReference| <= 8
  {
    Widths();
    BigEndianRoundTrip(id, 8);
    MinimalIsShortest(a.chainReference, BigEndian(id, 8), id);
  }

  // An Ethereum address survives the whole trip through bytes.
  lemma EthereumRoundTrip(a: InteropAddress, id: u64, address: Address)
    requires a == InteropAddress(CURRENT_VERSION, EIP155, a.chainReference, address)
    requires Minimal(a.chainReference, id)
    ensures FromBytes(Encoded(a)) == Ok(a) && ChainId(FromBytes(Encoded(a)).value) == Ok(id)
    ensures |Encoded(a)| <= 33
  {
    ChainIdRoundTrip(a, id);
    RoundTripIff(a);
  }
}
