/** The byte layout of a fill description: what a message about a fill is hashed from. */
module FillDescription {
  import opened Wrappers
  import opened Words
  import opened Bytes

  const U16_MAX: nat := 65535

  type Bytes32 = b: seq<byte> | |b| == 32 witness seq(32, _ => 0)
  type u32 = n: nat | n < Power256(4)

  datatype SettlementError = ValidationFailed(reason: string)

  datatype Fill = Fill(solver: Bytes32, orderId: Bytes32, timestamp: u32, token: Bytes32, amount: u256,
                       recipient: Bytes32, call: seq<byte>, context: seq<byte>)

  // Both variable parts are preceded by a length of two bytes.
  predicate Fits(f: Fill) {
    |f.call| <= U16_MAX && |f.context| <= U16_MAX
  }

  // The fixed part of the layout, then the two parts with their lengths.
  ghost function Fixed(f: Fill): (r: seq<byte>)
    ensures |r| == 164
  {
    f.solver + f.orderId + BigEndian(f.timestamp, 4) + f.token + BigEndian(f.amount, 32) + f.recipient
  }

  ghost function Sized(part: seq<byte>): (r: seq<byte>)
    ensures |r| == 2 + |part|
  {
    BigEndian(|part|, 2) + part
  }

  ghost function Payload(f: Fill): (r: seq<byte>)
    ensures |r| == 168 + |f.call| + |f.context|
  {
    Fixed(f) + Sized(f.call) + Sized(f.context)
  }

  method EncodeFillDescription(f: Fill) returns (r: Result<seq<byte>, SettlementError>)
    ensures |f.call| <= 65535 && |f.context| <= 65535 ==> r == Ok(Payload(f))
    ensures |f.call| > 65535 ==> r == Err(ValidationFailed("Call data too large"))
    ensures |f.call| <= 65535 < |f.context| ==> r == Err(ValidationFailed("Context data too large"))
  {
    if |f.call| > U16_MAX {
      return Err(ValidationFailed("Call data too large"));
    }
    if |f.context| > U16_MAX {
      return Err(ValidationFailed("Context data too large"));
    }
    var payload: seq<byte> := [];
    payload := payload + f.solver;
    payload := payload + f.orderId;
    payload := payload + BigEndian(f.timestamp, 4);
    payload := payload + f.token;
    payload := payload + BigEndian(f.amount, 32);
    payload := payload + f.recipient;
    assert payload == Fixed(f);
    payload := payload + BigEndian(|f.call|, 2);
    payload := payload + f.call;
    assert payload == Fixed(f) + Sized(f.call);
    payload := payload + BigEndian(|f.context|, 2);
    payload := payload + f.context;
    assert payload == Payload(f);
    r := Ok(payload);
  }

  // ----- reading it back -----

  // The part that starts here, with its length in front, if the payload is long enough.
  function Part(payload: seq<byte>, at: nat): Option<seq<byte>> {
    if at + 2 > |payload| then None
    else
      var size := FromBigEndian(payload[at..at + 2]);
      if at + 2 + size > |payload| then None else Some(payload[at + 2..at + 2 + size])
  }

  function Decode(payload: seq<byte>): Option<Fill> {
    if |payload| < 164 || Part(payload, 164).None? then None
    else
      var call := Part(payload, 164).value;
      match Part(payload, 166 + |call|)
      case None => None
      case Some(context) =>
        if |payload| != 168 + |call| + |context| then None
        else
          Width256();
          Some(Fill(payload[..32], payload[32..64], Number(payload[64..68]), payload[68..100],
                    Number(payload[100..132]), payload[132..164], call, context))
  }

  function Number(b: seq<byte>): (r: nat)
    ensures r < Power256(|b|) && BigEndian(r, |b|) == b
  {
    BigEndianInverse(b);
    FromBigEndian(b)
  }

  lemma PartOfSized(before: seq<byte>, part: seq<byte>, after: seq<byte>)
    requires |part| <= U16_MAX
    ensures Part(before + Sized(part) + after, |before|) == Some(part)
  {
    var payload := before + Sized(part) + after;
    Widths();
    BigEndianRoundTrip(|part|, 2);
    var size := BigEndian(|part|, 2);
    assert payload == before + size + (part + after) && payload == (before + size) + part + after;
    Middle(before, size, part + after);
    Middle(before + size, part, after);
  }

  lemma Middle(a: seq<byte>, b: seq<byte>, c: seq<byte>)
    ensures (a + b + c)[|a|..|a| + |b|] == b
  {
  }

  lemma FixedFields(f: Fill, p: seq<byte>)
    requires |p| >= 164 && p[..164] == Fixed(f)
    ensures p[..32] == f.solver && p[32..64] == f.orderId && p[68..100] == f.token && p[132..164] == f.recipient
    ensures p[64..68] == BigEndian(f.timestamp, 4) && p[100..132] == BigEndian(f.amount, 32)
  {
    var q := p[..164];
    assert q[..32] == f.solver && q[32..64] == f.orderId && q[68..100] == f.token && q[132..164] == f.recipient;
    assert q[64..68] == BigEndian(f.timestamp, 4) && q[100..132] == BigEndian(f.amount, 32);
  }

  lemma NumbersRoundTrip(f: Fill)
    ensures FromBigEndian(BigEndian(f.timestamp, 4)) == f.timestamp
    ensures FromBigEndian(BigEndian(f.amount, 32)) == f.amount
  {
    Width256();
    BigEndianRoundTrip(f.timestamp, 4);
    BigEndianRoundTrip(f.amount, 32);
  }

  // Every field can be recovered from the payload.
  lemma DecodeInvertsEncode(f: Fill)
    requires Fits(f)
    ensures Decode(Payload(f)) == Some(f)
  {
    var p := Payload(f);
    assert p + [] == p;
    SameParts(f, []);
    assert p[..164] == Fixed(f);
    FixedFields(f, p);
    NumbersRoundTrip(f);
  }

  // So the payload, and with it the hash, identifies the fill.
  lemma DistinctFillsDiffer(f: Fill, g: Fill)
    requires Fits(f) && Fits(g) && f != g
    ensures Payload(f) != Payload(g)
  {
    DecodeInvertsEncode(f);
    DecodeInvertsEncode(g);
  }

  // No payload is a prefix of another one.
  lemma NoPayloadExtendsAnother(f: Fill, g: Fill)
    requires Fits(f) && Fits(g) && Payload(f) <= Payload(g)
    ensures f == g
  {
    var rest := Payload(g)[|Payload(f)|..];
    assert Payload(g) == Payload(f) + rest;
    SameParts(f, rest);
    DecodeInvertsEncode(g);
    assert |Payload(f)| == |Payload(g)|;
    assert Payload(f) == Payload(g);
    DecodeInvertsEncode(f);
  }

  lemma SameParts(f: Fill, rest: seq<byte>)
    requires Fits(f)
    ensures
      var p := Payload(f) + rest;
      Part(p, 164) == Some(f.call) && Part(p, 166 + |f.call|) == Some(f.context)
  {
    var p := Payload(f) + rest;
    assert p == Fixed(f) + Sized(f.call) + (Sized(f.context) + rest);
    PartOfSized(Fixed(f), f.call, Sized(f.context) + rest);
    assert p == (Fixed(f) + Sized(f.call)) + Sized(f.context) + rest;
    PartOfSized(Fixed(f) + Sized(f.call), f.context, rest);
  }

  // What decodes is a payload: the layout has no slack.
  lemma EncodeInvertsDecode(p: seq<byte>)
    requires Decode(p).Some?
    ensures Fits(Decode(p).value) && Payload(Decode(p).value) == p
  {
    var f := Decode(p).value;
    FixedOfDecoded(p);
    SizedOfPart(p, 164);
    SizedOfPart(p, 166 + |f.call|);
    assert p == p[..164] + p[164..166 + |f.call|] + p[166 + |f.call|..];
  }

  lemma FixedOfDecoded(p: seq<byte>)
    requires Decode(p).Some?
    ensures Fixed(Decode(p).value) == p[..164]
  {
    assert p[..164] == p[..32] + p[32..64] + p[64..68] + p[68..100] + p[100..132] + p[132..164];
  }

  lemma SizedOfPart(p: seq<byte>, at: nat)
    requires Part(p, at).Some?
    ensures |Part(p, at).value| <= U16_MAX
    ensures Sized(Part(p, at).value) == p[at..at + 2 + |Part(p, at).value|]
  {
    Widths();
    BigEndianInverse(p[at..at + 2]);
  }
}
