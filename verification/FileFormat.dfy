/** File names and the 64-byte header of the file store. */
module FileFormat {
  import opened Wrappers
  import opened Words
  import opened Bytes

  type Key = string

  const MAGIC: seq<byte> := [0x4F, 0x49, 0x46, 0x53]
  const VERSION: nat := 1
  const SIZE: nat := 64

  datatype StorageError = NotFound | Backend(reason: string) | Serialization(reason: string)

  // ----- file names -----

  function Safe(c: char): char {
    if c == '/' || c == ':' then '_' else c
  }

  function Sanitize(k: Key): (r: string)
    ensures |r| == |k| && forall i :: 0 <= i < |k| ==> r[i] == Safe(k[i])
  {
    seq(|k|, i requires 0 <= i < |k| => Safe(k[i]))
  }

  function FileName(k: Key): string {
    Sanitize(k) + ".bin"
  }

  // Path::extension sees nothing in a name that is ".bin" alone.
  predicate HasBinExtension(name: string) {
    |name| > 4 && name[|name| - 4..] == ".bin"
  }

  function Spread(s: string): (r: Key)
    ensures |r| == |s| && forall i :: 0 <= i < |s| ==> r[i] == if s[i] == '_' then ':' else s[i]
  {
    seq(|s|, i requires 0 <= i < |s| => if s[i] == '_' then ':' else s[i])
  }

  // The key that the cleanup guesses from a file name.
  function RecoveredKey(name: string): Key
    requires |name| >= 4
  {
    Spread(name[..|name| - 4])
  }

  // The keys whose name can be undone.
  predicate Clean(k: Key) {
    '_' !in k && '/' !in k
  }

  lemma FileNamesAgreeIff(a: Key, b: Key)
    ensures FileName(a) == FileName(b) <==> Sanitize(a) == Sanitize(b)
  {
    assert FileName(a)[..|FileName(a)| - 4] == Sanitize(a);
    assert FileName(b)[..|FileName(b)| - 4] == Sanitize(b);
  }

  // The cleanup guesses the key right exactly for clean keys; any guess leads back to the same file.
  lemma RecoveredIffClean(k: Key)
    ensures RecoveredKey(FileName(k)) == k <==> Clean(k)
    ensures Clean(RecoveredKey(FileName(k)))
    ensures FileName(RecoveredKey(FileName(k))) == FileName(k)
  {
    var r := RecoveredKey(FileName(k));
    assert FileName(k)[..|FileName(k)| - 4] == Sanitize(k);
    assert Sanitize(r) == Sanitize(k);
    forall i | 0 <= i < |k|
      ensures r[i] == k[i] <==> k[i] != '_' && k[i] != '/'
    {
    }
    if r != k {
      assert exists i :: 0 <= i < |k| && r[i] != k[i];
    }
  }

  lemma CleanKeysHaveTheirOwnFiles(a: Key, b: Key)
    requires Clean(a) && Clean(b) && FileName(a) == FileName(b)
    ensures a == b
  {
    RecoveredIffClean(a);
    RecoveredIffClean(b);
  }

  // ----- header -----

  datatype Header = Header(magic: seq<byte>, version: nat, expiresAt: u64, padding: seq<byte>) {
    predicate WellFormed() {
      |magic| == 4 && version < 0x1_0000 && |padding| == 50
    }

    predicate Expired(now: nat) {
      expiresAt != 0 && now >= expiresAt
    }

    ghost function Encoded(): (r: seq<byte>)
      requires WellFormed()
      ensures |r| == SIZE
    {
      magic + LittleEndian(version, 2) + LittleEndian(expiresAt, 8) + padding
    }

    // The header is assembled in a buffer of its size.
    method Serialize() returns (bytes: array<byte>)
      requires WellFormed()
      ensures fresh(bytes) && bytes[..] == Encoded()
    {
      bytes := new byte[SIZE](_ => 0);
      CopyInto(bytes, 0, magic);
      CopyInto(bytes, 4, LittleEndian(version, 2));
      CopyInto(bytes, 6, LittleEndian(expiresAt, 8));
      CopyInto(bytes, 14, padding);
      assert bytes[..] == bytes[..14] + bytes[14..];
    }
  }

  method CopyInto(buffer: array<byte>, at: nat, data: seq<byte>)
    requires at + |data| <= buffer.Length
    modifies buffer
    ensures buffer[..] == old(buffer[..at]) + data + old(buffer[at + |data|..])
  {
    for i := 0 to |data|
      invariant buffer[..at] == old(buffer[..at])
      invariant buffer[at..at + i] == data[..i]
      invariant buffer[at + i..] == old(buffer[at + i..])
    {
      buffer[at + i] := data[i];
    }
    assert buffer[..] == buffer[..at] + buffer[at..at + |data|] + buffer[at + |data|..];
  }

  // Anything that is not a header of this version or an older one is an error: a legacy file.
  function Deserialize(bytes: seq<byte>): Result<Header, StorageError> {
    if |bytes| < SIZE then Err(Backend("File too small for header"))
    else if bytes[..4] != MAGIC then Err(Backend("Legacy file format"))
    else
      var version := FromLittleEndian(bytes[4..6]);
      if version > VERSION then Err(Backend("Unsupported file version"))
      else
        LittleEndianInverse(bytes[6..14]);
        Widths();
        Ok(Header(bytes[..4], version, FromLittleEndian(bytes[6..14]), bytes[14..64]))
  }

  // The documented layout: "OIFS", version 1, the expiry and fifty zeros.
  lemma HeaderLayout(h: Header)
    requires h.WellFormed() && h.magic == MAGIC && h.version == VERSION
    ensures h.Encoded()[..4] == [0x4F, 0x49, 0x46, 0x53] && h.Encoded()[4..6] == [1, 0]
    ensures forall k :: 0 <= k < 8 ==> h.Encoded()[6 + k] == h.expiresAt / Power256(k) % 256
    ensures h.Encoded()[14..] == h.padding && |h.Encoded()| == 64
  {
    var e := h.Encoded();
    assert LittleEndian(1, 2) == [1] + LittleEndian(0, 1);
    assert e[4..6] == LittleEndian(h.version, 2) && e[6..14] == LittleEndian(h.expiresAt, 8);
    forall k | 0 <= k < 8
      ensures e[6 + k] == h.expiresAt / Power256(k) % 256
    {
      assert e[6 + k] == e[6..14][k];
      LittleEndianDigit(h.expiresAt, 8, k);
    }
  }

  // Reading back a written header gives the header, whatever data follows it.
  lemma HeaderRoundTrip(h: Header, data: seq<byte>)
    requires h.WellFormed() && h.magic == MAGIC && h.version <= VERSION
    ensures Deserialize(h.Encoded() + data) == Ok(h)
  {
    var bytes := h.Encoded() + data;
    Widths();
    LittleEndianRoundTrip(h.version, 2);
    LittleEndianRoundTrip(h.expiresAt, 8);
    assert bytes[..4] == h.magic;
    assert bytes[4..6] == LittleEndian(h.version, 2);
    assert bytes[6..14] == LittleEndian(h.expiresAt, 8);
    assert bytes[14..64] == h.padding;
  }

  // Every accepted header is the encoding of what was read from it.
  lemma HeaderReadsOnlyEncodings(bytes: seq<byte>)
    requires Deserialize(bytes).Ok?
    ensures Deserialize(bytes).value.WellFormed()
    ensures Deserialize(bytes).value.Encoded() == bytes[..SIZE]
  {
    LittleEndianInverse(bytes[4..6]);
    LittleEndianInverse(bytes[6..14]);
    assert bytes[..SIZE] == bytes[..4] + bytes[4..6] + bytes[6..14] + bytes[14..64];
  }
}
