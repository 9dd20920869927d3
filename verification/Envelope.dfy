/** The envelope that carries an early-settlement reason behind the call data: magic, text in
    UTF-8, its length in four bytes, magic. */
module Envelope {
  import opened Wrappers
  import Text

  type byte = x: int | 0 <= x < 256

  /** What the envelope relies on: the 32 magic bytes, UTF-8 (section 3 of RFC 3629; a text with
      an unpaired surrogate has no encoding), and the text hash, written in hex. */
  datatype Codec = Codec(magic: seq<byte>, encode: Text.Units -> Option<seq<byte>>,
                         decode: seq<byte> -> Option<Text.Units>, hash: Text.Units -> string)

  /** Decoding undoes encoding and accepts nothing else. */
  ghost predicate Inverse(c: Codec, text: Text.Units, bytes: seq<byte>) {
    c.encode(text) == Some(bytes) <==> c.decode(bytes) == Some(text)
  }

  ghost predicate Lawful(c: Codec) {
    && |c.magic| == 32 && c.encode([]) == Some([])
    && forall text, bytes :: Inverse(c, text, bytes)
  }

  datatype Error = REASON_LENGTH

  function Normalize(c: Codec, value: Text.Units): Result<Text.Units, Error> {
    var text := Text.Trim(value);
    if text == [] || |text| > 1000 || c.encode(text).None? || |c.encode(text).value| > 4000 then Err(REASON_LENGTH)
    else Ok(text)
  }

  function BigEndian(n: nat): (bs: seq<byte>)
    requires n < 0x1_0000_0000
    ensures |bs| == 4
  {
    [n / 256 / 256 / 256, n / 256 / 256 % 256, n / 256 % 256, n % 256]
  }

  function FromBigEndian(bs: seq<byte>): nat {
    if bs == [] then 0 else FromBigEndian(bs[..|bs| - 1]) * 256 + bs[|bs| - 1]
  }

  lemma FromLast(bs: seq<byte>)
    requires bs != []
    ensures FromBigEndian(bs) / 256 == FromBigEndian(bs[..|bs| - 1]) && FromBigEndian(bs) % 256 == bs[|bs| - 1]
  {}

  lemma BigEndianRoundTrip(n: nat, bs: seq<byte>)
    requires n < 0x1_0000_0000 && |bs| == 4
    ensures FromBigEndian(bs) == n <==> bs == BigEndian(n)
  {
    assert bs[..3][..2] == bs[..2] && bs[..2][..1] == bs[..1] && bs[..1][..0] == [];
    FromLast(bs);
    FromLast(bs[..3]);
    FromLast(bs[..2]);
    FromLast(bs[..1]);
    if bs == BigEndian(n) {
      Digits(n, FromBigEndian(bs));
    }
  }

  /** The length is written with its most significant byte first. */
  lemma BigEndianValue(n: nat)
    requires n < 0x1_0000_0000
    ensures var b := BigEndian(n);
      n == (b[0] as int) * 0x100_0000 + (b[1] as int) * 0x1_0000 + (b[2] as int) * 0x100 + b[3] as int
  {
    var b := BigEndian(n);
    assert n == n / 256 * 256 + b[3] && n / 256 == n / 256 / 256 * 256 + b[2];
    assert n / 256 / 256 == (b[0] as int) * 256 + b[1] as int;
  }

  /** Two numbers with the same four digits to base 256 are equal. */
  lemma Digits(m: nat, n: nat)
    requires m % 256 == n % 256 && m / 256 % 256 == n / 256 % 256
    requires m / 256 / 256 % 256 == n / 256 / 256 % 256 && m / 256 / 256 / 256 == n / 256 / 256 / 256
    ensures m == n
  {}

  function Envelope(c: Codec, text: seq<byte>): seq<byte>
    requires |text| <= 4000
  {
    c.magic + text + BigEndian(|text|) + c.magic
  }

  function AppendReason(c: Codec, data: seq<byte>, reason: Text.Units): Result<seq<byte>, Error> {
    match Normalize(c, reason)
    case Err(e) => Err(e)
    case Ok(text) => Ok(data + Envelope(c, c.encode(text).value))
  }

  function LowerChar(ch: char): char {
    if 'A' <= ch <= 'Z' then (ch as int + 32) as char else ch
  }

  function Lower(s: string): string {
    seq(|s|, i requires 0 <= i < |s| => LowerChar(s[i]))
  }

  function DecodeReason(c: Codec, data: seq<byte>, reasonHash: string): Option<Text.Units> {
    var end := |data|;
    if end < 68 || data[end - 32..] != c.magic then None
    else
      var length := FromBigEndian(data[end - 36..end - 32]);
      if length < 1 || length > 4000 || end < 68 + length then None
      else
        var start := end - 36 - length;
        if data[start - 32..start] != c.magic then None
        else
          match c.decode(data[start..end - 36])
          case None => None
          case Some(text) =>
            if Normalize(c, text) != Ok(text) || Lower(c.hash(text)) != Lower(reasonHash) then None else Some(text)
  }

  // ---- what the envelope guarantees ----

  /** Normalizing twice is normalizing once. */
  lemma NormalizeTwice(c: Codec, value: Text.Units)
    ensures Normalize(c, value).Ok? ==> Normalize(c, Normalize(c, value).value) == Normalize(c, value)
  {
    hide Text.Trim;
    Text.TrimTwice(value);
  }

  /** A normalized text has 1 to 4000 bytes, which decode to it. */
  lemma NormalBytes(c: Codec, text: Text.Units)
    requires Lawful(c) && Normalize(c, text) == Ok(text)
    ensures c.encode(text).Some? && 1 <= |c.encode(text).value| <= 4000 && c.decode(c.encode(text).value) == Some(text)
  {
    hide Text.Trim;
    assert Inverse(c, text, c.encode(text).value);
    assert Inverse(c, [], []);
  }

  /** Where the parts of an envelope lie. */
  lemma Layout(c: Codec, prefix: seq<byte>, text: seq<byte>)
    requires |c.magic| == 32 && |text| <= 4000
    ensures var data, n := prefix + Envelope(c, text), |text|;
            && |data| == |prefix| + 68 + n
            && data[|data| - 32..] == c.magic
            && data[|data| - 36..|data| - 32] == BigEndian(n)
            && data[|data| - 36 - n..|data| - 36] == text
            && data[|data| - 68 - n..|data| - 36 - n] == c.magic
  {
    hide BigEndian;
    var k := |prefix|;
    var data := prefix + Envelope(c, text);
    assert data[k..] == Envelope(c, text);
  }

  /** `data` is `prefix` followed by the envelope of the normalized `text`. */
  predicate Carries(c: Codec, data: seq<byte>, prefix: seq<byte>, text: Text.Units, bytes: seq<byte>) {
    && Normalize(c, text) == Ok(text) && c.encode(text) == Some(bytes) && 1 <= |bytes| <= 4000
    && data == prefix + Envelope(c, bytes)
  }

  /** Exactly the data that ends in the envelope of a normalized text with the given hash decodes,
      and it decodes to that text, whatever the data in front and the text contain. */
  lemma DecodesExactly(c: Codec, data: seq<byte>, reasonHash: string, text: Text.Units)
    requires Lawful(c)
    ensures DecodeReason(c, data, reasonHash) == Some(text) <==>
      && Lower(c.hash(text)) == Lower(reasonHash)
      && exists prefix, bytes :: Carries(c, data, prefix, text, bytes)
  {
    hide Lower, Carries, DecodeReason;
    if DecodeReason(c, data, reasonHash) == Some(text) {
      DecodedIsEnvelope(c, data, reasonHash, text);
    }
    forall prefix, bytes | Lower(c.hash(text)) == Lower(reasonHash) && Carries(c, data, prefix, text, bytes)
      ensures DecodeReason(c, data, reasonHash) == Some(text)
    {
      EnvelopeDecodes(c, data, prefix, reasonHash, text, bytes);
    }
  }

  lemma EnvelopeDecodes(c: Codec, data: seq<byte>, prefix: seq<byte>, reasonHash: string, text: Text.Units,
      bytes: seq<byte>)
    requires Lawful(c) && Carries(c, data, prefix, text, bytes) && Lower(c.hash(text)) == Lower(reasonHash)
    ensures DecodeReason(c, data, reasonHash) == Some(text)
  {
    hide Envelope, Lower, Normalize, BigEndian, FromBigEndian;
    assert c.decode(bytes) == Some(text) by {
      assert Inverse(c, text, bytes);
    }
    Layout(c, prefix, bytes);
    var end := |data|;
    BigEndianRoundTrip(|bytes|, data[end - 36..end - 32]);
  }

  lemma DecodedIsEnvelope(c: Codec, data: seq<byte>, reasonHash: string, text: Text.Units)
    requires Lawful(c) && DecodeReason(c, data, reasonHash) == Some(text)
    ensures Lower(c.hash(text)) == Lower(reasonHash)
    ensures exists prefix, bytes :: Carries(c, data, prefix, text, bytes)
  {
    hide Lower, Normalize, BigEndian, FromBigEndian;
    var end := |data|;
    var size := data[end - 36..end - 32];
    var length := FromBigEndian(size);
    var start := end - 36 - length;
    var bytes := data[start..end - 36];
    assert Inverse(c, text, bytes);
    BigEndianRoundTrip(length, size);
    assert data == data[..start - 32] + data[start - 32..start] + bytes + size + data[end - 32..];
    assert data == data[..start - 32] + Envelope(c, bytes);
    assert Carries(c, data, data[..start - 32], text, bytes);
  }

  /** Round trip: every reason that can be appended is read back normalized, for every call data,
      given its hash in either letter case, and for no other hash. */
  lemma RoundTrip(c: Codec, data: seq<byte>, reason: Text.Units, reasonHash: string)
    requires Lawful(c)
    ensures AppendReason(c, data, reason).Ok? <==> Normalize(c, reason).Ok?
    ensures AppendReason(c, data, reason).Ok? ==>
      var text := Normalize(c, reason).value;
      DecodeReason(c, AppendReason(c, data, reason).value, reasonHash)
      == if Lower(c.hash(text)) == Lower(reasonHash) then Some(text) else None
  {
    hide Normalize, Envelope, Lower, BigEndian, FromBigEndian;
    if Normalize(c, reason).Ok? {
      var text := Normalize(c, reason).value;
      NormalizeTwice(c, reason);
      NormalBytes(c, text);
      var bytes := c.encode(text).value;
      Layout(c, data, bytes);
      BigEndianRoundTrip(|bytes|, BigEndian(|bytes|));
    }
  }

  /** Appending loses nothing: the result determines the call data and the normalized reason. */
  lemma AppendInjective(c: Codec, data1: seq<byte>, reason1: Text.Units, data2: seq<byte>, reason2: Text.Units)
    requires Lawful(c) && AppendReason(c, data1, reason1).Ok?
    requires AppendReason(c, data1, reason1) == AppendReason(c, data2, reason2)
    ensures data1 == data2 && Normalize(c, reason1) == Normalize(c, reason2)
  {
    hide Normalize, Envelope, Lower, DecodeReason;
    var text := Normalize(c, reason1).value;
    NormalizeTwice(c, reason1);
    NormalBytes(c, text);
    RoundTrip(c, data1, reason1, c.hash(text));
    RoundTrip(c, data2, reason2, c.hash(text));
    var all, envelope := AppendReason(c, data1, reason1).value, Envelope(c, c.encode(text).value);
    assert data1 == all[..|all| - |envelope|];
    assert data2 == all[..|all| - |envelope|];
  }

  /** A reason is accepted exactly when, without the white space at both ends, it has 1 to 1000 code
      units and a UTF-8 form of at most 4000 bytes; and that is its normal form. */
  lemma NormalExactly(c: Codec, value: Text.Units, text: Text.Units)
    ensures Normalize(c, value) == Ok(text) <==>
      && (exists i, j :: Text.TrimsAt(value, i, j) && text == value[i..j])
      && 1 <= |text| <= 1000 && c.encode(text).Some? && |c.encode(text).value| <= 4000
  {
    hide Text.Trim, Text.TrimsAt;
    Text.TrimExact(value, text);
  }

  /** Behind the call data stand the magic bytes, the text, the four bytes of its length, and the
      magic bytes again. */
  lemma AppendedParts(c: Codec, data: seq<byte>, reason: Text.Units)
    requires |c.magic| == 32 && AppendReason(c, data, reason).Ok?
    ensures Normalize(c, reason).Ok? && c.encode(Normalize(c, reason).value).Some?
    ensures var all, text := AppendReason(c, data, reason).value, c.encode(Normalize(c, reason).value).value;
      && |text| <= 4000 && |all| == |data| + 68 + |text| && all[..|data|] == data
      && all[|data|..|data| + 32] == c.magic && all[|data| + 32..|data| + 32 + |text|] == text
      && all[|all| - 36..|all| - 32] == BigEndian(|text|) && all[|all| - 32..] == c.magic
  {
    hide BigEndian, Text.Trim;
    var text := c.encode(Normalize(c, reason).value).value;
    Layout(c, data, text);
  }
}
