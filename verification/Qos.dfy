/** The QOS encrypted envelope: nonce, ephemeral key, length and sealed message. */
module Qos {
  import opened Basics

  // The length is a 32-bit field. P-256, the key derivation and AES-GCM are opaque
  // functions.

  const AES_GCM_NONCE_LEN := 12
  const AES_GCM_TAG_LEN := 16
  const SEC1_UNCOMPRESSED_LEN := 65
  const ENVELOPE_HEADER_LEN := AES_GCM_NONCE_LEN + SEC1_UNCOMPRESSED_LEN + 4

  datatype Envelope = Envelope(nonce: Bytes, ephemeralPublic: Bytes, message: Bytes)

  // The layout.

  /** `setUint32` little-endian: a longer length wraps. */
  function U32Le(value: nat): (r: Bytes)
    ensures |r| == 4
  {
    [value % 256, value / 256 % 256, value / 0x1_0000 % 256, value / 0x100_0000 % 256]
  }

  function ReadU32Le(b: Bytes): nat
    requires |b| == 4
  {
    (b[0] as int) + 256 * (b[1] as int) + 0x1_0000 * (b[2] as int) + 0x100_0000 * (b[3] as int)
  }

  lemma U32LeReadsBack(value: nat)
    ensures ReadU32Le(U32Le(value)) == value % 0x1_0000_0000
  {
    Halves(value);
    Halves(value / 0x1_0000);
    assert value / 0x1_0000 / 256 == value / 0x100_0000;
    Wrap(value, value % 0x1_0000, value / 0x1_0000);
  }

  /** Two bytes at a time. */
  lemma Halves(n: nat)
    ensures n % 256 + 256 * (n / 256 % 256) == n % 0x1_0000
  {
    assert n / 256 / 256 == n / 0x1_0000;
  }

  lemma Wrap(n: nat, low: nat, high: nat)
    requires n == low + 0x1_0000 * high && low < 0x1_0000
    ensures n % 0x1_0000_0000 == low + 0x1_0000 * (high % 0x1_0000)
  {
  }

  lemma ReadU32LeBelow(b: Bytes)
    requires |b| == 4
    ensures ReadU32Le(b) < 0x1_0000_0000 && U32Le(ReadU32Le(b)) == b
  {
    var high: nat := (b[2] as int) + 256 * (b[3] as int);
    var low: nat := (b[0] as int) + 256 * (b[1] as int);
    var n := ReadU32Le(b);
    assert n == low + 0x1_0000 * high;
    assert n % 256 == b[0] && n / 256 == b[1] + 256 * high;
    assert n / 256 % 256 == b[1];
    assert n / 0x1_0000 == high && high % 256 == b[2] && high / 256 == b[3];
    assert n / 0x100_0000 == high / 256;
  }

  predicate Sized(e: Envelope) {
    |e.nonce| == AES_GCM_NONCE_LEN && |e.ephemeralPublic| == SEC1_UNCOMPRESSED_LEN
  }

  function Layout(e: Envelope): Bytes {
    e.nonce + e.ephemeralPublic + U32Le(|e.message|) + e.message
  }

  function EncodeQosEnvelope(e: Envelope): Option<Bytes> {
    if Sized(e) then Some(Layout(e)) else None
  }

  function DecodeQosEnvelope(bytes: Bytes): Option<Envelope> {
    if |bytes| < ENVELOPE_HEADER_LEN then None
    else
      var length := ReadU32Le(bytes[ENVELOPE_HEADER_LEN - 4..ENVELOPE_HEADER_LEN]);
      var message := bytes[ENVELOPE_HEADER_LEN..];
      if |message| != length || |message| < AES_GCM_TAG_LEN then None
      else Some(Envelope(bytes[..AES_GCM_NONCE_LEN], bytes[AES_GCM_NONCE_LEN..ENVELOPE_HEADER_LEN - 4], message))
  }

  lemma LayoutParts(e: Envelope)
    requires Sized(e)
    ensures var b := Layout(e);
            && |b| == ENVELOPE_HEADER_LEN + |e.message|
            && b[..AES_GCM_NONCE_LEN] == e.nonce
            && b[AES_GCM_NONCE_LEN..ENVELOPE_HEADER_LEN - 4] == e.ephemeralPublic
            && b[ENVELOPE_HEADER_LEN - 4..ENVELOPE_HEADER_LEN] == U32Le(|e.message|)
            && b[ENVELOPE_HEADER_LEN..] == e.message
  {
  }

  /** An envelope decodes to its parts exactly when its message holds a tag and its length fits 32 bits. */
  lemma DecodeInvertsEncodeExactly(e: Envelope)
    requires Sized(e)
    ensures DecodeQosEnvelope(Layout(e)) == Some(e) <==> AES_GCM_TAG_LEN <= |e.message| < 0x1_0000_0000
    ensures DecodeQosEnvelope(Layout(e)) in {Some(e), None}
  {
    LayoutParts(e);
    U32LeReadsBack(|e.message|);
  }

  /** What decodes is the one encoding of its parts. */
  lemma OnlyEncodingsDecode(bytes: Bytes)
    requires DecodeQosEnvelope(bytes).Some?
    ensures EncodeQosEnvelope(DecodeQosEnvelope(bytes).value) == Some(bytes)
  {
    ReadU32LeBelow(bytes[ENVELOPE_HEADER_LEN - 4..ENVELOPE_HEADER_LEN]);
    assert bytes == bytes[..AES_GCM_NONCE_LEN] + bytes[AES_GCM_NONCE_LEN..ENVELOPE_HEADER_LEN - 4]
      + bytes[ENVELOPE_HEADER_LEN - 4..ENVELOPE_HEADER_LEN] + bytes[ENVELOPE_HEADER_LEN..];
  }

  // The same, written at offsets.

  /** `out.set(part, at)`. */
  method Set(out: array<Byte>, at: nat, part: Bytes)
    requires at + |part| <= out.Length
    modifies out
    ensures out[at..at + |part|] == part
    ensures out[..at] == old(out[..at]) && out[at + |part|..] == old(out[at + |part|..])
  {
    for i := 0 to |part|
      invariant out[at..at + i] == part[..i]
      invariant out[..at] == old(out[..at]) && out[at + i..] == old(out[at + i..])
    {
      out[at + i] := part[i];
      assert out[at..at + (i + 1)] == out[at..at + i] + [part[i]];
      assert part[..i + 1] == part[..i] + [part[i]];
      assert out[at + (i + 1)..] == out[at + i..][1..];
    }
    assert part[..|part|] == part;
  }

  method EncodeEnvelope(nonce: Bytes, ephemeralPublic: Bytes, message: Bytes) returns (r: Option<Bytes>)
    ensures r == EncodeQosEnvelope(Envelope(nonce, ephemeralPublic, message))
  {
    if |nonce| != AES_GCM_NONCE_LEN || |ephemeralPublic| != SEC1_UNCOMPRESSED_LEN {
      return None;
    }
    var out := new Byte[ENVELOPE_HEADER_LEN + |message|](_ => 0);
    Set(out, 0, nonce);
    assert out[..12] == nonce;
    Set(out, AES_GCM_NONCE_LEN, ephemeralPublic);
    assert out[..12] == nonce;
    ghost var two := out[..77];
    assert two == nonce + ephemeralPublic;
    Set(out, AES_GCM_NONCE_LEN + SEC1_UNCOMPRESSED_LEN, U32Le(|message|));
    assert out[..77] == two;
    ghost var three := out[..81];
    assert three == two + U32Le(|message|);
    Set(out, ENVELOPE_HEADER_LEN, message);
    assert out[..81] == three;
    assert out[..] == out[..81] + out[81..];
    assert out[81..] == message;
    r := Some(out[..]);
  }

  // What is authenticated beside the message.

  /** Both keys, each with its length in one byte. */
  function Aad(ephemeralPublic: Bytes, receiverPublic: Bytes): Bytes {
    ephemeralPublic + [|ephemeralPublic| % 256] + receiverPublic + [|receiverPublic| % 256]
  }

  /** The associated data names both keys. */
  lemma AadNamesBothKeys(e: Bytes, r: Bytes, e': Bytes, r': Bytes)
    requires |r| < 256 && |r'| < 256
    ensures Aad(e, r) == Aad(e', r') <==> e == e' && r == r'
  {
    if Aad(e, r) == Aad(e', r') {
      var b := Aad(e, r);
      assert b[|b| - 1] == |r| && b[|b| - 1] == |r'|;
      assert |e| == |e'|;
      assert b[..|e|] == e && b[..|e|] == e';
      assert b[|e| + 1..|b| - 1] == r && b[|e| + 1..|b| - 1] == r';
    }
  }

  method EncodeAad(ephemeralPublic: Bytes, receiverPublic: Bytes) returns (r: Bytes)
    ensures r == Aad(ephemeralPublic, receiverPublic)
  {
    var n, m := |ephemeralPublic|, |receiverPublic|;
    var out := new Byte[n + m + 2](_ => 0);
    Set(out, 0, ephemeralPublic);
    out[n] := n % 256;
    assert out[..n] == ephemeralPublic;
    ghost var first := out[..n + 1];
    assert first == ephemeralPublic + [n % 256];
    Set(out, n + 1, receiverPublic);
    assert out[..n + 1] == first;
    out[n + m + 1] := m % 256;
    assert out[..n + 1] == first;
    assert out[n + 1..n + 1 + m] == receiverPublic;
    assert out[..] == out[..n + 1] + out[n + 1..n + 1 + m] + [out[n + m + 1]];
    r := out[..];
  }

  // Encryption.

  /** P-256, the key derivation and AES-GCM, as functions. */
  datatype Crypto = Crypto(
    publicOf: Bytes -> Bytes,
    parses: Bytes -> bool,
    shared: (Bytes, Bytes) -> Bytes,
    key: Bytes -> Bytes,
    seal: (Bytes, Bytes, Bytes, Bytes) -> Bytes,
    open: (Bytes, Bytes, Bytes, Bytes) -> Option<Bytes>)

  /** What is assumed of them. */
  ghost predicate Sound(c: Crypto) {
    && (forall s :: |c.publicOf(s)| == SEC1_UNCOMPRESSED_LEN && c.parses(c.publicOf(s)))
    && (forall s, t :: c.shared(s, c.publicOf(t)) == c.shared(t, c.publicOf(s)))
    && (forall k, n, a, p :: |c.seal(k, n, a, p)| == |p| + AES_GCM_TAG_LEN)
    && (forall k, n, a, p :: c.open(k, n, a, c.seal(k, n, a, p)) == Some(p))
  }

  function CipherKey(c: Crypto, ephemeralPublic: Bytes, receiverPublic: Bytes, shared: Bytes): Bytes {
    c.key(ephemeralPublic + receiverPublic + shared)
  }

  function QosEncryptWith(c: Crypto, receiver: Bytes, plaintext: Bytes, ephemeralSecret: Bytes, nonce: Bytes): Option<Bytes> {
    if |nonce| != AES_GCM_NONCE_LEN || !c.parses(receiver) then None
    else
      var ephemeralPublic := c.publicOf(ephemeralSecret);
      var key := CipherKey(c, ephemeralPublic, receiver, c.shared(ephemeralSecret, receiver));
      EncodeQosEnvelope(Envelope(nonce, ephemeralPublic, c.seal(key, nonce, Aad(ephemeralPublic, receiver), plaintext)))
  }

  function QosDecrypt(c: Crypto, receiverSecret: Bytes, bytes: Bytes): Option<Bytes> {
    var e := DecodeQosEnvelope(bytes);
    if e.None? || !c.parses(e.value.ephemeralPublic) then None
    else
      var receiver := c.publicOf(receiverSecret);
      var key := CipherKey(c, e.value.ephemeralPublic, receiver, c.shared(receiverSecret, e.value.ephemeralPublic));
      c.open(key, e.value.nonce, Aad(e.value.ephemeralPublic, receiver), e.value.message)
  }

  /** The receiver reads what was encrypted for it, exactly up to the length its 32-bit field can tell. */
  lemma DecryptInvertsEncryptExactly(c: Crypto, receiverSecret: Bytes, plaintext: Bytes, ephemeralSecret: Bytes, nonce: Bytes)
    requires Sound(c) && |nonce| == AES_GCM_NONCE_LEN
    ensures var bytes := QosEncryptWith(c, c.publicOf(receiverSecret), plaintext, ephemeralSecret, nonce);
            && bytes.Some?
            && |bytes.value| == ENVELOPE_HEADER_LEN + |plaintext| + AES_GCM_TAG_LEN
            && (QosDecrypt(c, receiverSecret, bytes.value) == Some(plaintext)
                <==> |plaintext| + AES_GCM_TAG_LEN < 0x1_0000_0000)
  {
    var receiver, ephemeral := c.publicOf(receiverSecret), c.publicOf(ephemeralSecret);
    var key := CipherKey(c, ephemeral, receiver, c.shared(ephemeralSecret, receiver));
    var e := Envelope(nonce, ephemeral, c.seal(key, nonce, Aad(ephemeral, receiver), plaintext));
    assert c.shared(ephemeralSecret, receiver) == c.shared(receiverSecret, ephemeral);
    LayoutParts(e);
    DecodeInvertsEncodeExactly(e);
  }
}
