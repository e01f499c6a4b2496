/** Preparing and sealing one operation, whose size is checked before anybody signs. */
module Executor {
  import opened Basics
  import opened Unicode
  import opened Json
  import opened Jcs
  import opened Encodings
  import opened Digest
  import opened Requests
  import opened Qos
  import opened RequestSize

  // What is checked is the size of the request the enclave will receive.

  const RAW_P256_SIGNATURE_LEN := 64
  const GATEWAY_GRANT_BYTES := 1024
  const MAX_REQUEST_AGE_MS := 300_000
  const API_VERSION := 1
  const MAX_U64 := 0xFFFF_FFFF_FFFF_FFFF

  datatype Info = Info(
    network: Network, releaseId: Text, manifestDigest: Bytes, executableDigest: Bytes,
    quorumPublicKey: Bytes, quorumKeyId: Text, quorumKeyEpoch: nat,
    supportedOperations: seq<OperationKind>, maxEncryptedRequestBytes: nat)

  /** `grant`: what an enclave backend's `walletGrant` answers, if it has one. */
  datatype Backend = Gateway | Enclave(grant: Option<Json>)

  datatype Context = Context(
    info: Info, backend: Backend, descriptor: WalletDescriptor, clientKeyId: Text,
    nowMs: int, validFromMs: int, expiresAtMs: int)

  // Sizes.

  const ENVELOPE_NAMES := ["version", "quorum_key_id", "quorum_key_epoch", "ciphertext"]

  function EnvelopeMembers(info: Info, ciphertext: Text): seq<Member> {
    Fields(ENVELOPE_NAMES, EnvelopeValues(info, ciphertext))
  }

  function GrantMember(grant: Json): Member { Member(Name("wallet_grant"), grant) }

  /** `encryptedRequest`. */
  function EnvelopeJson(info: Info, ciphertext: Text, grant: Option<Json>): Json {
    Obj(EnvelopeMembers(info, ciphertext) + GrantMembers(grant))
  }

  function ForwardedRequestBytes(backend: Backend): nat {
    if backend.Gateway? then GATEWAY_GRANT_BYTES else 0
  }

  /** What the request carries beside the ciphertext. */
  function SentGrant(backend: Backend): Option<Json> {
    if backend.Gateway? then None else backend.grant
  }

  /** `enclaveRequestBytes`. */
  function EnclaveRequestBytes(info: Info, backend: Backend, ciphertext: Text): nat {
    Wire(Canonical(EnvelopeJson(info, ciphertext, SentGrant(backend)))) + ForwardedRequestBytes(backend)
  }

  function Zeros(n: nat): (r: Bytes)
    ensures |r| == n
  {
    seq(n, _ => 0)
  }

  /** The size the check before signing works with. */
  function PredictedBytes(info: Info, backend: Backend, r: OperationRequest): nat {
    var signedBytes := Wire(Canonical(RequestJson(r.(signature := Zeros(RAW_P256_SIGNATURE_LEN)))));
    var ciphertextBytes := signedBytes + AES_GCM_NONCE_LEN + SEC1_UNCOMPRESSED_LEN + 4 + AES_GCM_TAG_LEN;
    EnclaveRequestBytes(info, backend, []) + 2 * ciphertextBytes
  }

  lemma {:induction false} SizeOfAppended(a: seq<Member>, b: seq<Member>)
    ensures SizeMembers(a + b) == SizeMembers(a) + SizeMembers(b)
  {
    if a == [] {
      assert a + b == b;
    } else {
      assert (a + b)[1..] == a[1..] + b;
      SizeOfAppended(a[1..], b);
    }
  }

  lemma SizeOfLast(ms: seq<Member>)
    requires ms != []
    ensures SizeMembers(ms) == SizeMembers(ms[..|ms| - 1]) + SizeMember(ms[|ms| - 1]) + 1
  {
    var n := |ms| - 1;
    assert ms == ms[..n] + [ms[n]];
    SizeOfAppended(ms[..n], [ms[n]]);
  }

  /** Records that differ in their last value differ in size by that value. */
  lemma SizeOfLastField(names: seq<string>, vs: seq<Json>, ws: seq<Json>)
    requires |names| == |vs| == |ws| > 0 && vs[..|vs| - 1] == ws[..|ws| - 1]
    ensures SizeMembers(Fields(names, vs)) + Size(ws[|ws| - 1]) == SizeMembers(Fields(names, ws)) + Size(vs[|vs| - 1])
  {
    var n := |names| - 1;
    var a, b := Fields(names, vs), Fields(names, ws);
    SizeOfLast(a);
    SizeOfLast(b);
    forall i | 0 <= i < n ensures a[i] == b[i] { assert vs[..n][i] == ws[..n][i]; }
    assert a[..n] == b[..n];
  }

  /** A signature's width alone decides the signed request's size. */
  lemma SignatureSize(r: OperationRequest, s: Bytes, t: Bytes)
    requires |s| == |t|
    ensures Size(RequestJson(r.(signature := s))) == Size(RequestJson(r.(signature := t)))
  {
    var p, q := r.(signature := s), r.(signature := t);
    HexSize(s);
    HexSize(t);
    var a, b := [Str(r.clientKeyId), Hex(s)], [Str(r.clientKeyId), Hex(t)];
    assert a[..1] == b[..1];
    SizeOfLastField(AUTHORIZATION_NAMES, a, b);
    var v, w := Obj(Authorization(p)), Obj(Authorization(q));
    assert Size(v) == Size(w);
    var vs, ws := RequestValues(p, v), RequestValues(q, w);
    assert vs[..13] == ws[..13];
    SizeOfLastField(REQUEST_NAMES, vs, ws);
  }

  function EnvelopeValues(info: Info, ciphertext: Text): seq<Json> {
    [Num(API_VERSION), Str(info.quorumKeyId), DecimalU64(info.quorumKeyEpoch), Str(ciphertext)]
  }

  lemma EnvelopeValuesDifferLast(info: Info, t: Text)
    ensures EnvelopeValues(info, t)[..3] == EnvelopeValues(info, [])[..3]
  {
  }

  /** An envelope's members grow by what its ciphertext does. */
  lemma CiphertextSize(info: Info, t: Text)
    ensures SizeMembers(EnvelopeMembers(info, t)) + Size(Str([])) == SizeMembers(EnvelopeMembers(info, [])) + Size(Str(t))
  {
    EnvelopeValuesDifferLast(info, t);
    SizeOfLastField(ENVELOPE_NAMES, EnvelopeValues(info, t), EnvelopeValues(info, []));
  }

  lemma EnvelopeMembersSize(info: Info, ciphertext: Bytes)
    ensures SizeMembers(EnvelopeMembers(info, EncodeLowerHex(ciphertext)))
         == SizeMembers(EnvelopeMembers(info, [])) + 2 * |ciphertext|
  {
    HexSize(ciphertext);
    HexSize([]);
    CiphertextSize(info, EncodeLowerHex(ciphertext));
  }

  function GrantMembers(grant: Option<Json>): seq<Member> {
    if grant.Some? then [GrantMember(grant.value)] else []
  }

  lemma EnvelopeIsItsMembers(info: Info, ciphertext: Text, grant: Option<Json>)
    ensures Size(EnvelopeJson(info, ciphertext, grant))
         == 1 + SizeMembers(EnvelopeMembers(info, ciphertext)) + SizeMembers(GrantMembers(grant))
  {
    var ms := EnvelopeMembers(info, ciphertext);
    SizeOfAppended(ms, GrantMembers(grant));
    ObjSize(ms + GrantMembers(grant));
  }

  lemma ObjSize(ms: seq<Member>)
    requires ms != []
    ensures Size(Obj(ms)) == 1 + SizeMembers(ms)
  {
  }

  /** The envelope grows by the ciphertext's hex, whatever grant it carries. */
  lemma EnvelopeSize(info: Info, ciphertext: Bytes, grant: Option<Json>)
    ensures Size(EnvelopeJson(info, EncodeLowerHex(ciphertext), grant))
         == Size(EnvelopeJson(info, [], grant)) + 2 * |ciphertext|
  {
    EnvelopeMembersSize(info, ciphertext);
    EnvelopeIsItsMembers(info, EncodeLowerHex(ciphertext), grant);
    EnvelopeIsItsMembers(info, [], grant);
  }

  /** The bytes encrypted: the signed request's canonical text. */
  function Plaintext(r: OperationRequest): Bytes { TextEncode(Canonical(RequestJson(r))) }

  /** For every request, signature, key, nonce and backend, the size predicted is the size sent. */
  lemma PredictionIsExact(
    c: Crypto, info: Info, backend: Backend, r: OperationRequest, signature: Bytes, ephemeralSecret: Bytes, nonce: Bytes)
    requires Sound(c) && |signature| == RAW_P256_SIGNATURE_LEN && |nonce| == AES_GCM_NONCE_LEN
    requires c.parses(info.quorumPublicKey)
    ensures var sealed := QosEncryptWith(
              c, info.quorumPublicKey, Plaintext(r.(signature := signature)), ephemeralSecret, nonce);
            && sealed.Some?
            && EnclaveRequestBytes(info, backend, EncodeLowerHex(sealed.value)) == PredictedBytes(info, backend, r)
  {
    var signed := r.(signature := signature);
    var receiver, ephemeral := info.quorumPublicKey, c.publicOf(ephemeralSecret);
    var key := CipherKey(c, ephemeral, receiver, c.shared(ephemeralSecret, receiver));
    var e := Envelope(nonce, ephemeral, c.seal(key, nonce, Aad(ephemeral, receiver), Plaintext(signed)));
    LayoutParts(e);
    var zeroed := r.(signature := Zeros(RAW_P256_SIGNATURE_LEN));
    CanonicalSize(RequestJson(signed));
    CanonicalSize(RequestJson(zeroed));
    SignatureSize(r, signature, Zeros(RAW_P256_SIGNATURE_LEN));
    EnvelopeSize(info, Layout(e), SentGrant(backend));
    CanonicalSize(EnvelopeJson(info, EncodeLowerHex(Layout(e)), SentGrant(backend)));
    CanonicalSize(EnvelopeJson(info, [], SentGrant(backend)));
  }

  // A gateway's grant fits the room left for it.

  /** Text written as it is: printable ASCII but quotes and backslashes. */
  predicate Verbatim(s: Text) {
    forall i :: 0 <= i < |s| ==> 32 <= s[i] < 127 && s[i] != QUOTE && s[i] != BACKSLASH
  }

  lemma {:induction false} VerbatimTail(s: Text)
    requires Verbatim(s)
    ensures StringTail(s) == s + [QUOTE]
  {
    if s != [] {
      VerbatimTail(s[1..]);
      assert s == [s[0]] + s[1..];
    }
  }

  lemma VerbatimSize(s: Text)
    requires Verbatim(s)
    ensures Wire(Quote(s)) == |s| + 2
  {
    VerbatimTail(s);
    AsciiWire(Quote(s));
  }

  lemma {:induction false} DigitsCount(n: nat, bound: nat, width: nat)
    requires n < bound && bound == Power10(width) && width > 0
    ensures |Digits(n)| <= width
  {
    if n >= 10 { DigitsCount(n / 10, Power10(width - 1), width - 1); }
  }

  function Power10(width: nat): nat { if width == 0 then 1 else 10 * Power10(width - 1) }

  function GrantJson(g: WalletGrant): Json { Record(GRANT_NAMES, GrantValues(g)) }

  function Field(name: string, v: Json): nat { SizeMember(Member(Name(name), v)) + 1 }

  /** Fields of at most 143 bytes each. */
  lemma {:induction false} NarrowFields(names: seq<string>, values: seq<Json>)
    requires |names| == |values|
    requires forall i :: 0 <= i < |names| ==> Field(names[i], values[i]) <= 143
    ensures SizeMembers(Fields(names, values)) <= 143 * |names|
  {
    if names != [] {
      NarrowFields(names[1..], values[1..]);
      assert Fields(names, values)[1..] == Fields(names[1..], values[1..]);
    }
  }

  /** A grant as the gateway issues it, for a project id of at most 64 plain characters. */
  predicate Issued(g: WalletGrant) {
    && g.version < 1000 && |g.descriptorDigest| == 32 && |g.signature| == 64
    && Verbatim(g.clientKeyId) && |g.clientKeyId| == 48
    && Verbatim(g.projectId) && |g.projectId| <= 64
    && g.issuedAtMs <= MAX_U64 && g.expiresAtMs <= MAX_U64
  }

  lemma DecimalU64Size(n: nat)
    requires n <= MAX_U64
    ensures Size(DecimalU64(n)) <= 22
  {
    assert Power10(5) == 100_000 by { assert Power10(3) == 1000; }
    assert Power10(20) == 1_0000_0000_0000_0000_0000 by {
      assert Power10(10) == 100_0000_0000 by { assert Power10(8) == 1_0000_0000; }
      assert Power10(15) == 1000_0000_0000_0000;
    }
    DigitsCount(n, Power10(20), 20);
    VerbatimSize(Digits(n));
  }

  /** Letters and underscores. */
  predicate IsName(s: string) { forall i :: 0 <= i < |s| ==> 'a' <= s[i] <= 'z' || s[i] == '_' }

  lemma FieldSize(name: string, v: Json)
    requires IsName(name)
    ensures Field(name, v) == |name| + 4 + Size(v)
  {
    VerbatimSize(Name(name));
  }

  lemma GrantFields(g: WalletGrant, i: nat)
    requires Issued(g) && i < 7
    ensures Field(GRANT_NAMES[i], GrantValues(g)[i]) <= 143
  {
    FieldSize(GRANT_NAMES[i], GrantValues(g)[i]);
    GrantValueSize(g, i);
  }

  lemma GrantValueSize(g: WalletGrant, i: nat)
    requires Issued(g) && i < 7
    ensures |GRANT_NAMES[i]| + Size(GrantValues(g)[i]) <= 139
  {
    match i
    case 0 => DigitsCount(g.version, Power10(3), 3);
    case 1 => HexSize(g.descriptorDigest);
    case 2 => VerbatimSize(g.clientKeyId);
    case 3 => VerbatimSize(g.projectId);
    case 4 => DecimalU64Size(g.issuedAtMs);
    case 5 => DecimalU64Size(g.expiresAtMs);
    case _ => HexSize(g.signature);
  }

  lemma GrantSize(g: WalletGrant)
    requires Issued(g)
    ensures SizeMembers([GrantMember(GrantJson(g))]) <= GATEWAY_GRANT_BYTES
  {
    forall i | 0 <= i < 7 ensures Field(GRANT_NAMES[i], GrantValues(g)[i]) <= 143 { GrantFields(g, i); }
    NarrowFields(GRANT_NAMES, GrantValues(g));
    FieldSize("wallet_grant", GrantJson(g));
    assert Size(GrantJson(g)) <= 1 + 1001;
  }

  /** What a gateway adds is within what the client allowed for it, so a request that passed arrives within the limit. */
  lemma GatewayGrantFits(info: Info, ciphertext: Text, g: WalletGrant)
    requires Issued(g)
    ensures Wire(Canonical(EnvelopeJson(info, ciphertext, Some(GrantJson(g)))))
         <= EnclaveRequestBytes(info, Gateway, ciphertext)
  {
    GrantSize(g);
    CanonicalSize(EnvelopeJson(info, ciphertext, Some(GrantJson(g))));
    CanonicalSize(EnvelopeJson(info, ciphertext, None));
    EnvelopeIsItsMembers(info, ciphertext, Some(GrantJson(g)));
    EnvelopeIsItsMembers(info, ciphertext, None);
  }

  // The steps.

  datatype Failure =
    | OperationNotAllowed | NetworkMismatch | WalletGrantRequired | ExpiredRequest
    | InvalidDecimal | InvalidCanonicalJson | RequestTooLarge | NotSigned | InvalidSignature
    | InvalidPublicKey | InvalidHex | Cancelled

  datatype Outcome<T> = Ok(value: T) | Err(failure: Failure)

  /** What only the client draws or is told: randomness, its key's public half, the signer. */
  datatype Draws = Draws(requestId: Bytes, responsePublic: Bytes, ephemeralSecret: Bytes, nonce: Bytes)

  /** Hashes, key ids and signatures, as functions. */
  datatype Keys = Keys(hash: Bytes -> Bytes, idOf: Bytes -> Text, verifies: (Bytes, Bytes, Bytes) -> bool)

  /** The first listed grant of the signing key, if it allows the operation. */
  function MatchingGrant(clients: seq<ClientGrant>, keyId: Text, kind: OperationKind, idOf: Bytes -> Text): Option<ClientGrant> {
    if clients == [] then None
    else if idOf(clients[0].clientPublicKey) == keyId then
      if kind in clients[0].allowedOperations then Some(clients[0]) else None
    else MatchingGrant(clients[1..], keyId, kind, idOf)
  }

  /** The request before it is signed. */
  function Unsigned(c: Context, op: Operation, sealedSeed: Option<Bytes>, d: Draws): OperationRequest
    requires c.nowMs >= 0
  {
    OperationRequest(
      API_VERSION, d.requestId, c.nowMs, c.nowMs + MAX_REQUEST_AGE_MS, c.info.releaseId,
      c.info.manifestDigest, c.info.executableDigest, c.info.quorumKeyId, c.info.quorumKeyEpoch,
      c.descriptor, sealedSeed, d.responsePublic, op, c.clientKeyId, [])
  }

  /** When the caller's signal aborts, if it does: before the call, the grant, the signature or the sealing. */
  datatype Abort = Never | BeforeStart | BeforeGrant | BeforeSigned | BeforeSealed

  /** The refusals before any secret is drawn. A gateway backend awaits no grant. */
  function Refusal(c: Context, op: Operation, keys: Keys, abort: Abort): Option<Failure> {
    var kind := OperationKindOf(op);
    if abort.BeforeStart? then Some(Cancelled)
    else if kind !in c.info.supportedOperations then Some(OperationNotAllowed)
    else if c.descriptor.network != c.info.network then Some(NetworkMismatch)
    else if MatchingGrant(c.descriptor.allowedClients, c.clientKeyId, kind, keys.idOf).None? then Some(OperationNotAllowed)
    else if c.backend.Enclave? && c.backend.grant.None? then Some(WalletGrantRequired)
    else if c.backend.Enclave? && abort.BeforeGrant? then Some(Cancelled)
    else if c.nowMs < c.validFromMs || c.nowMs > c.expiresAtMs then Some(ExpiredRequest)
    else None
  }

  /** `sealedSeedFields`: no seed, or one that is lowercase hex. */
  predicate SeedReads(seed: Option<Text>) { seed.None? || DecodeLowerHex(seed.value).Some? }

  function Seed(seed: Option<Text>): Option<Bytes> { if seed.None? then None else DecodeLowerHex(seed.value) }

  /** A signal that aborts before the signature is in is seen when it is awaited. */
  predicate AbortsSigning(abort: Abort) { abort.BeforeGrant? || abort.BeforeSigned? }

  predicate Times(nowMs: int) { 0 <= nowMs && nowMs + MAX_REQUEST_AGE_MS <= MAX_U64 }

  predicate Printable(c: Context, op: Operation, sealedSeed: Option<Bytes>, d: Draws)
    requires c.nowMs >= 0
  {
    && FloatFree(RequestJson(Unsigned(c, op, sealedSeed, d)))
    && FloatFree(EnvelopeJson(c.info, [], SentGrant(c.backend)))
  }

  predicate Fits(c: Context, op: Operation, sealedSeed: Option<Bytes>, d: Draws)
    requires c.nowMs >= 0
  {
    PredictedBytes(c.info, c.backend, Unsigned(c, op, sealedSeed, d)) <= c.info.maxEncryptedRequestBytes
  }

  ghost predicate Wiped(secret: array<Byte>)
    reads secret
  {
    forall i :: 0 <= i < secret.Length ==> secret[i] == 0
  }

  method Wipe(secret: array<Byte>)
    modifies secret
    ensures Wiped(secret)
  {
    for i := 0 to secret.Length
      invariant forall j :: 0 <= j < i ==> secret[j] == 0
    {
      secret[i] := 0;
    }
  }

  /** The key and digest a signature is checked against. */
  predicate Authorized(r: OperationRequest, key: Bytes, keys: Keys, signature: Bytes) {
    && |signature| == RAW_P256_SIGNATURE_LEN
    && RequestDigest(keys.hash, r).Some?
    && keys.verifies(key, ClientAuthDigest(keys.hash, RequestDigest(keys.hash, r).value), signature)
  }

  /** The `try` up to the signer: the request, checked to fit once signed. */
  function BuildRequest(c: Context, op: Operation, seed: Option<Text>, d: Draws): (r: Outcome<OperationRequest>)
    ensures r.Ok? ==> PredictedBytes(c.info, c.backend, r.value) <= c.info.maxEncryptedRequestBytes
    ensures r.Ok? ==> r.value.sealedSeed.Some? == seed.Some? && r.value.signature == []
    ensures r.Ok? && seed.Some? ==> EncodeLowerHex(r.value.sealedSeed.value) == seed.value
  {
    if !Times(c.nowMs) then Err(InvalidDecimal)
    else if !SeedReads(seed) then Err(InvalidHex)
    else if !Printable(c, op, Seed(seed), d) then Err(InvalidCanonicalJson)
    else if !Fits(c, op, Seed(seed), d) then Err(RequestTooLarge)
    else Ok(Unsigned(c, op, Seed(seed), d))
  }

  /** The rest of the `try`: what the signer answers, if nothing aborts the wait, checked against the grant's key. */
  function AskSigner(unsigned: OperationRequest, key: Bytes, keys: Keys, abort: Abort, signature: Option<Bytes>):
    (r: Outcome<OperationRequest>)
    ensures r.Ok? ==> Authorized(unsigned, key, keys, r.value.signature) && r.value.(signature := unsigned.signature) == unsigned
    ensures r != Err(RequestTooLarge)
  {
    if AbortsSigning(abort) then Err(Cancelled)
    else if signature.None? then Err(NotSigned)
    else if !Authorized(unsigned, key, keys, signature.value) then Err(InvalidSignature)
    else Ok(unsigned.(signature := signature.value))
  }

  /** The key of the grant a request is signed under, once nothing refuses it. */
  function GrantKey(c: Context, op: Operation, keys: Keys, abort: Abort): Bytes
    requires Refusal(c, op, keys, abort).None?
  {
    MatchingGrant(c.descriptor.allowedClients, c.clientKeyId, OperationKindOf(op), keys.idOf).value.clientPublicKey
  }

  /**
   `prepareRequest`: `signature` is what the signer answers if asked, and `asked`
   whether it was. The signer is asked only for a request that will fit, and the secret
   is wiped on every failure after it was drawn.
   */
  method PrepareRequest(
    c: Context, op: Operation, seed: Option<Text>, d: Draws, keys: Keys, abort: Abort,
    signature: Option<Bytes>, secret: array<Byte>)
    returns (r: Outcome<OperationRequest>, asked: bool)
    modifies secret
    ensures Refusal(c, op, keys, abort).Some? ==> r == Err(Refusal(c, op, keys, abort).value) && !asked
    ensures Refusal(c, op, keys, abort).Some? || r.Ok? ==> secret[..] == old(secret[..])
    ensures Refusal(c, op, keys, abort).None? && r.Err? ==> Wiped(secret)
    ensures asked <==> Refusal(c, op, keys, abort).None? && BuildRequest(c, op, seed, d).Ok?
    ensures Refusal(c, op, keys, abort).None? && !asked ==> r == BuildRequest(c, op, seed, d)
    ensures asked ==>
      r == AskSigner(BuildRequest(c, op, seed, d).value, GrantKey(c, op, keys, abort), keys, abort, signature)
    ensures r == Err(RequestTooLarge) <==>
      Refusal(c, op, keys, abort).None? && BuildRequest(c, op, seed, d) == Err(RequestTooLarge)
    ensures r.Ok? ==> asked && !AbortsSigning(abort) && !abort.BeforeStart?
  {
    asked := false;
    var refused := Refusal(c, op, keys, abort);
    if refused.Some? {
      return Err(refused.value), asked;
    }
    var key := GrantKey(c, op, keys, abort);
    r := BuildRequest(c, op, seed, d);
    if r.Ok? {
      asked := true;
      r := AskSigner(r.value, key, keys, abort, signature);
    }
    if r.Err? {
      Wipe(secret);
    }
  }

  /** The envelope of a request, signed and sealed with these, is above the enclave's limit. */
  predicate SentTooLarge(
    crypto: Crypto, c: Context, r: OperationRequest, signature: Bytes, ephemeralSecret: Bytes, nonce: Bytes)
    requires |nonce| == AES_GCM_NONCE_LEN
  {
    var sealed := QosEncryptWith(
      crypto, c.info.quorumPublicKey, Plaintext(r.(signature := signature)), ephemeralSecret, nonce);
    sealed.Some? && EnclaveRequestBytes(c.info, c.backend, EncodeLowerHex(sealed.value)) > c.info.maxEncryptedRequestBytes
  }

  lemma PredictedTooLarge(
    crypto: Crypto, c: Context, r: OperationRequest, signature: Bytes, ephemeralSecret: Bytes, nonce: Bytes)
    requires Sound(crypto) && crypto.parses(c.info.quorumPublicKey)
    requires |signature| == RAW_P256_SIGNATURE_LEN && |nonce| == AES_GCM_NONCE_LEN
    ensures SentTooLarge(crypto, c, r, signature, ephemeralSecret, nonce)
       <==> PredictedBytes(c.info, c.backend, r) > c.info.maxEncryptedRequestBytes
  {
    PredictionIsExact(crypto, c.info, c.backend, r, signature, ephemeralSecret, nonce);
  }

  /**
   A request is refused as too large before signing exactly when, otherwise well-formed,
   the envelope it would be sent in is too large, whatever its signature, key and nonce.
   */
  lemma TooLargeExactly(
    crypto: Crypto, c: Context, op: Operation, seed: Option<Text>, d: Draws,
    signature: Bytes, ephemeralSecret: Bytes, nonce: Bytes)
    requires Sound(crypto) && crypto.parses(c.info.quorumPublicKey)
    requires |signature| == RAW_P256_SIGNATURE_LEN && |nonce| == AES_GCM_NONCE_LEN
    ensures BuildRequest(c, op, seed, d) == Err(RequestTooLarge) <==>
      && Times(c.nowMs) && SeedReads(seed) && Printable(c, op, Seed(seed), d)
      && SentTooLarge(crypto, c, Unsigned(c, op, Seed(seed), d), signature, ephemeralSecret, nonce)
  {
    if c.nowMs >= 0 {
      PredictedTooLarge(crypto, c, Unsigned(c, op, Seed(seed), d), signature, ephemeralSecret, nonce);
    }
  }

  /**
   `executeOperationEnvelope` up to what it sends, and its `finally`. Once the
   request was prepared, the check on the real envelope never refuses it.
   */
  method SealRequest(
    c: Context, op: Operation, seed: Option<Text>, d: Draws, keys: Keys, abort: Abort, crypto: Crypto,
    signature: Option<Bytes>, secret: array<Byte>)
    returns (r: Outcome<Text>, asked: bool)
    requires Sound(crypto) && |d.nonce| == AES_GCM_NONCE_LEN
    modifies secret
    ensures r == Err(RequestTooLarge) <==>
      Refusal(c, op, keys, abort).None? && BuildRequest(c, op, seed, d) == Err(RequestTooLarge)
    ensures r == Err(RequestTooLarge) ==> !asked
    ensures r.Ok? ==> abort.Never? && asked && crypto.parses(c.info.quorumPublicKey)
    ensures r.Ok? ==> EnclaveRequestBytes(c.info, c.backend, r.value) <= c.info.maxEncryptedRequestBytes
    ensures Refusal(c, op, keys, abort).None? ==> Wiped(secret)
  {
    var prepared;
    prepared, asked := PrepareRequest(c, op, seed, d, keys, abort, signature, secret);
    if prepared.Err? {
      return Err(prepared.failure), asked;
    }
    if abort.BeforeSealed? {
      Wipe(secret);
      return Err(Cancelled), asked;
    }
    ghost var unsigned := BuildRequest(c, op, seed, d).value;
    r := SealSigned(c, prepared.value, unsigned, d, crypto);
    Wipe(secret);
  }

  /** Encrypts a signed request, whose unsigned form was checked to fit, and checks the real envelope. */
  method SealSigned(c: Context, signed: OperationRequest, ghost unsigned: OperationRequest, d: Draws, crypto: Crypto)
    returns (r: Outcome<Text>)
    requires Sound(crypto) && |d.nonce| == AES_GCM_NONCE_LEN
    requires |signed.signature| == RAW_P256_SIGNATURE_LEN && signed == unsigned.(signature := signed.signature)
    requires PredictedBytes(c.info, c.backend, unsigned) <= c.info.maxEncryptedRequestBytes
    ensures r.Ok? <==> crypto.parses(c.info.quorumPublicKey)
    ensures r.Ok? ==> EnclaveRequestBytes(c.info, c.backend, r.value) <= c.info.maxEncryptedRequestBytes
    ensures r.Err? ==> r == Err(InvalidPublicKey)
  {
    var sealed := QosEncryptWith(crypto, c.info.quorumPublicKey, Plaintext(signed), d.ephemeralSecret, d.nonce);
    if sealed.None? {
      return Err(InvalidPublicKey);
    }
    var ciphertext := EncodeLowerHex(sealed.value);
    PredictionIsExact(crypto, c.info, c.backend, unsigned, signed.signature, d.ephemeralSecret, d.nonce);
    var bytes := EnclaveRequestBytes(c.info, c.backend, ciphertext);
    r := if bytes > c.info.maxEncryptedRequestBytes then Err(RequestTooLarge) else Ok(ciphertext);
  }
}
