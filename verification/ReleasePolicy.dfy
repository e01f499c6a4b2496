/** Threshold verification of signed release policies, in both implementations. */
module ReleasePolicy {
  import opened Basics
  import opened Hashing
  import opened Unicode
  import opened Json
  import opened Jcs
  import opened JcsWriters
  import opened Encodings
  import opened Digest
  import opened Requests
  import opened RequestDigests
  import opened RequestSize
  import opened SameBytes

  const API_VERSION := 1
  const EXPECTED_TURNKEY_TRUST_ROOT_ID := Name("aws-nitro-root-g1")
  const MAX_ACCEPTED := 255

  datatype Policy = Policy(
    version: nat, releaseId: Text, network: Network, tvcApplicationId: Text, securityDomainId: Bytes,
    acceptedManifestDigests: seq<Text>, acceptedExecutableDigests: seq<Text>, quorumKeyId: Text,
    quorumKeyEpoch: nat, quorumPublicKey: Bytes, allowedOperations: seq<OperationKind>,
    maxEncryptedRequestBytes: nat, maxEncryptedResponseBytes: nat, turnkeyTrustRootId: Text,
    turnkeyProofSchemaVersions: seq<Text>, validFromMs: nat, expiresAtMs: nat, revocationEpoch: nat)

  datatype Signature = Signature(keyId: Text, signature: Bytes)

  datatype SignedPolicy = SignedPolicy(policy: Policy, authoritySetId: Text, signatures: seq<Signature>)

  datatype AuthorityKey = AuthorityKey(keyId: Text, publicKey: Bytes)

  datatype Authorities = Authorities(
    authoritySetId: Text, threshold: nat, keys: seq<AuthorityKey>, minimumRevocationEpoch: nat)

  datatype Error = UnsupportedVersion | NetworkMismatch | ReleasePolicyInvalid | ExpiredRequest | InvalidSignature

  // What is signed.

  const POLICY_NAMES := [
    "version", "releaseId", "network", "tvcApplicationId", "securityDomainId", "acceptedManifestDigests",
    "acceptedExecutableDigests", "quorumKeyId", "quorumKeyEpoch", "quorumPublicKey", "allowedOperations",
    "maxEncryptedRequestBytes", "maxEncryptedResponseBytes", "turnkeyTrustRootId",
    "turnkeyProofSchemaVersions", "validFromMs", "expiresAtMs", "revocationEpoch"]

  function TextsJson(ts: seq<Text>): (r: seq<Json>)
    ensures |r| == |ts| && forall i :: 0 <= i < |ts| ==> r[i] == Str(ts[i])
  {
    seq(|ts|, i requires 0 <= i < |ts| => Str(ts[i]))
  }

  function PolicyValues(p: Policy): seq<Json> {
    [Num(p.version), Str(p.releaseId), Word(NetworkName(p.network)), Str(p.tvcApplicationId),
     Hex(p.securityDomainId), Arr(TextsJson(p.acceptedManifestDigests)), Arr(TextsJson(p.acceptedExecutableDigests)),
     Str(p.quorumKeyId), DecimalU64(p.quorumKeyEpoch), Hex(p.quorumPublicKey), Arr(KindsJson(p.allowedOperations)),
     Num(p.maxEncryptedRequestBytes), Num(p.maxEncryptedResponseBytes), Str(p.turnkeyTrustRootId),
     Arr(TextsJson(p.turnkeyProofSchemaVersions)), DecimalU64(p.validFromMs), DecimalU64(p.expiresAtMs),
     DecimalU64(p.revocationEpoch)]
  }

  function PolicyJson(p: Policy): Json { Record(POLICY_NAMES, PolicyValues(p)) }

  /** `policy_signing_digest`. */
  function PolicyDigest(hash: Bytes -> Bytes, p: Policy): Bytes {
    ContentDomainsPlain();
    DomainSeparatedHash(hash, RELEASE_POLICY_DOMAIN, Utf8(Canonical(PolicyJson(p))))
  }

  /** `policySigningDigest`, on the policy's JavaScript form. */
  function JsPolicyDigest(hash: Bytes -> Bytes, p: Policy): Bytes {
    ContentDomainsPlain();
    DomainSeparatedHash(hash, RELEASE_POLICY_DOMAIN, TextEncode(Canonical(InUtf16(PolicyJson(p)))))
  }

  predicate DistinctFrom(names: seq<string>, low: nat, high: nat) {
    forall i, j :: low <= i < high && i < j < |names| ==> names[i] != names[j]
  }

  lemma EarlyNamesDistinct()
    ensures DistinctFrom(POLICY_NAMES, 0, 4)
  {
  }

  lemma MiddleNamesDistinct()
    ensures DistinctFrom(POLICY_NAMES, 4, 9)
  {
  }

  lemma LateNamesDistinct()
    ensures DistinctFrom(POLICY_NAMES, 9, 18)
  {
  }

  lemma PolicyNamesDistinct()
    ensures Distinct(POLICY_NAMES)
  {
    EarlyNamesDistinct();
    MiddleNamesDistinct();
    LateNamesDistinct();
    JoinDistinct(POLICY_NAMES, 4, 9);
  }

  lemma JoinDistinct(names: seq<string>, a: nat, b: nat)
    requires DistinctFrom(names, 0, a) && DistinctFrom(names, a, b) && DistinctFrom(names, b, |names|)
    ensures Distinct(names)
  {
  }

  lemma TextListsAlike(a: seq<Text>, b: seq<Text>)
    ensures Alike(Arr(TextsJson(a)), Arr(TextsJson(b))) <==> a == b
  {
    ArraysAlike(TextsJson(a), TextsJson(b));
    if Alike(Arr(TextsJson(a)), Arr(TextsJson(b))) {
      forall i | 0 <= i < |a| ensures a[i] == b[i] { assert Alike(TextsJson(a)[i], TextsJson(b)[i]); }
    }
  }

  lemma EarlyFields(a: Policy, b: Policy)
    requires forall i :: 0 <= i < 5 ==> Alike(PolicyValues(a)[i], PolicyValues(b)[i])
    ensures a.version == b.version && a.releaseId == b.releaseId && a.network == b.network
    ensures a.tvcApplicationId == b.tvcApplicationId && a.securityDomainId == b.securityDomainId
  {
    var vs, ws := PolicyValues(a), PolicyValues(b);
    assert Alike(vs[0], ws[0]) && Alike(vs[1], ws[1]) && Alike(vs[2], ws[2]) && Alike(vs[3], ws[3]) && Alike(vs[4], ws[4]);
    NetworksAlike(a.network, b.network);
    HexAlike(a.securityDomainId, b.securityDomainId);
  }

  lemma MiddleFields(a: Policy, b: Policy)
    requires forall i :: 5 <= i < 9 ==> Alike(PolicyValues(a)[i], PolicyValues(b)[i])
    ensures a.acceptedManifestDigests == b.acceptedManifestDigests
    ensures a.acceptedExecutableDigests == b.acceptedExecutableDigests
    ensures a.quorumKeyId == b.quorumKeyId && a.quorumKeyEpoch == b.quorumKeyEpoch
  {
    var vs, ws := PolicyValues(a), PolicyValues(b);
    assert Alike(vs[5], ws[5]) && Alike(vs[6], ws[6]) && Alike(vs[7], ws[7]) && Alike(vs[8], ws[8]);
    TextListsAlike(a.acceptedManifestDigests, b.acceptedManifestDigests);
    TextListsAlike(a.acceptedExecutableDigests, b.acceptedExecutableDigests);
    DecimalsAlike(a.quorumKeyEpoch, b.quorumKeyEpoch);
  }

  lemma LateFields(a: Policy, b: Policy)
    requires forall i :: 9 <= i < 18 ==> Alike(PolicyValues(a)[i], PolicyValues(b)[i])
    ensures a.quorumPublicKey == b.quorumPublicKey && a.allowedOperations == b.allowedOperations
    ensures a.maxEncryptedRequestBytes == b.maxEncryptedRequestBytes
    ensures a.maxEncryptedResponseBytes == b.maxEncryptedResponseBytes
    ensures a.turnkeyTrustRootId == b.turnkeyTrustRootId
    ensures a.turnkeyProofSchemaVersions == b.turnkeyProofSchemaVersions
    ensures a.validFromMs == b.validFromMs && a.expiresAtMs == b.expiresAtMs && a.revocationEpoch == b.revocationEpoch
  {
    var vs, ws := PolicyValues(a), PolicyValues(b);
    assert Alike(vs[9], ws[9]) && Alike(vs[10], ws[10]) && Alike(vs[11], ws[11]) && Alike(vs[12], ws[12]);
    assert Alike(vs[13], ws[13]) && Alike(vs[14], ws[14]) && Alike(vs[15], ws[15]) && Alike(vs[16], ws[16]) && Alike(vs[17], ws[17]);
    HexAlike(a.quorumPublicKey, b.quorumPublicKey);
    KindsAlike(a.allowedOperations, b.allowedOperations);
    TextListsAlike(a.turnkeyProofSchemaVersions, b.turnkeyProofSchemaVersions);
    DecimalsAlike(a.validFromMs, b.validFromMs);
    DecimalsAlike(a.expiresAtMs, b.expiresAtMs);
    DecimalsAlike(a.revocationEpoch, b.revocationEpoch);
  }

  lemma PolicyFloatFree(p: Policy)
    ensures FloatFree(PolicyJson(p))
  {
    var vs := PolicyValues(p);
    assert forall i :: 0 <= i < |vs| ==> FloatFree(vs[i]);
    RecordFloatFree(POLICY_NAMES, vs);
  }

  /** Authorities sign the whole policy: two policies have one digest exactly when every field agrees. */
  lemma PolicyDigestNamesPolicy(hash: Bytes -> Bytes, a: Policy, b: Policy)
    requires Injective(hash) && RustValue(PolicyJson(a)) && RustValue(PolicyJson(b))
    ensures PolicyDigest(hash, a) == PolicyDigest(hash, b) <==> a == b
  {
    ContentDomainsPlain();
    PolicyFloatFree(a);
    PolicyFloatFree(b);
    PolicyNamesDistinct();
    DigestsAlike(hash, RELEASE_POLICY_DOMAIN, PolicyJson(a), PolicyJson(b));
    RecordsAlike(POLICY_NAMES, PolicyValues(a), PolicyValues(b));
    if AllAlike(PolicyValues(a), PolicyValues(b)) {
      EarlyFields(a, b);
      MiddleFields(a, b);
      LateFields(a, b);
    }
  }

  /** The client verifies the digest the authorities signed. */
  lemma PolicyDigestsAgree(hash: Bytes -> Bytes, p: Policy)
    requires RustValue(PolicyJson(p))
    ensures JsPolicyDigest(hash, p) == PolicyDigest(hash, p)
  {
    ContentDomainsPlain();
    DigestsAgree(hash, RELEASE_POLICY_DOMAIN, PolicyJson(p));
  }

  // What is accepted.

  /** The checks before any signature, in order. */
  function HeaderError(s: SignedPolicy, a: Authorities, network: Network, nowMs: int): Option<Error> {
    if s.policy.version != API_VERSION then Some(UnsupportedVersion)
    else if s.policy.network != network then Some(NetworkMismatch)
    else if a.threshold == 0 || a.keys == [] then Some(ReleasePolicyInvalid)
    else if s.authoritySetId != a.authoritySetId then Some(ReleasePolicyInvalid)
    else if s.policy.turnkeyTrustRootId != EXPECTED_TURNKEY_TRUST_ROOT_ID then Some(ReleasePolicyInvalid)
    else if s.policy.revocationEpoch < a.minimumRevocationEpoch then Some(ReleasePolicyInvalid)
    else if nowMs < s.policy.validFromMs || nowMs > s.policy.expiresAtMs then Some(ExpiredRequest)
    else if s.signatures == [] then Some(ReleasePolicyInvalid)
    else None
  }

  predicate DistinctIds(keys: seq<AuthorityKey>) {
    forall i, j :: 0 <= i < j < |keys| ==> keys[i].keyId != keys[j].keyId
  }

  predicate Pinned(keys: seq<AuthorityKey>, id: Text) { exists i :: 0 <= i < |keys| && keys[i].keyId == id }

  predicate OccursOnce(signatures: seq<Signature>, i: nat)
    requires i < |signatures|
  {
    forall j :: 0 <= j < |signatures| && signatures[j].keyId == signatures[i].keyId ==> j == i
  }

  /** A signature that counts: its key is pinned, and no other signature names it. */
  predicate Counts(s: SignedPolicy, a: Authorities, i: nat)
    requires i < |s.signatures|
  {
    Pinned(a.keys, s.signatures[i].keyId) && OccursOnce(s.signatures, i)
  }

  type Verifies = (Bytes, Bytes, Bytes) -> bool

  /** Signature `i` is good under the key pinned for it. */
  predicate Good(s: SignedPolicy, a: Authorities, verifies: Verifies, digest: Bytes, i: nat)
    requires i < |s.signatures|
  {
    exists k :: 0 <= k < |a.keys| && a.keys[k].keyId == s.signatures[i].keyId
      && verifies(a.keys[k].publicKey, digest, s.signatures[i].signature)
  }

  function Counted(s: SignedPolicy, a: Authorities, n: nat): set<nat>
    requires n <= |s.signatures|
  {
    set i: nat | i < n && Counts(s, a, i)
  }

  function CountedAll(s: SignedPolicy, a: Authorities): set<nat> { Counted(s, a, |s.signatures|) }

  /** Enough distinct pinned authorities signed, and no counted signature is bad. */
  predicate Endorsed(s: SignedPolicy, a: Authorities, verifies: Verifies, digest: Bytes) {
    && DistinctIds(a.keys)
    && (forall i :: 0 <= i < |s.signatures| && Counts(s, a, i) ==> Good(s, a, verifies, digest, i))
    && |CountedAll(s, a)| >= a.threshold
  }

  // The two verifiers.

  /** `by_id`. */
  predicate MapsKeys(byId: map<Text, Bytes>, keys: seq<AuthorityKey>) {
    && DistinctIds(keys)
    && (forall k :: 0 <= k < |keys| ==> keys[k].keyId in byId && byId[keys[k].keyId] == keys[k].publicKey)
    && (forall id :: id in byId ==> Pinned(keys, id))
  }

  method PinnedKeys(keys: seq<AuthorityKey>) returns (byId: Option<map<Text, Bytes>>)
    ensures byId.Some? <==> DistinctIds(keys)
    ensures byId.Some? ==> MapsKeys(byId.value, keys)
  {
    var m: map<Text, Bytes> := map[];
    for i := 0 to |keys|
      invariant MapsKeys(m, keys[..i])
    {
      ghost var before := keys[..i];
      if keys[i].keyId in m {
        assert Pinned(before, keys[i].keyId);
        ghost var j :| 0 <= j < |before| && before[j].keyId == keys[i].keyId;
        assert keys[j].keyId == keys[i].keyId;
        return None;
      }
      m := m[keys[i].keyId := keys[i].publicKey];
      PinOneMore(before, keys[i], m);
      assert keys[..i + 1] == before + [keys[i]];
    }
    assert keys[..|keys|] == keys;
    byId := Some(m);
  }

  lemma PinOneMore(keys: seq<AuthorityKey>, key: AuthorityKey, m: map<Text, Bytes>)
    requires key.keyId in m && m[key.keyId] == key.publicKey
    requires MapsKeys(m - {key.keyId}, keys)
    ensures MapsKeys(m, keys + [key])
  {
    var all := keys + [key];
    forall id | id in m ensures Pinned(all, id) {
      if id == key.keyId {
        assert all[|keys|].keyId == id;
      } else {
        assert id in m - {key.keyId};
        var i :| 0 <= i < |keys| && keys[i].keyId == id;
        assert all[i].keyId == id;
      }
    }
    forall k | 0 <= k < |keys| ensures keys[k].keyId != key.keyId { assert keys[k].keyId in m - {key.keyId}; }
  }

  /** An id among the first `n` signatures, once or more. */
  predicate SeenIn(signatures: seq<Signature>, n: nat, id: Text)
    requires n <= |signatures|
  {
    exists i :: 0 <= i < n && signatures[i].keyId == id
  }

  predicate TwiceIn(signatures: seq<Signature>, n: nat, id: Text)
    requires n <= |signatures|
  {
    exists j :: 0 <= j < n && signatures[j].keyId == id && SeenIn(signatures, j, id)
  }

  lemma TwiceOneMore(signatures: seq<Signature>, n: nat, id: Text)
    requires n < |signatures|
    ensures SeenIn(signatures, n + 1, id) <==> SeenIn(signatures, n, id) || signatures[n].keyId == id
    ensures TwiceIn(signatures, n + 1, id) <==>
      TwiceIn(signatures, n, id) || (signatures[n].keyId == id && SeenIn(signatures, n, id))
  {
  }

  lemma OnceOrTwice(signatures: seq<Signature>, i: nat)
    requires i < |signatures|
    ensures OccursOnce(signatures, i) <==> !TwiceIn(signatures, |signatures|, signatures[i].keyId)
  {
    var id := signatures[i].keyId;
    if TwiceIn(signatures, |signatures|, id) {
      var j :| 0 <= j < |signatures| && signatures[j].keyId == id && SeenIn(signatures, j, id);
      var k :| 0 <= k < j && signatures[k].keyId == id;
    }
    if !OccursOnce(signatures, i) {
      var j :| 0 <= j < |signatures| && signatures[j].keyId == id && j != i;
      if j < i { assert SeenIn(signatures, i, id); } else { assert SeenIn(signatures, j, id); }
    }
  }

  /** The ids that `duplicates` holds after its loop. */
  method Duplicates(signatures: seq<Signature>) returns (duplicates: set<Text>)
    ensures forall id :: id in duplicates <==> TwiceIn(signatures, |signatures|, id)
  {
    var seen: set<Text> := {};
    duplicates := {};
    for n := 0 to |signatures|
      invariant forall id :: id in seen <==> SeenIn(signatures, n, id)
      invariant forall id :: id in duplicates <==> TwiceIn(signatures, n, id)
    {
      var id := signatures[n].keyId;
      forall x { TwiceOneMore(signatures, n, x); }
      if id in seen {
        duplicates := duplicates + {id};
      }
      seen := seen + {id};
    }
  }

  lemma CountedOneMore(s: SignedPolicy, a: Authorities, n: nat)
    requires n < |s.signatures|
    ensures Counted(s, a, n + 1) == Counted(s, a, n) + if Counts(s, a, n) then {n} else {}
    ensures |Counted(s, a, n + 1)| == |Counted(s, a, n)| + if Counts(s, a, n) then 1 else 0
  {
    assert Counted(s, a, n + 1) == Counted(s, a, n) + if Counts(s, a, n) then {n} else {};
  }

  lemma PinnedKeyDecides(s: SignedPolicy, a: Authorities, byId: map<Text, Bytes>, verifies: Verifies, digest: Bytes, i: nat)
    requires i < |s.signatures| && MapsKeys(byId, a.keys)
    ensures Pinned(a.keys, s.signatures[i].keyId) <==> s.signatures[i].keyId in byId
    ensures s.signatures[i].keyId in byId ==>
      (Good(s, a, verifies, digest, i) <==> verifies(byId[s.signatures[i].keyId], digest, s.signatures[i].signature))
  {
    var id := s.signatures[i].keyId;
    if id in byId {
      var k :| 0 <= k < |a.keys| && a.keys[k].keyId == id;
      assert byId[id] == a.keys[k].publicKey;
    }
  }

  predicate AllGood(s: SignedPolicy, a: Authorities, verifies: Verifies, digest: Bytes, n: nat)
    requires n <= |s.signatures|
  {
    forall i :: 0 <= i < n && Counts(s, a, i) ==> Good(s, a, verifies, digest, i)
  }

  lemma CountedGrows(s: SignedPolicy, a: Authorities, n: nat)
    requires n <= |s.signatures|
    ensures |Counted(s, a, n)| <= |CountedAll(s, a)|
    decreases |s.signatures| - n
  {
    if n < |s.signatures| {
      CountedOneMore(s, a, n);
      CountedGrows(s, a, n + 1);
    }
  }

  /** One turn of the loop: whether the signature counts, and whether it is good if it does. */
  method Check(
    s: SignedPolicy, a: Authorities, byId: map<Text, Bytes>, duplicates: set<Text>,
    verifies: Verifies, digest: Bytes, i: nat)
    returns (counts: bool, good: bool)
    requires i < |s.signatures| && MapsKeys(byId, a.keys)
    requires forall id :: id in duplicates <==> TwiceIn(s.signatures, |s.signatures|, id)
    ensures counts == Counts(s, a, i)
    ensures counts ==> good == Good(s, a, verifies, digest, i)
  {
    var id := s.signatures[i].keyId;
    OnceOrTwice(s.signatures, i);
    PinnedKeyDecides(s, a, byId, verifies, digest, i);
    counts := id !in duplicates && id in byId;
    good := counts && verifies(byId[id], digest, s.signatures[i].signature);
  }

  lemma GoodOneMore(s: SignedPolicy, a: Authorities, verifies: Verifies, digest: Bytes, n: nat)
    requires n < |s.signatures|
    ensures AllGood(s, a, verifies, digest, n + 1) <==>
      AllGood(s, a, verifies, digest, n) && (Counts(s, a, n) ==> Good(s, a, verifies, digest, n))
  {
  }

  lemma BadSignatureDecides(s: SignedPolicy, a: Authorities, verifies: Verifies, digest: Bytes, i: nat)
    requires i < |s.signatures| && Counts(s, a, i) && !Good(s, a, verifies, digest, i)
    ensures !AllGood(s, a, verifies, digest, |s.signatures|)
  {
  }

  lemma TooManyDecides(s: SignedPolicy, a: Authorities, i: nat)
    requires i < |s.signatures| && Counts(s, a, i)
    ensures |CountedAll(s, a)| > |Counted(s, a, i)|
  {
    CountedOneMore(s, a, i);
    CountedGrows(s, a, i + 1);
  }

  /** The loop over signatures, which `limit` bounds where the count is a byte. */
  method CountAccepted(
    s: SignedPolicy, a: Authorities, byId: map<Text, Bytes>, duplicates: set<Text>,
    verifies: Verifies, digest: Bytes, limit: Option<nat>)
    returns (accepted: nat, error: Option<Error>)
    requires MapsKeys(byId, a.keys)
    requires forall id :: id in duplicates <==> TwiceIn(s.signatures, |s.signatures|, id)
    ensures error.None? <==>
      && AllGood(s, a, verifies, digest, |s.signatures|)
      && (limit.Some? ==> |CountedAll(s, a)| <= limit.value)
    ensures error.None? ==> accepted == |CountedAll(s, a)|
  {
    accepted := 0;
    assert Counted(s, a, 0) == {};
    for i := 0 to |s.signatures|
      invariant accepted == |Counted(s, a, i)| && AllGood(s, a, verifies, digest, i)
      invariant limit.Some? ==> accepted <= limit.value
    {
      var counts, good := Check(s, a, byId, duplicates, verifies, digest, i);
      CountedOneMore(s, a, i);
      GoodOneMore(s, a, verifies, digest, i);
      if counts {
        if !good {
          BadSignatureDecides(s, a, verifies, digest, i);
          return accepted, Some(InvalidSignature);
        }
        if limit.Some? && accepted == limit.value {
          TooManyDecides(s, a, i);
          return accepted, Some(ReleasePolicyInvalid);
        }
        accepted := accepted + 1;
      }
    }
    error := None;
  }

  /** The policies the Rust verifier accepts. */
  predicate Accepts(s: SignedPolicy, a: Authorities, network: Network, nowMs: int, hash: Bytes -> Bytes, verifies: Verifies) {
    && HeaderError(s, a, network, nowMs).None?
    && Endorsed(s, a, verifies, PolicyDigest(hash, s.policy))
    && |CountedAll(s, a)| <= MAX_ACCEPTED
  }

  /** The policies the TypeScript verifier accepts. */
  predicate JsAccepts(s: SignedPolicy, a: Authorities, network: Network, nowMs: int, hash: Bytes -> Bytes, verifies: Verifies) {
    && HeaderError(s, a, network, nowMs).None?
    && Endorsed(s, a, verifies, JsPolicyDigest(hash, s.policy))
  }

  /** `verify_signed_release_policy`: the count is a byte, and overflowing it refuses the policy. */
  method VerifySignedReleasePolicy(
    s: SignedPolicy, a: Authorities, network: Network, nowMs: nat, hash: Bytes -> Bytes, verifies: Verifies)
    returns (error: Option<Error>)
    ensures HeaderError(s, a, network, nowMs).Some? ==> error == HeaderError(s, a, network, nowMs)
    ensures error.None? <==> Accepts(s, a, network, nowMs, hash, verifies)
  {
    error := HeaderError(s, a, network, nowMs);
    if error.Some? {
      return;
    }
    var byId := PinnedKeys(a.keys);
    if byId.None? {
      return Some(ReleasePolicyInvalid);
    }
    var duplicates := Duplicates(s.signatures);
    var accepted;
    accepted, error := CountAccepted(s, a, byId.value, duplicates, verifies, PolicyDigest(hash, s.policy), Some(MAX_ACCEPTED));
    if error.None? && accepted < a.threshold {
      error := Some(ReleasePolicyInvalid);
    }
  }

  /** `verifySignedReleasePolicy`: the count is a number. */
  method JsVerifySignedReleasePolicy(
    s: SignedPolicy, a: Authorities, network: Network, nowMs: int, hash: Bytes -> Bytes, verifies: Verifies)
    returns (error: Option<Error>)
    ensures HeaderError(s, a, network, nowMs).Some? ==> error == HeaderError(s, a, network, nowMs)
    ensures error.None? <==> JsAccepts(s, a, network, nowMs, hash, verifies)
  {
    error := HeaderError(s, a, network, nowMs);
    if error.Some? {
      return;
    }
    var byId := PinnedKeys(a.keys);
    if byId.None? {
      return Some(ReleasePolicyInvalid);
    }
    var duplicates := Duplicates(s.signatures);
    var accepted;
    accepted, error := CountAccepted(s, a, byId.value, duplicates, verifies, JsPolicyDigest(hash, s.policy), None);
    if error.None? && accepted < a.threshold {
      error := Some(ReleasePolicyInvalid);
    }
  }

  /** Of what the client accepts, the Rust verifier accepts exactly the policies with at most 255 counted signatures. */
  lemma VerifiersAgreeExactly(
    s: SignedPolicy, a: Authorities, network: Network, nowMs: nat, hash: Bytes -> Bytes, verifies: Verifies)
    requires RustValue(PolicyJson(s.policy))
    ensures Accepts(s, a, network, nowMs, hash, verifies)
       <==> JsAccepts(s, a, network, nowMs, hash, verifies) && |CountedAll(s, a)| <= MAX_ACCEPTED
  {
    PolicyDigestsAgree(hash, s.policy);
  }

  /** An accepted policy was signed, whole, by at least the threshold of distinct pinned authorities. */
  lemma AcceptedMeansEndorsed(
    s: SignedPolicy, a: Authorities, network: Network, nowMs: nat, hash: Bytes -> Bytes, verifies: Verifies)
    requires Accepts(s, a, network, nowMs, hash, verifies)
    ensures exists signers: set<Text> ::
      && |signers| >= a.threshold > 0
      && forall id :: id in signers ==> exists i, k ::
           && 0 <= i < |s.signatures| && s.signatures[i].keyId == id
           && 0 <= k < |a.keys| && a.keys[k].keyId == id
           && verifies(a.keys[k].publicKey, PolicyDigest(hash, s.policy), s.signatures[i].signature)
  {
    var digest := PolicyDigest(hash, s.policy);
    var counted := CountedAll(s, a);
    var signers := set i | i in counted :: s.signatures[i].keyId;
    SignersCount(s, a, counted, signers);
    forall id | id in signers
      ensures exists i, k ::
        && 0 <= i < |s.signatures| && s.signatures[i].keyId == id
        && 0 <= k < |a.keys| && a.keys[k].keyId == id
        && verifies(a.keys[k].publicKey, digest, s.signatures[i].signature)
    {
      var i :| i in counted && s.signatures[i].keyId == id;
      assert Good(s, a, verifies, digest, i);
    }
  }

  lemma {:induction false} SignersCount(s: SignedPolicy, a: Authorities, counted: set<nat>, signers: set<Text>)
    requires forall i :: i in counted ==> i < |s.signatures| && Counts(s, a, i)
    requires signers == set i | i in counted :: s.signatures[i].keyId
    ensures |signers| == |counted|
  {
    if counted != {} {
      var i :| i in counted;
      var rest := counted - {i};
      var others := set j | j in rest :: s.signatures[j].keyId;
      SignersCount(s, a, rest, others);
      assert signers == others + {s.signatures[i].keyId};
      assert s.signatures[i].keyId !in others;
    }
  }

  // Where the verifiers differ.

  /** `n` authorities, numbered, that each signed once. */
  function NumberedKeys(n: nat): (r: seq<AuthorityKey>)
    requires n <= 0x10FFFF
    ensures |r| == n && forall i :: 0 <= i < n ==> r[i] == AuthorityKey([i], [])
  {
    seq(n, i requires 0 <= i < n => AuthorityKey([i], []))
  }

  function NumberedSignatures(n: nat): (r: seq<Signature>)
    requires n <= 0x10FFFF
    ensures |r| == n && forall i :: 0 <= i < n ==> r[i] == Signature([i], [])
  {
    seq(n, i requires 0 <= i < n => Signature([i], []))
  }

  const PLAIN_POLICY := Policy(
    API_VERSION, [], Devnet, [], [], [], [], [], 0, [], [], 0, 0, EXPECTED_TURNKEY_TRUST_ROOT_ID, [], 0, 0, 0)

  lemma {:induction false} AllCount(s: SignedPolicy, a: Authorities, n: nat)
    requires n <= |s.signatures| && forall i :: 0 <= i < n ==> Counts(s, a, i)
    ensures |Counted(s, a, n)| == n
  {
    if n > 0 {
      AllCount(s, a, n - 1);
      CountedOneMore(s, a, n - 1);
    } else {
      assert Counted(s, a, 0) == {};
    }
  }

  lemma NumberedCount(s: SignedPolicy, a: Authorities, n: nat)
    requires n <= 0x10FFFF && s.signatures == NumberedSignatures(n) && a.keys == NumberedKeys(n)
    ensures forall i :: 0 <= i < n ==> Counts(s, a, i)
    ensures DistinctIds(a.keys)
  {
    forall i | 0 <= i < n ensures Counts(s, a, i) {
      assert a.keys[i].keyId == s.signatures[i].keyId;
      forall j | 0 <= j < n && s.signatures[j].keyId == s.signatures[i].keyId ensures j == i {
        assert s.signatures[j].keyId[0] == j;
      }
    }
    forall i, j | 0 <= i < j < n ensures a.keys[i].keyId != a.keys[j].keyId {
      assert a.keys[i].keyId[0] == i && a.keys[j].keyId[0] == j;
    }
  }

  /** 256 pinned authorities that each sign once: the client accepts, the Rust count overflows and refuses. */
  lemma VerifiersDifferPast255(hash: Bytes -> Bytes, verifies: Verifies)
    requires forall key, digest, signature :: verifies(key, digest, signature)
    ensures var s := SignedPolicy(PLAIN_POLICY, [], NumberedSignatures(256));
            var a := Authorities([], 1, NumberedKeys(256), 0);
            JsAccepts(s, a, Devnet, 0, hash, verifies) && !Accepts(s, a, Devnet, 0, hash, verifies)
  {
    var s := SignedPolicy(PLAIN_POLICY, [], NumberedSignatures(256));
    var a := Authorities([], 1, NumberedKeys(256), 0);
    NumberedCount(s, a, 256);
    AllCount(s, a, 256);
    forall i | 0 <= i < |s.signatures| ensures Good(s, a, verifies, JsPolicyDigest(hash, s.policy), i) {
      assert a.keys[i].keyId == s.signatures[i].keyId;
    }
  }
}
