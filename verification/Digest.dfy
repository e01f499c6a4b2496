/**
 Domain-separated digests of what is signed: requests, descriptors, wallet bindings
 and grants, each the hash of canonical JSON without its signature. A domain has no
 NUL, so the one after it tells where the payload begins; structs become records of
 distinct names, so their fields can be compared one by one.
 */
module Digest {
  import opened Basics
  import opened Hashing
  import opened Unicode
  import opened Json
  import opened Jcs
  import opened Encodings

  // Domains.

  const PROVISIONING_AUTH_DOMAIN := "ZOLANA_TVC_PROVISIONING_AUTH_V1"
  const REQUEST_DIGEST_DOMAIN := "ZOLANA_TVC_REQUEST_V1"
  const RESULT_DIGEST_DOMAIN := "ZOLANA_TVC_RESULT_V1"
  const SEALED_SEED_DIGEST_DOMAIN := "ZOLANA_TVC_SEALED_SEED_DIGEST_V1"
  const WALLET_ID_HASH_DOMAIN := "ZOLANA_TVC_WALLET_ID_V1"
  const WALLET_BINDING_DOMAIN := "ZOLANA_TVC_WALLET_BINDING_V1"
  const REQUEST_ID_HASH_DOMAIN := "ZOLANA_TVC_REQUEST_ID_V1"
  const RELEASE_POLICY_DOMAIN := "ZOLANA_TVC_RELEASE_POLICY_V1"
  const WALLET_GRANT_DOMAIN := "ZOLANA_TVC_WALLET_GRANT_V1"
  const CLIENT_AUTH_DOMAIN := "spr-tvc-client-auth-v1"

  const DOMAINS := [
    PROVISIONING_AUTH_DOMAIN, REQUEST_DIGEST_DOMAIN, RESULT_DIGEST_DOMAIN, SEALED_SEED_DIGEST_DOMAIN,
    WALLET_ID_HASH_DOMAIN, WALLET_BINDING_DOMAIN, REQUEST_ID_HASH_DOMAIN, RELEASE_POLICY_DOMAIN, WALLET_GRANT_DOMAIN]

  predicate Plain(s: string) { forall i :: 0 <= i < |s| ==> 0 < s[i] as int < 128 }

  /** The bytes of an ASCII string. */
  function AsciiBytes(s: string): (b: Bytes)
    requires Plain(s)
    ensures |b| == |s| && forall i :: 0 <= i < |s| ==> b[i] == s[i] as int
  {
    seq(|s|, i requires 0 <= i < |s| => s[i] as int)
  }

  lemma SigningDomainsPlain()
    ensures Plain(PROVISIONING_AUTH_DOMAIN) && Plain(REQUEST_DIGEST_DOMAIN) && Plain(WALLET_GRANT_DOMAIN)
  {
  }

  lemma ContentDomainsPlain()
    ensures Plain(RESULT_DIGEST_DOMAIN) && Plain(SEALED_SEED_DIGEST_DOMAIN) && Plain(RELEASE_POLICY_DOMAIN)
  {
  }

  lemma IdentityDomainsPlain()
    ensures Plain(WALLET_ID_HASH_DOMAIN) && Plain(WALLET_BINDING_DOMAIN) && Plain(REQUEST_ID_HASH_DOMAIN)
  {
  }

  lemma DomainsPlain(i: nat)
    requires i < |DOMAINS|
    ensures Plain(DOMAINS[i])
  {
    SigningDomainsPlain();
    ContentDomainsPlain();
    IdentityDomainsPlain();
  }

  lemma DomainsDistinct()
    ensures forall i, j :: 0 <= i < j < |DOMAINS| ==> DOMAINS[i] != DOMAINS[j]
  {
  }

  function DomainSeparatedHash(hash: Bytes -> Bytes, domain: string, payload: Bytes): Bytes
    requires Plain(domain)
  {
    hash(AsciiBytes(domain) + [0] + payload)
  }

  /** Equal digests come from one domain and one payload. */
  lemma DigestNamesDomainAndPayload(hash: Bytes -> Bytes, d: string, p: Bytes, d': string, p': Bytes)
    requires Injective(hash) && Plain(d) && Plain(d')
    ensures DomainSeparatedHash(hash, d, p) == DomainSeparatedHash(hash, d', p') <==> d == d' && p == p'
  {
    if DomainSeparatedHash(hash, d, p) == DomainSeparatedHash(hash, d', p') {
      SplitAtNul(AsciiBytes(d), p, AsciiBytes(d'), p');
      forall i | 0 <= i < |d| ensures d[i] == d'[i] {
        assert AsciiBytes(d)[i] == AsciiBytes(d')[i];
      }
    }
  }

  /** Digests of different kinds never coincide, whatever they digest. */
  lemma KindsNeverCoincide(hash: Bytes -> Bytes, i: nat, p: Bytes, j: nat, p': Bytes)
    requires Injective(hash) && i < |DOMAINS| && j < |DOMAINS| && i != j
    ensures Plain(DOMAINS[i]) && Plain(DOMAINS[j])
    ensures DomainSeparatedHash(hash, DOMAINS[i], p) != DomainSeparatedHash(hash, DOMAINS[j], p')
  {
    DomainsDistinct();
    DomainsPlain(i);
    DomainsPlain(j);
    DigestNamesDomainAndPayload(hash, DOMAINS[i], p, DOMAINS[j], p');
  }

  // What a client key signs.

  function ClientAuthMessage(requestDigest: Bytes): Text {
    Name(CLIENT_AUTH_DOMAIN) + [58] + EncodeLowerHex(requestDigest)
  }

  function ClientAuthDigest(hash: Bytes -> Bytes, requestDigest: Bytes): Bytes {
    hash(Utf8(ClientAuthMessage(requestDigest)))
  }

  lemma {:induction false} PlainTextUtf8(s: Text)
    requires forall i :: 0 <= i < |s| ==> 0 < s[i] < 128
    ensures |Utf8(s)| == |s| && NulFree(Utf8(s))
    ensures Scalars(s)
  {
    if s != [] { PlainTextUtf8(s[1..]); }
  }

  lemma ClientAuthMessagePlain(d: Bytes)
    ensures forall i :: 0 <= i < |ClientAuthMessage(d)| ==> 0 < ClientAuthMessage(d)[i] < 128
  {
    LowerHexLength(d);
    assert Plain(CLIENT_AUTH_DOMAIN);
  }

  /** A client key's digest names one request digest, and is no domain-separated one. */
  lemma ClientAuthNamesRequest(hash: Bytes -> Bytes, d: Bytes, d': Bytes, domain: string, p: Bytes)
    requires Injective(hash) && Plain(domain)
    ensures ClientAuthDigest(hash, d) == ClientAuthDigest(hash, d') <==> d == d'
    ensures ClientAuthDigest(hash, d) != DomainSeparatedHash(hash, domain, p)
  {
    var m, m' := ClientAuthMessage(d), ClientAuthMessage(d');
    ClientAuthMessagePlain(d);
    ClientAuthMessagePlain(d');
    PlainTextUtf8(m);
    PlainTextUtf8(m');
    Utf8Injective(m, m');
    var n := |CLIENT_AUTH_DOMAIN| + 1;
    assert m[n..] == EncodeLowerHex(d) && m'[n..] == EncodeLowerHex(d');
    LowerHexIsCanonical(EncodeLowerHex(d), d);
    LowerHexIsCanonical(EncodeLowerHex(d), d');
    assert (AsciiBytes(domain) + [0] + p)[|domain|] == 0;
  }

  // JSON records.

  predicate Distinct(names: seq<string>) {
    forall i, j :: 0 <= i < j < |names| ==> names[i] != names[j]
  }

  /** A struct as serde writes it: its fields by name, in order. */
  function Record(names: seq<string>, values: seq<Json>): Json
    requires |names| == |values|
  {
    Obj(Fields(names, values))
  }

  function Fields(names: seq<string>, values: seq<Json>): (ms: seq<Member>)
    requires |names| == |values|
    ensures |ms| == |names|
    ensures forall i :: 0 <= i < |names| ==> ms[i] == Member(Name(names[i]), values[i])
  {
    seq(|names|, i requires 0 <= i < |names| => Member(Name(names[i]), values[i]))
  }

  /** `Map::remove`. */
  function Remove(ms: seq<Member>, key: Text): seq<Member> {
    if ms == [] then []
    else if ms[0].key == key then ms[1..]
    else [ms[0]] + Remove(ms[1..], key)
  }

  lemma {:induction false} RemoveLast(ms: seq<Member>)
    requires ms != [] && forall i :: 0 <= i < |ms| - 1 ==> ms[i].key != ms[|ms| - 1].key
    ensures Remove(ms, ms[|ms| - 1].key) == ms[..|ms| - 1]
  {
    if |ms| > 1 { RemoveLast(ms[1..]); }
  }

  lemma RemoveLastField(names: seq<string>, values: seq<Json>)
    requires |names| == |values| && names != [] && Distinct(names)
    ensures Remove(Fields(names, values), Name(names[|names| - 1]))
         == Fields(names[..|names| - 1], values[..|names| - 1])
  {
    var n := |names| - 1;
    forall i | 0 <= i < n ensures Fields(names, values)[i].key != Fields(names, values)[n].key {
      NameInjective(names[i], names[n]);
    }
    RemoveLast(Fields(names, values));
    assert Fields(names, values)[..n] == Fields(names[..n], values[..n]);
  }

  /** Values that print alike. */
  ghost predicate Alike(v: Json, w: Json) { Canon(v) == Canon(w) }

  ghost predicate AllAlike(vs: seq<Json>, ws: seq<Json>) {
    |vs| == |ws| && forall i :: 0 <= i < |vs| ==> Alike(vs[i], ws[i])
  }

  lemma CanonHas(ms: seq<Member>, ns: seq<Member>, i: nat)
    requires i < |ms| && Alike(Obj(ms), Obj(ns))
    ensures exists j :: 0 <= j < |ns| && ns[j].key == ms[i].key && Alike(ns[j].value, ms[i].value)
  {
    var p, q := CanonMembers(ms), CanonMembers(ns);
    assert p[i] in Sort(p);
    var j :| 0 <= j < |q| && q[j] == p[i];
    assert ns[j].key == ms[i].key;
  }

  /** Records of one shape print alike exactly when their fields do. */
  lemma RecordsAlike(names: seq<string>, vs: seq<Json>, ws: seq<Json>)
    requires |names| == |vs| == |ws| && Distinct(names)
    ensures Alike(Record(names, vs), Record(names, ws)) <==> AllAlike(vs, ws)
  {
    var a, b := Fields(names, vs), Fields(names, ws);
    if Alike(Obj(a), Obj(b)) {
      forall i | 0 <= i < |vs| ensures Alike(vs[i], ws[i]) {
        CanonHas(a, b, i);
        var j :| 0 <= j < |b| && b[j].key == a[i].key && Alike(b[j].value, a[i].value);
        NameInjective(names[i], names[j]);
      }
    }
    if AllAlike(vs, ws) {
      assert CanonMembers(a) == CanonMembers(b);
    }
  }

  /** Records of two shapes with the tag first: alike ones have one tag. */
  lemma TagsAlike(names: seq<string>, vs: seq<Json>, names': seq<string>, ws: seq<Json>)
    requires 0 < |names| == |vs| && 0 < |names'| == |ws| && names[0] == names'[0] && Distinct(names')
    requires Alike(Record(names, vs), Record(names', ws))
    ensures Alike(vs[0], ws[0])
  {
    var a, b := Fields(names, vs), Fields(names', ws);
    CanonHas(a, b, 0);
    var j :| 0 <= j < |b| && b[j].key == a[0].key && Alike(b[j].value, a[0].value);
    NameInjective(names'[0], names'[j]);
  }

  lemma ArraysAlike(vs: seq<Json>, ws: seq<Json>)
    ensures Alike(Arr(vs), Arr(ws)) <==> AllAlike(vs, ws)
  {
    if Alike(Arr(vs), Arr(ws)) {
      assert |CanonItems(vs)| == |CanonItems(ws)|;
      forall i | 0 <= i < |vs| ensures Alike(vs[i], ws[i]) { assert CanonItems(vs)[i] == CanonItems(ws)[i]; }
    }
    if AllAlike(vs, ws) { assert CanonItems(vs) == CanonItems(ws); }
  }

  // Field encodings.

  function Hex(b: Bytes): Json { Str(EncodeLowerHex(b)) }

  function DecimalU64(n: nat): Json { Str(Digits(n)) }

  function OptionalHex(b: Option<Bytes>): Json { if b.None? then Null else Hex(b.value) }

  function Word(s: string): Json { Str(Name(s)) }

  lemma HexAlike(a: Bytes, b: Bytes)
    ensures Alike(Hex(a), Hex(b)) <==> a == b
  {
    LowerHexIsCanonical(EncodeLowerHex(a), a);
    LowerHexIsCanonical(EncodeLowerHex(a), b);
  }

  lemma DecimalsAlike(n: nat, m: nat)
    ensures Alike(DecimalU64(n), DecimalU64(m)) <==> n == m
  {
    if Digits(n) == Digits(m) { DigitsInjective(n, m); }
  }

  lemma WordsAlike(a: string, b: string)
    ensures Alike(Word(a), Word(b)) <==> a == b
  {
    NameInjective(a, b);
  }
}
