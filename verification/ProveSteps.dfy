/** Completion, sealing and scrubbing as they run, and the route both sides bind. */
module ProveSteps {
  import opened Basics
  import opened Unicode
  import opened Json
  import opened Prove
  import Jcs
  import Encodings
  import JsonScanner

  // The enclave works on one JSON tree that it changes in place; the client checks the
  // same route before it has the request signed.

  // Scrubbing.

  function ScrubbedSlot(v: Json, key: Text): Json {
    var slot := Get(v, key);
    if slot.Some? && slot.value.Str? then Put(v, key, Str([])) else v
  }

  function ScrubbedInputs(inputs: seq<Json>): (r: seq<Json>)
    ensures |r| == |inputs| && forall i :: 0 <= i < |inputs| ==> r[i] == ScrubbedSlot(inputs[i], SECRET)
  {
    seq(|inputs|, i requires 0 <= i < |inputs| => ScrubbedSlot(inputs[i], SECRET))
  }

  /** Every nullifier secret slot of a request, wiped. */
  function Scrubbed(request: Json): Json {
    var first := ScrubbedSlot(request, USER_SECRET);
    var inputs := Get(first, INPUTS);
    if inputs.Some? && inputs.value.Arr? then Put(first, INPUTS, Arr(ScrubbedInputs(inputs.value.items))) else first
  }

  lemma FieldNamesApart()
    ensures INPUTS != USER_SECRET && INPUTS != CIRCUIT_TYPE && INPUTS != OUTPUTS
    ensures IS_DUMMY != SECRET && SECRET != USER_SECRET
  {
    assert |INPUTS| == 6 && |USER_SECRET| == 19 && |CIRCUIT_TYPE| == 11 && |OUTPUTS| == 7;
    assert |IS_DUMMY| == 7 && |SECRET| == 15;
  }

  lemma ScrubbedSlotIsEmpty(v: Json, key: Text)
    requires Get(v, key).Some? && Get(v, key).value.Str?
    ensures Get(ScrubbedSlot(v, key), key) == Some(Str([]))
  {
    GetAfterPut(v, key, Str([]), key);
  }

  lemma ScrubbedInputsAt(request: Json)
    requires Get(request, INPUTS).Some? && Get(request, INPUTS).value.Arr?
    ensures Get(Scrubbed(request), INPUTS) == Some(Arr(ScrubbedInputs(Get(request, INPUTS).value.items)))
    ensures Get(Scrubbed(request), USER_SECRET) == Get(ScrubbedSlot(request, USER_SECRET), USER_SECRET)
  {
    FieldNamesApart();
    var first := ScrubbedSlot(request, USER_SECRET);
    var scrubbed := Arr(ScrubbedInputs(Get(request, INPUTS).value.items));
    GetAfterPut(request, USER_SECRET, Str([]), INPUTS);
    GetAfterPut(first, INPUTS, scrubbed, INPUTS);
    GetAfterPut(first, INPUTS, scrubbed, USER_SECRET);
  }

  /** Scrubbing clears every slot that completion filled. */
  lemma ScrubClearsEveryFilledSlot(request: Json, secret: Text, path: Path)
    requires Completable(request) && OpenSlot(request, path)
    ensures At(Scrubbed(Completed(request, secret)), path) == Some(Str([]))
  {
    FieldNamesApart();
    if IsTransfer(Circuit(request).value) {
      ScrubClearsInput(request, secret, path);
    } else {
      var completed := Completed(request, secret);
      GetAfterPut(request, USER_SECRET, Str(secret), USER_SECRET);
      GetAfterPut(request, USER_SECRET, Str(secret), INPUTS);
      AtOne(request, Field(USER_SECRET));
      ScrubbedSlotIsEmpty(completed, USER_SECRET);
      ScrubbedInputsAt(completed);
      AtOne(Scrubbed(completed), Field(USER_SECRET));
    }
  }

  lemma ScrubClearsInput(request: Json, secret: Text, path: Path)
    requires Completable(request) && OpenSlot(request, path) && IsTransfer(Circuit(request).value)
    ensures At(Scrubbed(Completed(request, secret)), path) == Some(Str([]))
  {
    var items := Get(request, INPUTS).value.items;
    var filled := FilledInputs(items, secret);
    assert path == [path[0], path[1], path[2]];
    AtThree(request, path[0], path[1], path[2]);
    var i := path[1].index;
    GetAfterPut(request, INPUTS, Arr(filled), INPUTS);
    GetAfterPut(items[i], SECRET, Str(secret), SECRET);
    ScrubbedSlotIsEmpty(filled[i], SECRET);
    ScrubbedInputsAt(Completed(request, secret));
    AtThree(Scrubbed(Completed(request, secret)), path[0], path[1], path[2]);
  }

  // The tree the enclave works on.

  class ProverRequest {
    var body: Json
    var filled: nat

    constructor (body: Json)
      ensures this.body == body && filled == 0
    {
      this.body := body;
      filled := 0;
    }

    /** `fill`: the slot's new value, counting the ones it fills; `None` for a slot that is neither open nor text. */
    method Fill(slot: Json, secret: Text) returns (r: Option<Json>)
      modifies this`filled
      ensures r.Some? <==> Fillable(Some(slot))
      ensures r.Some? ==> r.value == if slot.Null? then Str(secret) else slot
      ensures filled == old(filled) + if slot.Null? then 1 else 0
    {
      if slot.Null? {
        filled := filled + 1;
        return Some(Str(secret));
      }
      r := if slot.Str? then Some(slot) else None;
    }

    /** One transfer input. */
    method FillInput(input: Json, secret: Text) returns (r: Option<Json>)
      modifies this`filled
      ensures r.Some? <==> AcceptedInput(input)
      ensures r.Some? ==> r.value == FilledInput(input, secret)
      ensures r.Some? ==> filled == old(filled) + if IsOpen(Get(input, SECRET)) then 1 else 0
    {
      var marker := Get(input, IS_DUMMY);
      if marker.None? || !marker.value.Str? {
        return None;
      }
      var dummy := marker.value.s != Name("0x0");
      var slot := Get(input, SECRET);
      if slot.None? || (dummy && slot.value.Null?) {
        return None;
      }
      var written := Fill(slot.value, secret);
      if written.None? {
        return None;
      }
      PutSame(input, SECRET);
      r := Some(Put(input, SECRET, written.value));
    }

    /** The loop over a transfer's inputs. */
    method FillInputs(inputs: seq<Json>, secret: Text) returns (r: Option<seq<Json>>)
      modifies this`filled
      ensures r.Some? <==> forall i :: 0 <= i < |inputs| ==> AcceptedInput(inputs[i])
      ensures r.Some? ==> r.value == FilledInputs(inputs, secret)
      ensures r.Some? && old(filled) == 0 ==>
        (filled == 0 <==> forall i :: 0 <= i < |inputs| ==> !IsOpen(Get(inputs[i], SECRET)))
    {
      var out := inputs;
      for i := 0 to |inputs|
        invariant |out| == |inputs| && out[i..] == inputs[i..]
        invariant forall j :: 0 <= j < i ==> AcceptedInput(inputs[j]) && out[j] == FilledInput(inputs[j], secret)
        invariant old(filled) == 0 ==> (filled == 0 <==> forall j :: 0 <= j < i ==> !IsOpen(Get(inputs[j], SECRET)))
      {
        assert out[i] == out[i..][0] == inputs[i..][0];
        var input := FillInput(out[i], secret);
        if input.None? {
          return None;
        }
        out := out[i := input.value];
        assert out[i + 1..] == inputs[i..][1..];
      }
      assert out == FilledInputs(inputs, secret);
      r := Some(out);
    }

    /** `complete`, on the enclave's own copy of the request. */
    method Complete(secret: Text) returns (ok: bool)
      requires filled == 0
      modifies this
      ensures ok <==> Completable(old(body))
      ensures ok ==> body == Completed(old(body), secret)
    {
      var circuit := Circuit(body);
      if circuit.None? {
        return false;
      }
      CircuitsApart(circuit.value);
      var inputs := Get(body, INPUTS);
      if !(IsTransfer(circuit.value) || IsMerge(circuit.value)) || !Sized(inputs) {
        return false;
      }
      if IsTransfer(circuit.value) {
        var out := FillInputs(inputs.value.items, secret);
        if out.None? || filled == 0 {
          return false;
        }
        body := Put(body, INPUTS, Arr(out.value));
      } else {
        var slot := Get(body, USER_SECRET);
        if slot.None? {
          return false;
        }
        var written := Fill(slot.value, secret);
        if written.None? || filled == 0 {
          return false;
        }
        body := Put(body, USER_SECRET, written.value);
      }
      ok := true;
    }

    /** `scrub`. */
    method Scrub()
      modifies this`body
      ensures body == Scrubbed(old(body))
    {
      var slot := Get(body, USER_SECRET);
      if slot.Some? && slot.value.Str? {
        body := Put(body, USER_SECRET, Str([]));
      }
      var inputs := Get(body, INPUTS);
      if inputs.Some? && inputs.value.Arr? {
        var out := inputs.value.items;
        for i := 0 to |out|
          invariant |out| == |inputs.value.items| && out[i..] == inputs.value.items[i..]
          invariant forall j :: 0 <= j < i ==> out[j] == ScrubbedSlot(inputs.value.items[j], SECRET)
        {
          assert out[i] == out[i..][0] == inputs.value.items[i..][0];
          var secret := Get(out[i], SECRET);
          if secret.Some? && secret.value.Str? {
            out := out[i := Put(out[i], SECRET, Str([]))];
          }
          assert out[i + 1..] == inputs.value.items[i..][1..];
        }
        assert out == ScrubbedInputs(inputs.value.items);
        body := Put(body, INPUTS, Arr(out));
      }
    }
  }

  lemma {:induction false} ReplaceSame(ms: seq<Member>, key: Text)
    requires Find(ms, key).Some?
    ensures Replace(ms, key, Find(ms, key).value) == ms
  {
    if ms[0].key != key { ReplaceSame(ms[1..], key); }
  }

  lemma PutSame(v: Json, key: Text)
    requires Get(v, key).Some?
    ensures Put(v, key, Get(v, key).value) == v
  {
    ReplaceSame(v.members, key);
  }

  // Routes.

  const PROVE_PATH := Name("/prove/")

  /** The enclave's `slot_count`. */
  function SlotCount(request: Json, field: Text): Option<nat> {
    var slots := Get(request, field);
    if !Sized(slots) then None else Some(|slots.value.items|)
  }

  function Family(circuit: Text): Option<Text> {
    if circuit == Name("transfer-confidential") then Some(Name("transfer_confidential"))
    else if circuit == Name("transfer-ring") then Some(Name("transfer_ring"))
    else if circuit == Name("merge") then Some(Name("merge"))
    else if circuit == Name("merge-ring") then Some(Name("merge_ring"))
    else None
  }

  function KeyName(family: Text, inputs: nat, outputs: nat): Text {
    family + [95] + Digits(inputs) + [95] + Digits(outputs)
  }

  /** The enclave's `proving_key`. */
  function ProvingKey(request: Json): Option<Text> {
    var circuit := Circuit(request);
    if circuit.None? || Family(circuit.value).None? then None
    else
      var inputs := SlotCount(request, INPUTS);
      var outputs := if Name("merge") <= circuit.value then Some(1) else SlotCount(request, OUTPUTS);
      if inputs.None? || outputs.None? then None
      else Some(KeyName(Family(circuit.value).value, inputs.value, outputs.value))
  }

  /** The enclave's `check_target`. */
  predicate CheckTarget(target: Text, key: Text) {
    |target| <= MAX_PROVER_TARGET_LEN && PROVE_PATH <= target && target[|PROVE_PATH|..] == key
  }

  lemma TwoDigits(n: nat)
    requires n <= MAX_PROVE_INPUTS
    ensures |Digits(n)| <= 2
  {
  }

  lemma KeysAreShort(request: Json)
    requires ProvingKey(request).Some?
    ensures |PROVE_PATH| + |ProvingKey(request).value| <= MAX_PROVER_TARGET_LEN
  {
    var circuit := Circuit(request).value;
    TwoDigits(SlotCount(request, INPUTS).value);
    if !(Name("merge") <= circuit) { TwoDigits(SlotCount(request, OUTPUTS).value); }
    assert |Digits(1)| == 1;
  }

  /** The only target the enclave takes for a key is the client's `proverTarget`. */
  lemma OneTargetPerKey(request: Json, target: Text)
    requires ProvingKey(request).Some?
    ensures CheckTarget(target, ProvingKey(request).value) <==> target == PROVE_PATH + ProvingKey(request).value
  {
    KeysAreShort(request);
    if CheckTarget(target, ProvingKey(request).value) {
      assert target == target[..|PROVE_PATH|] + target[|PROVE_PATH|..];
    }
  }

  // What the client checks of a sealing.

  const SEALING_KEYS := [Name("target"), Name("nonce"), Name("attestation"), Name("policy")]
  const SIGNED_POLICY_KEYS := [Name("release"), Name("freshness")]
  const SIGNED_PART_KEYS := [Name("payload"), Name("signatures")]

  function KeysOf(ms: seq<Member>): (r: seq<Text>)
    ensures |r| == |ms| && forall i :: 0 <= i < |ms| ==> r[i] == ms[i].key
  {
    seq(|ms|, i requires 0 <= i < |ms| => ms[i].key)
  }

  /** An object with exactly these members. */
  predicate HasExactly(v: Option<Json>, names: seq<Text>) {
    && v.Some? && v.value.Obj?
    && JsonScanner.KeySet(KeysOf(v.value.members)) == JsonScanner.KeySet(names)
  }

  predicate SignedPart(part: Option<Json>) {
    && HasExactly(part, SIGNED_PART_KEYS)
    && Get(part.value, Name("payload")).Some? && Get(part.value, Name("payload")).value.Str?
    && Get(part.value, Name("signatures")).Some? && Get(part.value, Name("signatures")).value.Arr?
  }

  predicate IsHex(v: Option<Json>, length: nat) {
    && v.Some? && v.value.Str?
    && Encodings.DecodeLowerHex(v.value.s).Some? && |Encodings.DecodeLowerHex(v.value.s).value| == length
  }

  predicate SignedPolicy(policy: Option<Json>) {
    && HasExactly(policy, SIGNED_POLICY_KEYS)
    && SignedPart(Get(policy.value, Name("release"))) && SignedPart(Get(policy.value, Name("freshness")))
  }

  /** A sealing of the shape the enclave takes: exact members, a signed policy, a 32-byte nonce, an attestation. */
  predicate WellFormedSealing(sealing: Json) {
    && HasExactly(Some(sealing), SEALING_KEYS)
    && SignedPolicy(Get(sealing, Name("policy")))
    && IsHex(Get(sealing, Name("nonce")), 32)
    && Get(sealing, Name("attestation")).Some? && Get(sealing, Name("attestation")).value.Obj?
  }

  lemma {:induction false} FoundIsMember(ms: seq<Member>, key: Text)
    requires Find(ms, key).Some?
    ensures exists i :: 0 <= i < |ms| && ms[i].value == Find(ms, key).value
  {
    if ms[0].key != key {
      FoundIsMember(ms[1..], key);
      var i :| 0 <= i < |ms[1..]| && ms[1..][i].value == Find(ms[1..], key).value;
      assert ms[i + 1].value == Find(ms, key).value;
    }
  }

  /** What is inside a parsed value repeats no key either. */
  lemma PartsRepeatNothing(v: Json, key: Text)
    requires Jcs.WellFormed(v) && Get(v, key).Some?
    ensures Jcs.WellFormed(Get(v, key).value)
  {
    FoundIsMember(v.members, key);
  }

  lemma KeysAreDistinct(ms: seq<Member>)
    requires Jcs.DistinctKeys(ms)
    ensures JsonScanner.Distinct(KeysOf(ms))
  {
    forall i, j | 0 <= i < j < |ms| ensures KeysOf(ms)[i] != KeysOf(ms)[j] {
      assert Utf16(ms[i].key) != Utf16(ms[j].key);
    }
  }

  lemma SealingNamesDistinct()
    ensures JsonScanner.Distinct(SEALING_KEYS) && JsonScanner.Distinct(SIGNED_POLICY_KEYS)
    ensures JsonScanner.Distinct(SIGNED_PART_KEYS)
  {
    assert |Name("target")| == 6 && |Name("nonce")| == 5 && |Name("attestation")| == 11;
    var t, p := Name("target"), Name("policy");
    assert t[0] == 't' as int && p[0] == 'p' as int && |p| == 6;
    assert |Name("release")| == 7 && |Name("freshness")| == 9;
    assert |Name("payload")| == 7 && |Name("signatures")| == 10;
  }

  /** `assertExactObjectKeys`. */
  method AssertExactObjectKeys(v: Option<Json>, expected: seq<Text>) returns (ok: bool)
    requires v.Some? ==> Jcs.WellFormed(v.value)
    requires JsonScanner.Distinct(expected)
    ensures ok <==> HasExactly(v, expected)
  {
    if v.None? || !v.value.Obj? {
      return false;
    }
    KeysAreDistinct(v.value.members);
    var error := JsonScanner.CheckExactKeys(KeysOf(v.value.members), expected);
    ok := error.None?;
  }

  method CheckSignedPart(part: Option<Json>) returns (ok: bool)
    requires part.Some? ==> Jcs.WellFormed(part.value)
    ensures ok <==> SignedPart(part)
  {
    SealingNamesDistinct();
    ok := AssertExactObjectKeys(part, SIGNED_PART_KEYS);
    if ok {
      var payload, signatures := Get(part.value, Name("payload")), Get(part.value, Name("signatures"));
      ok := payload.Some? && payload.value.Str? && signatures.Some? && signatures.value.Arr?;
    }
  }

  /** The policy's two signed parts. */
  method CheckSignedPolicy(policy: Option<Json>) returns (ok: bool)
    requires policy.Some? ==> Jcs.WellFormed(policy.value)
    ensures ok <==> SignedPolicy(policy)
  {
    SealingNamesDistinct();
    ok := AssertExactObjectKeys(policy, SIGNED_POLICY_KEYS);
    if !ok {
      return;
    }
    var release, freshness := Get(policy.value, Name("release")), Get(policy.value, Name("freshness"));
    if release.Some? { PartsRepeatNothing(policy.value, Name("release")); }
    if freshness.Some? { PartsRepeatNothing(policy.value, Name("freshness")); }
    ok := CheckSignedPart(release);
    if ok {
      ok := CheckSignedPart(freshness);
    }
  }

  /** The checks of `checkProve` before it looks at the request. */
  method CheckSealing(sealing: Json) returns (ok: bool)
    requires Jcs.WellFormed(sealing)
    ensures ok <==> WellFormedSealing(sealing)
  {
    SealingNamesDistinct();
    ok := AssertExactObjectKeys(Some(sealing), SEALING_KEYS);
    if !ok {
      return;
    }
    var policy := Get(sealing, Name("policy"));
    if policy.Some? { PartsRepeatNothing(sealing, Name("policy")); }
    ok := CheckSignedPolicy(policy);
    if ok {
      var attestation := Get(sealing, Name("attestation"));
      ok := IsHex(Get(sealing, Name("nonce")), 32) && attestation.Some? && attestation.value.Obj?;
    }
  }

  /** The request's part of `checkProve`, but the target. */
  method CheckOpen(request: Json) returns (ok: bool)
    ensures ok <==> LeavesOpen(request)
  {
    var circuit := Get(request, CIRCUIT_TYPE);
    if circuit.None? || !circuit.value.Str? || !IsProveCircuit(circuit.value.s) {
      return false;
    }
    CircuitsApart(circuit.value.s);
    var inputs := Get(request, INPUTS);
    if inputs.None? || !inputs.value.Arr? || |inputs.value.items| == 0 || |inputs.value.items| > MAX_PROVE_INPUTS {
      return false;
    }
    if circuit.value.s == Name("merge") || circuit.value.s == Name("merge-ring") {
      ok := Get(request, USER_SECRET) == Some(Null);
    } else {
      ok := SomeOpen(inputs.value.items);
    }
  }

  /** The client's check of a request it is about to have signed. */
  method CheckProve(request: Json, sealing: Json) returns (ok: bool)
    requires Jcs.WellFormed(sealing)
    ensures ok <==>
      && WellFormedSealing(sealing) && LeavesOpen(request)
      && ProvingKey(request).Some? && Get(sealing, Name("target")).Some? && Get(sealing, Name("target")).value.Str?
      && CheckTarget(Get(sealing, Name("target")).value.s, ProvingKey(request).value)
  {
    ok := CheckSealing(sealing);
    if !ok {
      return;
    }
    ok := CheckOpen(request);
    if !ok {
      return;
    }
    var name := ProvingKeyName(request, Circuit(request).value);
    var target := Get(sealing, Name("target"));
    if name.None? || target.None? || !target.value.Str? {
      return false;
    }
    OneTargetPerKey(request, target.value.s);
    ok := target.value.s == PROVE_PATH + name.value;
  }

  /** `isProveCircuit`. */
  predicate IsProveCircuit(circuit: Text) { IsTransfer(circuit) || IsMerge(circuit) }

  lemma FamiliesAreCircuits(circuit: Text)
    ensures IsProveCircuit(circuit) <==> Family(circuit).Some?
    ensures IsProveCircuit(circuit) ==> (Name("merge") <= circuit <==> IsMerge(circuit))
  {
    var t, r := Name("transfer-confidential"), Name("transfer-ring");
    assert t[0] == 't' as int && r[0] == 't' as int && Name("merge")[0] == 'm' as int;
    var m, n := Name("merge"), Name("merge-ring");
    assert n[..5] == m;
  }

  predicate SomeOpen(inputs: seq<Json>) {
    exists i :: 0 <= i < |inputs| && IsOpen(Get(inputs[i], SECRET))
  }

  /** Some slot of the circuit is open. */
  predicate LeavesOpen(request: Json) {
    var circuit := Circuit(request);
    && circuit.Some? && Sized(Get(request, INPUTS))
    && if IsTransfer(circuit.value) then SomeOpen(Get(request, INPUTS).value.items)
       else IsMerge(circuit.value) && IsOpen(Get(request, USER_SECRET))
  }

  /** The client's `provingKeyName`, which throws where the enclave refuses. */
  method ProvingKeyName(request: Json, circuit: Text) returns (name: Option<Text>)
    requires Circuit(request) == Some(circuit) && IsProveCircuit(circuit)
    ensures name == ProvingKey(request)
  {
    FamiliesAreCircuits(circuit);
    var inputs := Get(request, INPUTS);
    if inputs.None? || !inputs.value.Arr? || |inputs.value.items| == 0 || |inputs.value.items| > MAX_PROVE_INPUTS {
      return None;
    }
    var outputs := 1;
    if !(Name("merge") <= circuit) {
      var slots := Get(request, OUTPUTS);
      if slots.None? || !slots.value.Arr? || |slots.value.items| == 0 || |slots.value.items| > MAX_PROVE_INPUTS {
        return None;
      }
      outputs := |slots.value.items|;
    }
    name := Some(KeyName(Family(circuit).value, |inputs.value.items|, outputs));
  }

  /** The client refuses no request for lack of open slots that the enclave would complete. */
  lemma CompletableLeavesOpen(request: Json)
    requires Completable(request)
    ensures LeavesOpen(request)
  {
    if IsTransfer(Circuit(request).value) {
      var items := Get(request, INPUTS).value.items;
      var i :| 0 <= i < |items| && IsOpen(Get(items[i], SECRET));
    }
  }

  // Sealing.

  /** What encryption to a prover's key gives; its encapsulated key comes as hex. */
  datatype Encrypted = Encrypted(enc: Text, body: Text, responseKey: Bytes)

  datatype Sealed =
    | Sealed(target: Text, enc: Bytes, ciphertext: Text, responseKey: Bytes)
    | ProverRefused | Invalid | Unavailable

  /** Encryption to a key of a `POST` to a route, as a function; `None` when it fails. */
  type Encrypt = (Bytes, Text, Text) -> Option<Encrypted>

  predicate Usable(e: Option<Encrypted>) {
    && e.Some? && Encodings.DecodeHex(e.value.enc).Some? && |Encodings.DecodeHex(e.value.enc).value| == 32
  }

  predicate TargetFits(request: Json, target: Text) {
    ProvingKey(request).Some? && target == PROVE_PATH + ProvingKey(request).value
  }

  /** What is encrypted: the completed request's text, to the prover's key and the target's route. */
  function Ciphertext(request: Json, secret: Bytes, target: Text, prover: Bytes, encrypt: Encrypt): Option<Encrypted>
    requires Completable(request)
  {
    encrypt(prover, target, Print(Completed(request, FieldHex(secret))))
  }

  /** `seal`: `prover` is the attested key, `None` when the policy or attestation is refused. */
  method Seal(request: Json, secret: Bytes, target: Text, prover: Option<Bytes>, encrypt: Encrypt) returns (r: Sealed)
    ensures r.Sealed? <==>
      && TargetFits(request, target) && prover.Some? && Completable(request)
      && Usable(Ciphertext(request, secret, target, prover.value, encrypt))
    ensures r.Sealed? ==>
      var e := Ciphertext(request, secret, target, prover.value, encrypt).value;
      r == Sealed(target, Encodings.DecodeHex(e.enc).value, e.body, e.responseKey)
    ensures r.ProverRefused? <==> TargetFits(request, target) && prover.None?
    ensures r.Invalid? <==> !TargetFits(request, target) || (prover.Some? && !Completable(request))
  {
    var key := ProvingKey(request);
    if key.None? {
      return Invalid;
    }
    OneTargetPerKey(request, target);
    if !CheckTarget(target, key.value) {
      return Invalid;
    }
    if prover.None? {
      return ProverRefused;
    }
    var copy := new ProverRequest(request);
    var ok := copy.Complete(FieldHex(secret));
    if !ok {
      return Invalid;
    }
    var plaintext := Print(copy.body);
    copy.Scrub();
    var sealed := encrypt(prover.value, target, plaintext);
    if sealed.None? {
      return Unavailable;
    }
    var enc := Encodings.DecodeHex(sealed.value.enc);
    if enc.None? || |enc.value| != 32 {
      return Unavailable;
    }
    r := Sealed(target, enc.value, sealed.value.body, sealed.value.responseKey);
  }
}
