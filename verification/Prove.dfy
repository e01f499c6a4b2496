/** Completing a prover request: which slots get the secret, and how it is written. */
module Prove {
  import opened Basics
  import opened Unicode
  import opened Json
  import opened Encodings
  import Cbor

  // The enclave writes this wallet's nullifier secret into the slots the client left
  // open, and changes nothing else.

  const MAX_PROVE_INPUTS := 52
  const MAX_PROVER_TARGET_LEN := 256

  const CIRCUIT_TYPE := Name("circuitType")
  const INPUTS := Name("inputs")
  const OUTPUTS := Name("outputs")
  const IS_DUMMY := Name("isDummy")
  const SECRET := Name("nullifierSecret")
  const USER_SECRET := Name("userNullifierSecret")

  // JSON trees.

  /** `Map::get`. */
  function Find(ms: seq<Member>, key: Text): Option<Json> {
    if ms == [] then None else if ms[0].key == key then Some(ms[0].value) else Find(ms[1..], key)
  }

  function Get(v: Json, key: Text): Option<Json> {
    if v.Obj? then Find(v.members, key) else None
  }

  /** Writes through `Map::get_mut`. */
  function Replace(ms: seq<Member>, key: Text, value: Json): (r: seq<Member>)
    ensures |r| == |ms| && forall i :: 0 <= i < |ms| ==> r[i].key == ms[i].key
  {
    if ms == [] then []
    else if ms[0].key == key then [Member(key, value)] + ms[1..]
    else [ms[0]] + Replace(ms[1..], key, value)
  }

  function Put(v: Json, key: Text, value: Json): Json {
    if v.Obj? then Obj(Replace(v.members, key, value)) else v
  }

  lemma {:induction false} FindAfterReplace(ms: seq<Member>, key: Text, value: Json, k: Text)
    ensures Find(Replace(ms, key, value), k)
         == if k == key && Find(ms, key).Some? then Some(value) else Find(ms, k)
  {
    if ms != [] {
      FindAfterReplace(ms[1..], key, value, k);
      if ms[0].key == key {
        assert ([Member(key, value)] + ms[1..])[1..] == ms[1..];
      } else {
        assert Replace(ms, key, value)[1..] == Replace(ms[1..], key, value);
      }
    }
  }

  lemma GetAfterPut(v: Json, key: Text, value: Json, k: Text)
    ensures Get(Put(v, key, value), k) == if k == key && Get(v, key).Some? then Some(value) else Get(v, k)
  {
    if v.Obj? { FindAfterReplace(v.members, key, value, k); }
  }

  datatype Step = Field(key: Text) | Index(index: nat)

  type Path = seq<Step>

  function Child(v: Json, step: Step): Option<Json> {
    match step
    case Field(key) => Get(v, key)
    case Index(i) => if v.Arr? && i < |v.items| then Some(v.items[i]) else None
  }

  /** The value at a path. */
  function At(v: Json, path: Path): Option<Json>
    decreases |path|
  {
    if path == [] then Some(v)
    else
      var child := Child(v, path[0]);
      if child.None? then None else At(child.value, path[1..])
  }

  /** Two nodes with the same member names, or as many items. */
  predicate SameShape(v: Json, w: Json) {
    if v.Obj? then
      w.Obj? && |v.members| == |w.members|
      && forall i :: 0 <= i < |v.members| ==> v.members[i].key == w.members[i].key
    else if v.Arr? then w.Arr? && |v.items| == |w.items|
    else v == w
  }

  // The field encoding.

  function HexOf(n: nat): (r: Text)
    ensures r != []
  {
    if n < 16 then [HexDigit(n)] else HexOf(n / 16) + [HexDigit(n % 16)]
  }

  function TrimZeros(s: Text): Text {
    if s != [] && s[0] == 48 then TrimZeros(s[1..]) else s
  }

  /** `field_hex`. */
  function FieldHex(secret: Bytes): Text {
    var digits := TrimZeros(EncodeLowerHex(secret));
    [48, 120] + if digits == [] then [48] else digits
  }

  lemma {:induction false} TrimAppended(s: Text, c: Code)
    ensures TrimZeros(s + [c]) == if TrimZeros(s) == [] then TrimZeros([c]) else TrimZeros(s) + [c]
  {
    if s == [] {
      assert s + [c] == [c];
    } else if s[0] == 48 {
      assert (s + [c])[1..] == s[1..] + [c];
      TrimAppended(s[1..], c);
    } else {
      assert (s + [c])[0] == s[0];
    }
  }

  lemma {:induction false} HexOfAppended(a: Bytes, b: Byte)
    ensures EncodeLowerHex(a + [b]) == EncodeLowerHex(a) + [HexDigit(b / 16)] + [HexDigit(b % 16)]
  {
    if a == [] {
      assert a + [b] == [b];
      assert EncodeLowerHex([b]) == [HexDigit(b / 16), HexDigit(b % 16)] + EncodeLowerHex([]);
    } else {
      assert (a + [b])[1..] == a[1..] + [b];
      HexOfAppended(a[1..], b);
    }
  }

  /** One digit more: the trimmed text follows the integer. */
  lemma AppendDigit(s: Text, n: nat, d: nat)
    requires d < 16 && TrimZeros(s) == (if n == 0 then [] else HexOf(n))
    ensures TrimZeros(s + [HexDigit(d)]) == if n * 16 + d == 0 then [] else HexOf(n * 16 + d)
  {
    TrimAppended(s, HexDigit(d));
    assert (n * 16 + d) / 16 == n && (n * 16 + d) % 16 == d;
  }

  lemma {:induction false} TrimmedHex(secret: Bytes)
    ensures TrimZeros(EncodeLowerHex(secret)) == if Cbor.Be(secret) == 0 then [] else HexOf(Cbor.Be(secret))
  {
    if secret != [] {
      var n := |secret| - 1;
      var a, b := secret[..n], secret[n];
      assert secret == a + [b];
      TrimmedHex(a);
      HexOfAppended(a, b);
      AppendDigit(EncodeLowerHex(a), Cbor.Be(a), b / 16);
      AppendDigit(EncodeLowerHex(a) + [HexDigit(b / 16)], Cbor.Be(a) * 16 + b / 16, b % 16);
      assert Cbor.Be(secret) == (Cbor.Be(a) * 16 + b / 16) * 16 + b % 16;
    }
  }

  lemma {:induction false} HexOfStarts(n: nat)
    ensures HexOf(n)[0] == 48 <==> n == 0
  {
    if n >= 16 { HexOfStarts(n / 16); }
  }

  /** A secret is written as its big-endian integer in hex, without a leading zero unless it is zero. */
  lemma FieldHexIsTheInteger(secret: Bytes)
    ensures FieldHex(secret) == [48, 120] + HexOf(Cbor.Be(secret))
    ensures FieldHex(secret)[2] == 48 <==> Cbor.Be(secret) == 0
  {
    TrimmedHex(secret);
    HexOfStarts(Cbor.Be(secret));
  }

  // Completion.

  predicate IsTransfer(circuit: Text) {
    circuit == Name("transfer-confidential") || circuit == Name("transfer-ring")
  }

  predicate IsMerge(circuit: Text) { circuit == Name("merge") || circuit == Name("merge-ring") }

  /** The request's circuit, if it names one. */
  function Circuit(request: Json): Option<Text> {
    var c := Get(request, CIRCUIT_TYPE);
    if c.Some? && c.value.Str? then Some(c.value.s) else None
  }

  predicate Sized(v: Option<Json>) { v.Some? && v.value.Arr? && 0 < |v.value.items| <= MAX_PROVE_INPUTS }

  predicate IsOpen(slot: Option<Json>) { slot == Some(Null) }

  /** A slot `fill` accepts. */
  predicate Fillable(slot: Option<Json>) { slot.Some? && (slot.value.Null? || slot.value.Str?) }

  /** An input `complete` accepts: it says whether it is a dummy, and a dummy leaves no slot open. */
  predicate AcceptedInput(input: Json) {
    && Get(input, IS_DUMMY).Some? && Get(input, IS_DUMMY).value.Str?
    && Fillable(Get(input, SECRET))
    && (IsOpen(Get(input, SECRET)) ==> Get(input, IS_DUMMY) == Some(Str(Name("0x0"))))
  }

  /** The requests `complete` accepts. */
  predicate Completable(request: Json) {
    var circuit := Circuit(request);
    && circuit.Some? && Sized(Get(request, INPUTS))
    && if IsTransfer(circuit.value) then
         && (forall i :: 0 <= i < |Get(request, INPUTS).value.items| ==> AcceptedInput(Get(request, INPUTS).value.items[i]))
         && exists i :: 0 <= i < |Get(request, INPUTS).value.items|
              && IsOpen(Get(Get(request, INPUTS).value.items[i], SECRET))
       else IsMerge(circuit.value) && IsOpen(Get(request, USER_SECRET))
  }

  function FilledInput(input: Json, secret: Text): Json {
    if IsOpen(Get(input, SECRET)) then Put(input, SECRET, Str(secret)) else input
  }

  function FilledInputs(inputs: seq<Json>, secret: Text): (r: seq<Json>)
    ensures |r| == |inputs| && forall i :: 0 <= i < |inputs| ==> r[i] == FilledInput(inputs[i], secret)
  {
    seq(|inputs|, i requires 0 <= i < |inputs| => FilledInput(inputs[i], secret))
  }

  /** The request with the secret in every open slot. */
  function Completed(request: Json, secret: Text): Json
    requires Completable(request)
  {
    if IsTransfer(Circuit(request).value) then
      Put(request, INPUTS, Arr(FilledInputs(Get(request, INPUTS).value.items, secret)))
    else Put(request, USER_SECRET, Str(secret))
  }

  /** The paths of the circuit's secret slots. */
  predicate IsSlot(request: Json, path: Path) {
    var circuit := Circuit(request);
    && circuit.Some?
    && if IsTransfer(circuit.value) then
         |path| == 3 && path[0] == Field(INPUTS) && path[1].Index? && path[2] == Field(SECRET)
       else IsMerge(circuit.value) && path == [Field(USER_SECRET)]
  }

  predicate OpenSlot(request: Json, path: Path) { IsSlot(request, path) && At(request, path) == Some(Null) }

  /** Some open slot lies below `path`. */
  ghost predicate AboveOpenSlot(request: Json, path: Path) {
    exists slot :: OpenSlot(request, slot) && |path| < |slot| && slot[..|path|] == path
  }

  lemma PutAt(v: Json, key: Text, value: Json, path: Path)
    requires Get(v, key).Some?
    ensures At(Put(v, key, value), path) ==
      if path == [] then Some(Put(v, key, value))
      else if path[0] == Field(key) then At(value, path[1..])
      else At(v, path)
  {
    if path != [] && path[0].Field? { GetAfterPut(v, key, value, path[0].key); }
  }

  /** What completion does to the value at a path, `above` an open slot or not. */
  predicate FilledBelow(request: Json, completed: Json, secret: Text, path: Path, above: bool) {
    if OpenSlot(request, path) then At(completed, path) == Some(Str(secret))
    else if above then
      At(request, path).Some? && At(completed, path).Some? && SameShape(At(request, path).value, At(completed, path).value)
    else At(completed, path) == At(request, path)
  }

  ghost predicate FilledAt(request: Json, completed: Json, secret: Text, path: Path) {
    FilledBelow(request, completed, secret, path, AboveOpenSlot(request, path))
  }

  lemma BelowNothing(path: Path, s: Text)
    requires path != []
    ensures At(Null, path) == None && At(Str(s), path) == None
  {
  }

  lemma MergeFills(request: Json, secret: Text, path: Path)
    requires Completable(request) && IsMerge(Circuit(request).value)
    ensures FilledAt(request, Completed(request, secret), secret, path)
  {
    CircuitsApart(Circuit(request).value);
    PutAt(request, USER_SECRET, Str(secret), path);
    var slot := [Field(USER_SECRET)];
    assert slot[1..] == [];
    assert OpenSlot(request, slot);
    if path == [] {
      assert slot[..0] == path;
      assert AboveOpenSlot(request, path);
    } else if path[0] == Field(USER_SECRET) {
      if path[1..] == [] {
        assert path == slot;
      } else {
        BelowNothing(path[1..], secret);
        assert !AboveOpenSlot(request, path);
      }
    } else {
      assert !AboveOpenSlot(request, path);
    }
  }

  lemma CircuitsApart(circuit: Text)
    ensures !(IsTransfer(circuit) && IsMerge(circuit))
  {
    assert |Name("merge")| == 5 && |Name("merge-ring")| == 10;
    assert |Name("transfer-confidential")| == 21 && |Name("transfer-ring")| == 13;
  }

  /** Slots of a transfer, below one input. */
  lemma TransferSlot(request: Json, i: nat)
    requires Completable(request) && IsTransfer(Circuit(request).value)
    requires i < |Get(request, INPUTS).value.items|
    ensures OpenSlot(request, [Field(INPUTS), Index(i), Field(SECRET)])
       <==> IsOpen(Get(Get(request, INPUTS).value.items[i], SECRET))
  {
    AtThree(request, Field(INPUTS), Index(i), Field(SECRET));
  }

  /** Inside one input: the slot is filled, its object keeps its members, the rest is untouched. */
  lemma InputFills(input: Json, secret: Text, path: Path)
    ensures var filled := FilledInput(input, secret);
            if !IsOpen(Get(input, SECRET)) then filled == input
            else if path == [] then SameShape(input, filled)
            else if path == [Field(SECRET)] then At(filled, path) == Some(Str(secret))
            else At(filled, path) == At(input, path)
  {
    if IsOpen(Get(input, SECRET)) {
      PutAt(input, SECRET, Str(secret), path);
      if path != [] && path[0] == Field(SECRET) {
        if path[1..] == [] {
          assert path == [Field(SECRET)];
        } else {
          BelowNothing(path[1..], secret);
        }
      }
    }
  }

  /** The paths above a transfer's open slots. */
  predicate AboveInTransfer(request: Json, path: Path) {
    || path == [] || path == [Field(INPUTS)]
    || (|path| == 2 && path[0] == Field(INPUTS) && path[1].Index? && OpenSlot(request, path + [Field(SECRET)]))
  }

  lemma OpenTransferSlot(request: Json) returns (slot: Path)
    requires Completable(request) && IsTransfer(Circuit(request).value)
    ensures |slot| == 3 && OpenSlot(request, slot)
  {
    var items := Get(request, INPUTS).value.items;
    var i :| 0 <= i < |items| && IsOpen(Get(items[i], SECRET));
    slot := [Field(INPUTS), Index(i), Field(SECRET)];
    TransferSlot(request, i);
  }

  lemma BelowTransfer(request: Json, path: Path, slot: Path)
    requires Completable(request) && IsTransfer(Circuit(request).value)
    requires OpenSlot(request, slot) && |path| < |slot| && slot[..|path|] == path
    ensures AboveInTransfer(request, path)
  {
    if |path| == 2 { assert slot == path + [Field(SECRET)]; }
    if |path| == 1 { assert path == [slot[0]]; }
  }

  lemma AboveIsAboveInTransfer(request: Json, path: Path)
    requires Completable(request) && IsTransfer(Circuit(request).value)
    ensures AboveOpenSlot(request, path) <==> AboveInTransfer(request, path)
  {
    if AboveInTransfer(request, path) {
      if |path| == 2 {
        assert (path + [Field(SECRET)])[..2] == path;
      } else {
        var slot := OpenTransferSlot(request);
        assert slot[..|path|] == path;
      }
    }
    if AboveOpenSlot(request, path) {
      var above :| OpenSlot(request, above) && |path| < |above| && above[..|path|] == path;
      BelowTransfer(request, path, above);
    }
  }

  lemma AtInputs(v: Json, path: Path)
    requires |path| >= 2 && path[0] == Field(INPUTS)
    ensures At(v, path) ==
      if Get(v, INPUTS).None? || Child(Get(v, INPUTS).value, path[1]).None? then None
      else At(Child(Get(v, INPUTS).value, path[1]).value, path[2..])
  {
    assert path[1..][1..] == path[2..] && path[1..][0] == path[1];
  }

  lemma TransferFills(request: Json, secret: Text, path: Path)
    requires Completable(request) && IsTransfer(Circuit(request).value)
    ensures FilledBelow(request, Completed(request, secret), secret, path, AboveInTransfer(request, path))
  {
    var items := Get(request, INPUTS).value.items;
    var filled := Arr(FilledInputs(items, secret));
    PutAt(request, INPUTS, filled, path);
    if path != [] && path[0] == Field(INPUTS) {
      if |path| == 1 {
        assert path == [Field(INPUTS)] && path[1..] == [];
      } else if path[1].Index? && path[1].index < |items| {
        InsideInput(request, secret, path);
      } else {
        GetAfterPut(request, INPUTS, filled, INPUTS);
        AtInputs(request, path);
        AtInputs(Completed(request, secret), path);
        AtInputs(request, path + [Field(SECRET)]);
      }
    }
  }

  lemma InsideInput(request: Json, secret: Text, path: Path)
    requires Completable(request) && IsTransfer(Circuit(request).value)
    requires |path| >= 2 && path[0] == Field(INPUTS) && path[1].Index?
    requires path[1].index < |Get(request, INPUTS).value.items|
    ensures FilledBelow(request, Completed(request, secret), secret, path, AboveInTransfer(request, path))
  {
    var i, rest := path[1].index, path[2..];
    var input := Get(request, INPUTS).value.items[i];
    AtInputOf(request, secret, path);
    TransferSlot(request, i);
    InputFills(input, secret, rest);
    if |path| == 2 {
      assert path + [Field(SECRET)] == [Field(INPUTS), Index(i), Field(SECRET)];
      assert rest == [];
    } else if rest == [Field(SECRET)] {
      assert path == [Field(INPUTS), Index(i), Field(SECRET)];
    } else if |path| == 3 {
      assert rest == [path[2]];
    }
  }

  lemma AtInputOf(request: Json, secret: Text, path: Path)
    requires Completable(request) && IsTransfer(Circuit(request).value)
    requires |path| >= 2 && path[0] == Field(INPUTS) && path[1].Index?
    requires path[1].index < |Get(request, INPUTS).value.items|
    ensures var input := Get(request, INPUTS).value.items[path[1].index];
            && At(request, path) == At(input, path[2..])
            && At(Completed(request, secret), path) == At(FilledInput(input, secret), path[2..])
  {
    var filled := Arr(FilledInputs(Get(request, INPUTS).value.items, secret));
    GetAfterPut(request, INPUTS, filled, INPUTS);
    AtInputs(request, path);
    AtInputs(Completed(request, secret), path);
  }

  /** A completed request differs from the submitted one exactly at its open slots, which hold the secret. */
  lemma CompletionFillsExactlyTheOpenSlots(request: Json, secret: Text, path: Path)
    requires Completable(request)
    ensures FilledAt(request, Completed(request, secret), secret, path)
  {
    if IsTransfer(Circuit(request).value) {
      TransferFills(request, secret, path);
      AboveIsAboveInTransfer(request, path);
    } else {
      MergeFills(request, secret, path);
    }
  }

  /** At least one slot is open, and none is a dummy input's. */
  lemma OpenSlotsAreReal(request: Json)
    requires Completable(request)
    ensures exists path :: OpenSlot(request, path)
    ensures forall path :: OpenSlot(request, path) && |path| == 3 ==>
      At(request, [path[0], path[1], Field(IS_DUMMY)]) == Some(Str(Name("0x0")))
  {
    if IsTransfer(Circuit(request).value) {
      var items := Get(request, INPUTS).value.items;
      var i :| 0 <= i < |items| && IsOpen(Get(items[i], SECRET));
      TransferSlot(request, i);
      forall path | OpenSlot(request, path) && |path| == 3
        ensures At(request, [path[0], path[1], Field(IS_DUMMY)]) == Some(Str(Name("0x0")))
      {
        assert path == [path[0], path[1], path[2]];
        AtThree(request, path[0], path[1], path[2]);
        AtThree(request, path[0], path[1], Field(IS_DUMMY));
      }
    } else {
      var slot := [Field(USER_SECRET)];
      assert slot[1..] == [];
      assert OpenSlot(request, slot);
    }
  }

  lemma AtThree(v: Json, a: Step, b: Step, c: Step)
    ensures At(v, [a, b, c]) ==
      if Child(v, a).Some? && Child(Child(v, a).value, b).Some?
      then Child(Child(Child(v, a).value, b).value, c) else None
  {
    var p, q: Path := [a, b, c], [b, c];
    assert p[1..] == q && q[1..] == [c];
    if Child(v, a).Some? && Child(Child(v, a).value, b).Some? { AtOne(Child(Child(v, a).value, b).value, c); }
  }

  lemma AtOne(v: Json, step: Step)
    ensures At(v, [step]) == Child(v, step)
  {
    var p := [step];
    assert p[1..] == [];
  }
}
