/**
 Lowercase hex, canonical decimal `u64`, and the canonical-JSON test. Each decoder
 accepts one text for a value: hex in lower case only, decimals without sign or
 leading zero and below 2^64, JSON exactly as the canonical printer writes it. What
 parses JSON is a library, of which only reading back is assumed.
 */
module Encodings {
  import opened Basics
  import opened Unicode
  import opened Json
  import opened Jcs

  // Hex.

  function EncodeLowerHex(bytes: Bytes): Text {
    if bytes == [] then []
    else [HexDigit(bytes[0] / 16), HexDigit(bytes[0] % 16)] + EncodeLowerHex(bytes[1..])
  }

  function HexValue(c: Code): Option<Byte> {
    if 48 <= c <= 57 then Some(c - 48)
    else if 97 <= c <= 102 then Some(c - 87)
    else if 65 <= c <= 70 then Some(c - 55)
    else None
  }

  /** The hex library's decoder, which takes either case. */
  function DecodeHex(input: Text): Option<Bytes> {
    if input == [] then Some([])
    else if |input| == 1 then None
    else
      var high, low, rest := HexValue(input[0]), HexValue(input[1]), DecodeHex(input[2..]);
      if high.None? || low.None? || rest.None? || high.value >= 16 || low.value >= 16 then None
      else Some([high.value * 16 + low.value] + rest.value)
  }

  function DecodeLowerHex(input: Text): Option<Bytes> {
    var decoded := DecodeHex(input);
    if decoded.Some? && EncodeLowerHex(decoded.value) == input then decoded else None
  }

  lemma {:induction false} DecodeHexOfEncoded(bytes: Bytes)
    ensures DecodeHex(EncodeLowerHex(bytes)) == Some(bytes)
  {
    if bytes != [] {
      DecodeHexOfEncoded(bytes[1..]);
      assert EncodeLowerHex(bytes)[2..] == EncodeLowerHex(bytes[1..]);
      assert bytes == [bytes[0]] + bytes[1..];
    }
  }

  /** `decode_lower_hex` accepts exactly the encodings, each for its bytes. */
  lemma LowerHexIsCanonical(input: Text, bytes: Bytes)
    ensures DecodeLowerHex(input) == Some(bytes) <==> EncodeLowerHex(bytes) == input
  {
    DecodeHexOfEncoded(bytes);
  }

  lemma {:induction false} LowerHexLength(bytes: Bytes)
    ensures |EncodeLowerHex(bytes)| == 2 * |bytes|
    ensures forall i :: 0 <= i < |EncodeLowerHex(bytes)| ==>
      48 <= EncodeLowerHex(bytes)[i] <= 57 || 97 <= EncodeLowerHex(bytes)[i] <= 102
  {
    if bytes != [] { LowerHexLength(bytes[1..]); }
  }

  // Decimals.

  const U64_LIMIT: nat := 0x1_0000_0000_0000_0000

  /** `str::parse` on digits. */
  function ParseDigits(input: Text): nat
    requires forall i :: 0 <= i < |input| ==> Digit(input[i])
  {
    if input == [] then 0
    else
      var last := input[|input| - 1];
      assert Digit(last);
      ParseDigits(input[..|input| - 1]) * 10 + (last as int - 48)
  }

  function DecodeDecimalU64(input: Text): Option<nat> {
    if input == [] then None
    else if input[0] == 43 || input[0] == 45 then None
    else if |input| > 1 && input[0] == 48 then None
    else if exists i :: 0 <= i < |input| && !Digit(input[i]) then None
    else
      var value := ParseDigits(input);
      if value < U64_LIMIT then Some(value) else None
  }

  lemma {:induction false} DigitsShape(n: nat)
    ensures Digits(n)[0] == 48 ==> n == 0
    ensures ParseDigits(Digits(n)) == n
  {
    if n >= 10 {
      DigitsShape(n / 10);
      assert Digits(n)[..|Digits(n)| - 1] == Digits(n / 10);
    } else {
      assert Digits(n) == [48 + n];
      assert Digits(n)[..0] == [];
    }
  }

  lemma {:induction false} DigitsOfParsed(input: Text)
    requires input != [] && forall i :: 0 <= i < |input| ==> Digit(input[i])
    requires |input| > 1 ==> input[0] != 48
    ensures Digits(ParseDigits(input)) == input
    ensures |input| > 1 ==> ParseDigits(input) >= 10
  {
    var front := input[..|input| - 1];
    assert input == front + [input[|input| - 1]];
    if |input| > 1 {
      DigitsOfParsed(front);
      if |front| == 1 { assert front[..0] == []; }
    } else {
      assert ParseDigits(front) == 0;
    }
  }

  /** `decode_decimal_u64` accepts exactly the canonical decimals below 2^64. */
  lemma DecimalU64IsCanonical(input: Text, n: nat)
    ensures DecodeDecimalU64(input) == Some(n) <==> n < U64_LIMIT && Digits(n) == input
  {
    DigitsShape(n);
    if DecodeDecimalU64(input) == Some(n) { DigitsOfParsed(input); }
  }

  // Canonical JSON.

  const I64_MIN: int := -0x8000_0000_0000_0000

  /** How many arrays and objects deep `serde_json` reads before its recursion limit stops it. */
  const MAX_NESTING := 127

  /**
   The float-free values `serde_json` can hold: its integers are those of `i64` and
   `u64` (any other reads as a float), its strings are Rust strings, and values nest at
   most `depth` deep.
   */
  predicate Readable(v: Json, depth: nat) {
    match v
    case Num(n) => I64_MIN <= n < U64_LIMIT
    case Str(s) => Scalars(s)
    case Arr(items) => depth > 0 && forall i :: 0 <= i < |items| ==> Readable(items[i], depth - 1)
    case Obj(ms) =>
      depth > 0 && forall i :: 0 <= i < |ms| ==> Scalars(ms[i].key) && Readable(ms[i].value, depth - 1)
    case _ => true
  }

  /**
   What is assumed of the JSON library: it repeats no key, its integers, strings and
   nesting are bounded so, and it reads back every such value, up to member order.
   */
  ghost predicate Reads(parse: Text -> Option<Json>) {
    && (forall t :: parse(t).Some? ==> WellFormed(parse(t).value))
    && (forall t :: parse(t).Some? && FloatFree(parse(t).value) ==> Readable(parse(t).value, MAX_NESTING))
    && (forall v :: WellFormed(v) && FloatFree(v) && Readable(v, MAX_NESTING) ==>
          parse(Canonical(v)).Some? && FloatFree(parse(Canonical(v)).value)
          && SameValue(parse(Canonical(v)).value, v))
  }

  predicate IsRfc8785(parse: Text -> Option<Json>, input: Text) {
    var value := parse(input);
    value.Some? && FloatFree(value.value) && Canonical(value.value) == input
  }

  lemma {:induction false} SameValueReadable(v: Json, w: Json, depth: nat)
    requires SameValue(v, w) && Readable(w, depth)
    ensures Readable(v, depth)
  {
    match v
    case Arr(items) =>
      forall i | 0 <= i < |items| ensures Readable(items[i], depth - 1) {
        SameValueReadable(items[i], w.items[i], depth - 1);
      }
    case Obj(ms) =>
      forall i | 0 <= i < |ms| ensures Scalars(ms[i].key) && Readable(ms[i].value, depth - 1) {
        var j :| 0 <= j < |w.members| && SameMember(ms[i], w.members[j]);
        SameValueReadable(ms[i].value, w.members[j].value, depth - 1);
      }
    case _ =>
  }

  /** `is_rfc8785` accepts a value's canonical text exactly when the parser can hold the value. */
  lemma CanonicalTextIsAcceptedExactly(parse: Text -> Option<Json>, v: Json)
    requires Reads(parse) && WellFormed(v) && FloatFree(v)
    ensures IsRfc8785(parse, Canonical(v)) <==> Readable(v, MAX_NESTING)
  {
    if IsRfc8785(parse, Canonical(v)) {
      var w := parse(Canonical(v)).value;
      CanonicalTextNamesValue(v, w);
      SameValueReadable(v, w, MAX_NESTING);
    }
    if Readable(v, MAX_NESTING) {
      SameValueSameCanon(parse(Canonical(v)).value, v);
    }
  }

  /** And it accepts nothing but those texts. */
  lemma Rfc8785AcceptsCanonicalTexts(parse: Text -> Option<Json>, input: Text)
    requires Reads(parse)
    ensures IsRfc8785(parse, input) <==>
      exists v :: WellFormed(v) && FloatFree(v) && Readable(v, MAX_NESTING) && Canonical(v) == input
  {
    if IsRfc8785(parse, input) {
      var v := parse(input).value;
      assert WellFormed(v) && FloatFree(v) && Readable(v, MAX_NESTING) && Canonical(v) == input;
    }
    if v :| WellFormed(v) && FloatFree(v) && Readable(v, MAX_NESTING) && Canonical(v) == input {
      CanonicalTextIsAcceptedExactly(parse, v);
    }
  }

  /** 2^64 has a canonical text that is refused: the parser makes a float of it. */
  lemma TwoToThe64IsRefused(parse: Text -> Option<Json>)
    requires Reads(parse)
    ensures Canonical(Num(U64_LIMIT)) == Digits(U64_LIMIT) && !IsRfc8785(parse, Digits(U64_LIMIT))
  {
    CanonicalTextIsAcceptedExactly(parse, Num(U64_LIMIT));
  }
}
