/** The reader as it runs, advancing an offset, and the COSE signature input. */
module CborReader {
  import opened Basics
  import opened Unicode
  import opened Cbor
  import opened CborRoundTrip
  import Digest

  /** `Reader`; a method that answers `None` threw. */
  class Reader {
    const bytes: Bytes
    const allowIndefiniteRootMap: bool
    var offset: nat

    constructor (bytes: Bytes, allowIndefiniteRootMap: bool)
      ensures this.bytes == bytes && this.allowIndefiniteRootMap == allowIndefiniteRootMap && offset == 0
    {
      this.bytes := bytes;
      this.allowIndefiniteRootMap := allowIndefiniteRootMap;
      offset := 0;
    }

    ghost predicate Valid()
      reads this
    {
      offset <= |bytes|
    }

    /** The unread bytes. */
    ghost function Left(): Bytes
      reads this
      requires Valid()
    {
      bytes[offset..]
    }

    /** Whether the outcome of a read is what the specification reads from `was`. */
    ghost predicate Agrees<T>(spec: Read<T>, r: Option<T>)
      reads this
      requires Valid()
    {
      if r.Some? then spec == Done(r.value, Left()) else spec.Fail?
    }

    method Take(length: nat) returns (r: Option<Bytes>)
      requires Valid()
      modifies this`offset
      ensures Valid()
      ensures r.Some? <==> length <= |old(Left())|
      ensures r.Some? ==> r.value == old(Left())[..length] && Left() == old(Left())[length..]
    {
      if |bytes| - offset < length {
        return None;
      }
      var start := offset;
      offset := offset + length;
      r := Some(bytes[start..offset]);
    }

    method TakeByte() returns (r: Option<Byte>)
      requires Valid()
      modifies this`offset
      ensures Valid()
      ensures r.Some? <==> old(Left()) != []
      ensures r.Some? ==> r.value == old(Left())[0] && Left() == old(Left())[1..]
    {
      if offset >= |bytes| {
        return None;
      }
      r := Some(bytes[offset]);
      offset := offset + 1;
    }

    /** Reads past nothing: the byte after the end is not a break. */
    method NextIsBreak() returns (b: bool)
      requires Valid()
      ensures b <==> Left() != [] && Left()[0] == BREAK
    {
      b := offset < |bytes| && bytes[offset] == 0xff;
    }

    /** The argument of a head, refusing any but its shortest form. */
    method ReadArgument(additional: nat) returns (r: Option<nat>)
      requires Valid()
      modifies this`offset
      ensures Valid() && Agrees(Argument(additional, old(Left())), r)
    {
      if additional < 24 {
        return Some(additional);
      }
      if additional == 24 {
        var value := TakeByte();
        if value.None? || value.value < 24 {
          return None;
        }
        return value;
      }
      if additional == 25 || additional == 26 || additional == 27 {
        var width := if additional == 25 then 2 else if additional == 26 then 4 else 8;
        var taken := Take(width);
        if taken.None? {
          return None;
        }
        var value := BigEndian(taken.value);
        var minimum := if additional == 25 then 0x100 else if additional == 26 then 0x1_0000 else 0x1_0000_0000;
        if value < minimum || value > MAX_SAFE {
          return None;
        }
        return Some(value);
      }
      return None;
    }

    method ReadValue(depth: nat) returns (r: Option<Value>)
      requires Valid()
      modifies this`offset
      ensures Valid()
      ensures Agrees(if depth == 0 then ReadRoot(old(Left()), allowIndefiniteRootMap) else ReadItem(old(Left()), depth), r)
      decreases if depth <= 17 then 17 - depth else 0, 1
    {
      if depth > MAX_DEPTH {
        return None;
      }
      var first := TakeByte();
      if first.None? {
        return None;
      }
      var initial := first.value;
      var major := initial / 32;
      var additional := initial % 32;
      if major == 7 {
        r := if additional == 20 then Some(Bool(false))
             else if additional == 21 then Some(Bool(true))
             else if additional == 22 then Some(Null)
             else None;
        return;
      }
      if additional == 31 && major == 5 && depth == 0 && allowIndefiniteRootMap {
        var entries := IndefiniteRootMap();
        return if entries.Some? then Some(Map(entries.value)) else None;
      }
      var argument := ReadArgument(additional);
      if argument.None? {
        return None;
      }
      r := ReadBody(major, argument.value, depth);
    }

    /** What follows a head. */
    method ReadBody(major: nat, argument: nat, depth: nat) returns (r: Option<Value>)
      requires Valid() && depth <= MAX_DEPTH && major < 7
      modifies this`offset
      ensures Valid() && Agrees(Body(major, argument, old(Left()), depth), r)
      decreases 17 - depth, 0
    {
      match major {
        case 0 => r := Some(Int(argument));
        case 1 => r := Some(Int(-1 - argument));
        case 2 =>
          var taken := Take(argument);
          r := if taken.Some? then Some(Blob(taken.value)) else None;
        case 3 =>
          var taken := Take(argument);
          r := if taken.Some? && FromUtf8(taken.value).Some? then Some(Str(taken.value)) else None;
        case 4 =>
          var items := ReadArray(argument, depth + 1);
          r := if items.Some? then Some(Array(items.value)) else None;
        case 5 =>
          var entries := ReadMap(argument, depth + 1);
          r := if entries.Some? then Some(Map(entries.value)) else None;
        case _ =>
          if argument != COSE_SIGN1_TAG || depth != 0 {
            return None;
          }
          r := ReadValue(depth + 1);
      }
    }

    method ReadArray(argument: nat, depth: nat) returns (r: Option<seq<Value>>)
      requires Valid() && 0 < depth <= 17
      modifies this`offset
      ensures Valid() && Agrees(ReadItems(old(Left()), argument, depth), r)
      decreases 17 - depth, 2
    {
      var items: seq<Value> := [];
      var index := 0;
      PrependNothing(ReadItems(Left(), argument, depth));
      while index < argument
        invariant Valid() && 0 <= index <= argument
        invariant ReadItems(old(Left()), argument, depth) == Prepend(items, ReadItems(Left(), argument - index, depth))
      {
        var item := ReadValue(depth);
        if item.None? {
          return None;
        }
        PrependStep(items, item.value, ReadItems(Left(), argument - index - 1, depth));
        items := items + [item.value];
        index := index + 1;
      }
      assert items + [] == items;
      r := Some(items);
    }

    method ReadMap(argument: nat, depth: nat) returns (r: Option<seq<Entry>>)
      requires Valid() && 0 < depth <= 17
      modifies this`offset
      ensures Valid() && Agrees(ReadEntries(old(Left()), argument, depth, []), r)
      decreases 17 - depth, 2
    {
      var entries: seq<Entry> := [];
      var index := 0;
      while index < argument
        invariant Valid() && 0 <= index <= argument
        invariant ReadEntries(old(Left()), argument, depth, []) == ReadEntries(Left(), argument - index, depth, entries)
      {
        var key := ReadValue(depth);
        if key.None? || !IsKey(key.value) {
          return None;
        }
        var known := Has(entries, key.value);
        if known {
          return None;
        }
        var value := ReadValue(depth);
        if value.None? {
          return None;
        }
        entries := entries + [Entry(key.value, value.value)];
        index := index + 1;
      }
      r := Some(entries);
    }

    /** `#indefiniteRootMap`. Terminates because every entry takes bytes. */
    method IndefiniteRootMap() returns (r: Option<seq<Entry>>)
      requires Valid()
      modifies this`offset
      ensures Valid() && Agrees(ReadToBreak(old(Left()), []), r)
      decreases 17, 0
    {
      var entries: seq<Entry> := [];
      var atBreak := NextIsBreak();
      while !atBreak
        invariant Valid() && (atBreak <==> Left() != [] && Left()[0] == BREAK)
        invariant ReadToBreak(old(Left()), []) == ReadToBreak(Left(), entries)
        decreases |bytes| - offset
      {
        if |entries| >= MAX_INDEFINITE_ROOT_MAP_ENTRIES {
          return None;
        }
        var key := ReadValue(1);
        if key.None? || !IsKey(key.value) {
          return None;
        }
        var missing := NextIsBreak();
        if missing {
          return None;
        }
        var known := Has(entries, key.value);
        if known {
          return None;
        }
        var value := ReadValue(1);
        if value.None? {
          return None;
        }
        entries := entries + [Entry(key.value, value.value)];
        atBreak := NextIsBreak();
      }
      var _ := TakeByte();
      r := Some(entries);
    }
  }

  /** `Map.has`. */
  method Has(entries: seq<Entry>, key: Value) returns (b: bool)
    ensures b <==> HasKey(entries, key)
  {
    for i := 0 to |entries|
      invariant !HasKey(entries[..i], key)
    {
      if SameKey(entries[i].key, key) {
        return true;
      }
    }
    assert entries[..|entries|] == entries;
    return false;
  }

  method BigEndian(bytes: Bytes) returns (value: nat)
    ensures value == Be(bytes)
  {
    value := 0;
    for i := 0 to |bytes|
      invariant value == Be(bytes[..i])
    {
      value := value * 256 + bytes[i];
      assert bytes[..i + 1][..i] == bytes[..i];
    }
    assert bytes[..|bytes|] == bytes;
  }

  function Body(major: nat, argument: nat, s: Bytes, depth: nat): Read<Value>
    requires major < 7
  {
    match major
    case 0 => Done(Int(argument), s)
    case 1 => Done(Int(-1 - argument), s)
    case 2 => ReadBlob(s, argument)
    case 3 => ReadText(s, argument)
    case 4 =>
      var items := ReadItems(s, argument, depth + 1);
      if items.Fail? then Fail else Done(Array(items.value), items.rest)
    case 5 =>
      var entries := ReadEntries(s, argument, depth + 1, []);
      if entries.Fail? then Fail else Done(Map(entries.value), entries.rest)
    case _ =>
      if argument != COSE_SIGN1_TAG || depth != 0 then Fail else ReadItem(s, depth + 1)
  }

  ghost function Prepend(items: seq<Value>, r: Read<seq<Value>>): Read<seq<Value>> {
    if r.Fail? then Fail else Done(items + r.value, r.rest)
  }

  lemma PrependNothing(r: Read<seq<Value>>)
    ensures Prepend([], r) == r
  {
    if r.Done? { assert [] + r.value == r.value; }
  }

  lemma PrependStep(items: seq<Value>, item: Value, r: Read<seq<Value>>)
    ensures Prepend(items + [item], r) == Prepend(items, Prepend([item], r))
  {
    if r.Done? { assert items + [item] + r.value == items + ([item] + r.value); }
  }

  /** `decodeCbor` and `decodeAwsNitroAttestationCbor`. */
  method Decode(bytes: Bytes, nitro: bool) returns (r: Option<Value>)
    ensures r == if nitro then DecodeAwsNitroAttestationCbor(bytes) else DecodeCbor(bytes)
  {
    var reader := new Reader(bytes, nitro);
    assert bytes[0..] == bytes;
    var value := reader.ReadValue(0);
    if value.None? || reader.offset != |bytes| {
      return None;
    }
    return value;
  }

  // The COSE signature input.

  /** `encodeHead`, with its shifts; a number that is not a safe integer throws. */
  function EncodeHead(major: nat, argument: int): Option<Bytes>
    requires major < 8
  {
    if argument < 0 || argument > MAX_SAFE then None
    else if argument < 24 then Some([major * 32 + argument])
    else if argument < 0x100 then Some([major * 32 + 24, argument])
    else if argument < 0x1_0000 then Some([major * 32 + 25] + Low16(argument))
    else if argument < 0x1_0000_0000 then Some([major * 32 + 26] + Low32(argument))
    else Some([major * 32 + 27] + Low32(argument / 0x1_0000_0000) + Low32(argument % 0x1_0000_0000))
  }

  function Low16(n: nat): Bytes { [n / 0x100 % 256, n % 256] }

  function Low32(n: nat): Bytes { [n / 0x100_0000 % 256, n / 0x1_0000 % 256, n / 0x100 % 256, n % 256] }

  lemma Low16IsBigEndian(n: nat)
    ensures Low16(n) == BeBytes(n, 2)
  {
    assert BeBytes(n / 256, 1) == BeBytes(n / 256 / 256, 0) + [n / 256 % 256];
  }

  lemma Low32IsBigEndian(n: nat)
    ensures Low32(n) == BeBytes(n, 4)
  {
    Low16IsBigEndian(n / 0x1_0000);
    assert BeBytes(n, 4) == BeBytes(n / 256 / 256, 2) + [n / 256 % 256] + [n % 256] by {
      assert BeBytes(n / 256, 3) == BeBytes(n / 256 / 256, 2) + [n / 256 % 256];
    }
    assert n / 256 / 256 == n / 0x1_0000 && n / 0x1_0000 / 0x100 == n / 0x100_0000;
  }

  lemma Peel(n: nat, width: nat)
    ensures BeBytes(n, width + 1) == BeBytes(n / 256, width) + [n % 256]
  {
  }

  lemma Shift(n: nat, p: nat)
    requires p == 0x100 || p == 0x1_0000 || p == 0x100_0000
    ensures n / 256 / p == n / (256 * p)
    ensures n % (256 * p) / 256 == n / 256 % p && n % (256 * p) % 256 == n % 256
  {
  }

  lemma LastOne(n: nat)
    ensures BeBytes(n, 5) == BeBytes(n / 0x100, 4) + BeBytes(n % 0x100, 1)
  {
    Peel(n, 4);
    Peel(n % 256, 0);
  }

  lemma LastTwo(n: nat)
    ensures BeBytes(n, 6) == BeBytes(n / 0x1_0000, 4) + BeBytes(n % 0x1_0000, 2)
  {
    LastOne(n / 256);
    Shift(n, 0x100);
    Peel(n, 5);
    Peel(n % 0x1_0000, 1);
    Assoc(BeBytes(n / 0x1_0000, 4), BeBytes(n / 256 % 0x100, 1), [n % 256]);
  }

  lemma LastThree(n: nat)
    ensures BeBytes(n, 7) == BeBytes(n / 0x100_0000, 4) + BeBytes(n % 0x100_0000, 3)
  {
    LastTwo(n / 256);
    Shift(n, 0x1_0000);
    Peel(n, 6);
    Peel(n % 0x100_0000, 2);
    Assoc(BeBytes(n / 0x100_0000, 4), BeBytes(n / 256 % 0x1_0000, 2), [n % 256]);
  }

  lemma LastFour(n: nat)
    ensures BeBytes(n, 8) == BeBytes(n / 0x1_0000_0000, 4) + BeBytes(n % 0x1_0000_0000, 4)
  {
    LastThree(n / 256);
    Shift(n, 0x100_0000);
    Peel(n, 7);
    Peel(n % 0x1_0000_0000, 3);
    Assoc(BeBytes(n / 0x1_0000_0000, 4), BeBytes(n / 256 % 0x100_0000, 3), [n % 256]);
  }

  /** The shifts write exactly the head the reader accepts. */
  lemma EncodeHeadIsHead(major: nat, argument: nat)
    requires major < 8 && argument <= MAX_SAFE
    ensures EncodeHead(major, argument) == Some(Head(major, argument))
  {
    if argument < 0x1_0000 {
      Low16IsBigEndian(argument);
    } else if argument < 0x1_0000_0000 {
      Low32IsBigEndian(argument);
    } else {
      var high, low := argument / 0x1_0000_0000, argument % 0x1_0000_0000;
      Low32IsBigEndian(high);
      Low32IsBigEndian(low);
      LastFour(argument);
      var first: Bytes := [major * 32 + 27];
      Assoc(first, Low32(high), Low32(low));
    }
  }

  /** "Signature1". */
  function Context(): Bytes { Digest.AsciiBytes("Signature1") }

  /** `["Signature1", protected, external_aad, payload]`. */
  function SigStructure(protectedHeaders: Bytes, externalAad: Bytes, payload: Bytes): Value {
    Array([Str(Context()), Blob(protectedHeaders), Blob(externalAad), Blob(payload)])
  }

  lemma ContextIsText()
    ensures FromUtf8(Context()).Some?
  {
    AsciiIsItsUtf8(Context());
    FromUtf8OfUtf8(Context());
  }

  lemma {:induction false} AsciiIsItsUtf8(s: Bytes)
    requires forall i :: 0 <= i < |s| ==> s[i] < 0x80
    ensures Utf8(s) == s
  {
    if s != [] { AsciiIsItsUtf8(s[1..]); }
  }

  lemma SigStructureEncodable(p: Bytes, a: Bytes, y: Bytes)
    requires |p| <= MAX_SAFE && |a| <= MAX_SAFE && |y| <= MAX_SAFE
    ensures Encodable(SigStructure(p, a, y), 0)
  {
    ContextIsText();
  }

  predicate Sized(items: seq<Bytes>) {
    forall i :: 0 <= i < |items| ==> |items[i]| <= MAX_SAFE
  }

  function Blobs(items: seq<Bytes>): Bytes
    requires Sized(items)
  {
    if items == [] then [] else Head(2, |items[0]|) + items[0] + Blobs(items[1..])
  }

  function BlobValues(items: seq<Bytes>): (r: seq<Value>)
    requires Sized(items)
    ensures EncodableItems(r, 1)
  {
    if items == [] then [] else [Blob(items[0])] + BlobValues(items[1..])
  }

  lemma {:induction false} BlobItems(items: seq<Bytes>)
    requires Sized(items)
    ensures EncodeItems(BlobValues(items), 1) == Blobs(items)
  {
    if items != [] {
      BlobItems(items[1..]);
      assert BlobValues(items)[1..] == BlobValues(items[1..]);
      assert Encode(Blob(items[0]), 1) == Head(2, |items[0]|) + items[0];
    }
  }

  lemma SigStructureEncoding(p: Bytes, a: Bytes, y: Bytes)
    requires Sized([p, a, y]) && Encodable(SigStructure(p, a, y), 0)
    ensures Encode(SigStructure(p, a, y), 0) == Head(4, 4) + Head(3, |Context()|) + Context() + Blobs([p, a, y])
  {
    BlobItems([p, a, y]);
    var items := SigStructure(p, a, y).items;
    assert items[1..] == BlobValues([p, a, y]) by {
      assert BlobValues([p, a, y]) == [Blob(p)] + BlobValues([a, y]);
      assert BlobValues([a, y]) == [Blob(a)] + BlobValues([y]);
      assert BlobValues([y]) == [Blob(y)] + BlobValues([]);
    }
    ContextFirst(items);
    Assoc(Head(4, 4), Head(3, |Context()|) + Context(), Blobs([p, a, y]));
    Assoc(Head(4, 4), Head(3, |Context()|), Context());
  }

  lemma ContextFirst(items: seq<Value>)
    requires EncodableItems(items, 1) && items != [] && items[0] == Str(Context())
    ensures EncodeItems(items, 1) == Head(3, |Context()|) + Context() + EncodeItems(items[1..], 1)
  {
  }

  /** `encodeCoseSigStructure`: its text is the encoding of the four-part array. */
  method EncodeCoseSigStructure(protectedHeaders: Bytes, externalAad: Bytes, payload: Bytes)
    returns (parts: Bytes)
    requires |protectedHeaders| <= MAX_SAFE && |externalAad| <= MAX_SAFE && |payload| <= MAX_SAFE
    ensures Encodable(SigStructure(protectedHeaders, externalAad, payload), 0)
    ensures parts == Encode(SigStructure(protectedHeaders, externalAad, payload), 0)
  {
    SigStructureEncodable(protectedHeaders, externalAad, payload);
    SigStructureEncoding(protectedHeaders, externalAad, payload);
    EncodeHeadIsHead(4, 4);
    EncodeHeadIsHead(3, |Context()|);
    parts := EncodeHead(4, 4).value + EncodeHead(3, |Context()|).value + Context();
    ghost var start := parts;
    var items := [protectedHeaders, externalAad, payload];
    for i := 0 to 3
      invariant Sized(items[i..])
      invariant parts + Blobs(items[i..]) == start + Blobs(items)
    {
      EncodeHeadIsHead(2, |items[i]|);
      var head := EncodeHead(2, |items[i]|);
      Assoc(parts, head.value + items[i], Blobs(items[i + 1..]));
      parts := parts + (head.value + items[i]);
    }
  }

  /** What ES384 signs decodes to its four parts, so no two argument triples share it. */
  lemma SigStructureNamesItsParts(p: Bytes, a: Bytes, y: Bytes, p': Bytes, a': Bytes, y': Bytes)
    requires |p| <= MAX_SAFE && |a| <= MAX_SAFE && |y| <= MAX_SAFE
    requires |p'| <= MAX_SAFE && |a'| <= MAX_SAFE && |y'| <= MAX_SAFE
    requires Encodable(SigStructure(p, a, y), 0) && Encodable(SigStructure(p', a', y'), 0)
    ensures DecodeCbor(Encode(SigStructure(p, a, y), 0)) == Some(SigStructure(p, a, y))
    ensures Encode(SigStructure(p, a, y), 0) == Encode(SigStructure(p', a', y'), 0)
       <==> p == p' && a == a' && y == y'
  {
    DecodeInvertsEncode(SigStructure(p, a, y));
    DecodeInvertsEncode(SigStructure(p', a', y'));
    var v, w := SigStructure(p, a, y), SigStructure(p', a', y');
    if v == w {
      assert v.items[1] == w.items[1] && v.items[2] == w.items[2] && v.items[3] == w.items[3];
    }
  }

  // Text as JavaScript sees it.

  /** Whether decoding a text to a JavaScript string drops a byte-order mark. */
  predicate KeepsText(v: Value) {
    match v
    case Str(t) => StripBom(t) == t
    case Array(items) => forall i :: 0 <= i < |items| ==> KeepsText(items[i])
    case Map(entries) => forall i :: 0 <= i < |entries| ==> KeepsText(entries[i].key) && KeepsText(entries[i].value)
    case _ => true
  }

  /** The value as the caller holds it: `TextDecoder` drops a leading byte-order mark. */
  function JsView(v: Value): Value {
    match v
    case Str(t) => Str(StripBom(t))
    case Array(items) => Array(JsItems(items))
    case Map(entries) => Map(JsEntries(entries))
    case _ => v
  }

  function JsItems(items: seq<Value>): (r: seq<Value>)
    ensures |r| == |items| && forall i :: 0 <= i < |items| ==> r[i] == JsView(items[i])
  {
    if items == [] then [] else [JsView(items[0])] + JsItems(items[1..])
  }

  function JsEntry(e: Entry): Entry { Entry(JsView(e.key), JsView(e.value)) }

  function JsEntries(entries: seq<Entry>): (r: seq<Entry>)
    ensures |r| == |entries| && forall i :: 0 <= i < |entries| ==> r[i] == JsEntry(entries[i])
  {
    if entries == [] then [] else [JsEntry(entries[0])] + JsEntries(entries[1..])
  }

  lemma {:induction false} JsViewKeepsExactly(v: Value)
    ensures JsView(v) == v <==> KeepsText(v)
  {
    match v
    case Array(items) =>
      forall i | 0 <= i < |items| ensures JsView(items[i]) == items[i] <==> KeepsText(items[i]) {
        JsViewKeepsExactly(items[i]);
      }
      if KeepsText(v) { assert JsItems(items) == items; }
      if JsView(v) == v { forall i | 0 <= i < |items| ensures KeepsText(items[i]) { assert JsItems(items)[i] == items[i]; } }
    case Map(entries) =>
      forall i | 0 <= i < |entries|
        ensures JsView(entries[i].key) == entries[i].key <==> KeepsText(entries[i].key)
        ensures JsView(entries[i].value) == entries[i].value <==> KeepsText(entries[i].value)
      {
        JsViewKeepsExactly(entries[i].key);
        JsViewKeepsExactly(entries[i].value);
      }
      if KeepsText(v) { assert JsEntries(entries) == entries; }
      if JsView(v) == v {
        forall i | 0 <= i < |entries| ensures KeepsText(entries[i].key) && KeepsText(entries[i].value) {
          assert JsEntries(entries)[i] == entries[i];
        }
      }
    case _ =>
  }

  /** Decoding gives the caller back exactly the encoded value if and only if no text in it begins with U+FEFF. */
  lemma RoundTripKeepsTextExactly(v: Value)
    requires Encodable(v, 0)
    ensures DecodeCbor(Encode(v, 0)).Some?
    ensures JsView(DecodeCbor(Encode(v, 0)).value) == v <==> KeepsText(v)
  {
    DecodeInvertsEncode(v);
    JsViewKeepsExactly(v);
  }

  /** Two inputs, "a" with and without a byte-order mark, give the caller one string. */
  lemma MarkedTextHasTwoEncodings()
    ensures DecodeCbor([0x61, 0x61]) == Some(Str([0x61]))
    ensures DecodeCbor([0x64, 0xEF, 0xBB, 0xBF, 0x61]) == Some(Str([0xEF, 0xBB, 0xBF, 0x61]))
    ensures JsView(Str([0xEF, 0xBB, 0xBF, 0x61])) == Str([0x61])
  {
    assert Utf8([0x61]) == [0x61];
    FromUtf8OfUtf8([0x61]);
    DecodeInvertsEncode(Str([0x61]));
    assert Encode(Str([0x61]), 0) == [0x61, 0x61];
    var bom: Text := [0xFEFF, 0x61];
    var bytes: Bytes := [0xEF, 0xBB, 0xBF, 0x61];
    assert Utf8Of(0xFEFF) == [0xEF, 0xBB, 0xBF];
    assert Utf8(bom[1..]) == [0x61];
    assert Utf8(bom) == bytes;
    FromUtf8OfUtf8(bom);
    DecodeInvertsEncode(Str(bytes));
    assert Encode(Str(bytes), 0) == [0x64, 0xEF, 0xBB, 0xBF, 0x61];
    assert bytes[..3] == [0xEF, 0xBB, 0xBF] && bytes[3..] == [0x61];
  }
}
