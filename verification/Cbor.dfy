/**
 The strict CBOR subset of Nitro attestation documents: sections 3 and 4.2.1
 of RFC 8949, definite lengths and shortest heads only. Text stays as its
 UTF-8 bytes.
 */
module Cbor {
  import opened Basics
  import opened Unicode

  datatype Value =
    | Null
    | Bool(b: bool)
    | Int(n: int)
    | Blob(bytes: Bytes)
    | Str(utf8: Bytes)
    | Array(items: seq<Value>)
    | Map(entries: seq<Entry>)

  datatype Entry = Entry(key: Value, value: Value)

  const MAX_SAFE: nat := 0x1F_FFFF_FFFF_FFFF
  const MAX_DEPTH := 16
  const MAX_INDEFINITE_ROOT_MAP_ENTRIES := 32
  const COSE_SIGN1_TAG := 18
  const BREAK: Byte := 0xff

  // Big-endian numbers.

  function Be(s: Bytes): nat {
    if s == [] then 0 else Be(s[..|s| - 1]) * 256 + s[|s| - 1]
  }

  function BeBytes(n: nat, width: nat): (r: Bytes)
    ensures |r| == width
  {
    if width == 0 then [] else BeBytes(n / 256, width - 1) + [n % 256]
  }

  function Pow256(width: nat): nat { if width == 0 then 1 else 256 * Pow256(width - 1) }

  lemma {:induction false} BeOfBytes(n: nat, width: nat)
    requires n < Pow256(width)
    ensures Be(BeBytes(n, width)) == n
  {
    if width > 0 {
      BeOfBytes(n / 256, width - 1);
      assert BeBytes(n, width)[..width - 1] == BeBytes(n / 256, width - 1);
    }
  }

  lemma {:induction false} BytesOfBe(s: Bytes)
    ensures BeBytes(Be(s), |s|) == s && Be(s) < Pow256(|s|)
  {
    if s != [] {
      BytesOfBe(s[..|s| - 1]);
      assert Be(s) / 256 == Be(s[..|s| - 1]) && Be(s) % 256 == s[|s| - 1];
    }
  }

  lemma Widths()
    ensures Pow256(1) == 0x100 && Pow256(2) == 0x1_0000 && Pow256(4) == 0x1_0000_0000
    ensures Pow256(8) > MAX_SAFE
  {
    assert Pow256(3) == 0x100_0000 && Pow256(4) == 0x1_0000_0000;
    assert Pow256(5) == 0x100_0000_0000 && Pow256(6) == 0x1_0000_0000_0000;
    assert Pow256(7) == 0x100_0000_0000_0000;
  }

  // Heads.

  /** The only accepted head of a major type and an argument. */
  function Head(major: nat, argument: nat): (r: Bytes)
    requires major < 8 && argument <= MAX_SAFE
    ensures r != [] && r[0] / 32 == major
  {
    if argument < 24 then [major * 32 + argument]
    else if argument < 0x100 then [major * 32 + 24, argument]
    else if argument < 0x1_0000 then [major * 32 + 25] + BeBytes(argument, 2)
    else if argument < 0x1_0000_0000 then [major * 32 + 26] + BeBytes(argument, 4)
    else [major * 32 + 27] + BeBytes(argument, 8)
  }

  datatype Read<+T> = Fail | Done(value: T, rest: Bytes)

  /** A multi-byte argument, refused when a shorter head would do or a double could not hold it. */
  function Wide(s: Bytes, width: nat, minimum: nat): Read<nat> {
    if |s| < width then Fail
    else
      var value := Be(s[..width]);
      if value < minimum || value > MAX_SAFE then Fail else Done(value, s[width..])
  }

  function Argument(additional: nat, s: Bytes): Read<nat> {
    if additional < 24 then Done(additional, s)
    else if additional == 24 then
      if s == [] || s[0] < 24 then Fail else Done(s[0], s[1..])
    else if additional == 25 then Wide(s, 2, 0x100)
    else if additional == 26 then Wide(s, 4, 0x1_0000)
    else if additional == 27 then Wide(s, 8, 0x1_0000_0000)
    else Fail
  }

  lemma WideReads(n: nat, width: nat, minimum: nat, rest: Bytes)
    requires n < Pow256(width) && minimum <= n <= MAX_SAFE
    ensures Wide(BeBytes(n, width) + rest, width, minimum) == Done(n, rest)
  {
    BeOfBytes(n, width);
    assert (BeBytes(n, width) + rest)[..width] == BeBytes(n, width);
    assert (BeBytes(n, width) + rest)[width..] == rest;
  }

  /** A head reads back. */
  lemma HeadReads(major: nat, n: nat, rest: Bytes)
    requires major < 8 && n <= MAX_SAFE
    ensures var s := Head(major, n) + rest;
            s[0] / 32 == major && s[0] % 32 <= 27 && Argument(s[0] % 32, s[1..]) == Done(n, rest)
  {
    var s, h := Head(major, n) + rest, Head(major, n);
    Widths();
    assert s[0] == h[0] && s[1..] == h[1..] + rest;
    if n < 24 {
      assert h[1..] + rest == rest;
    } else if n < 0x100 {
      assert s[1..][1..] == rest;
    } else if n < 0x1_0000 {
      assert h[1..] == BeBytes(n, 2);
      WideReads(n, 2, 0x100, rest);
    } else if n < 0x1_0000_0000 {
      assert h[1..] == BeBytes(n, 4);
      WideReads(n, 4, 0x1_0000, rest);
    } else {
      assert h[1..] == BeBytes(n, 8);
      WideReads(n, 8, 0x1_0000_0000, rest);
    }
  }

  lemma WideIsBytes(s: Bytes, width: nat, minimum: nat)
    requires Wide(s, width, minimum).Done?
    ensures var r := Wide(s, width, minimum);
            minimum <= r.value <= MAX_SAFE && r.value < Pow256(width) && s == BeBytes(r.value, width) + r.rest
  {
    BytesOfBe(s[..width]);
  }

  /** An accepted head is the head of what it read. */
  lemma ReadIsHead(s: Bytes)
    requires s != [] && Argument(s[0] % 32, s[1..]).Done?
    ensures var r := Argument(s[0] % 32, s[1..]);
            r.value <= MAX_SAFE && s == Head(s[0] / 32, r.value) + r.rest
  {
    var a, t := s[0] % 32, s[1..];
    Widths();
    assert s == [s[0]] + t;
    if a == 24 {
      assert t == [t[0]] + t[1..];
    } else if a == 25 {
      WideIsBytes(t, 2, 0x100);
    } else if a == 26 {
      WideIsBytes(t, 4, 0x1_0000);
    } else if a == 27 {
      WideIsBytes(t, 8, 0x1_0000_0000);
    }
  }

  // Map keys.

  function StripBom(utf8: Bytes): Bytes {
    if |utf8| >= 3 && utf8[..3] == [0xEF, 0xBB, 0xBF] then utf8[3..] else utf8
  }

  predicate IsKey(v: Value) { v.Int? || v.Str? }

  /** Keys are compared as JavaScript values: text as decoded, which drops a leading byte-order mark. */
  predicate SameKey(a: Value, b: Value) {
    || (a.Int? && a == b)
    || (a.Str? && b.Str? && StripBom(a.utf8) == StripBom(b.utf8))
  }

  predicate HasKey(entries: seq<Entry>, key: Value) {
    exists i :: 0 <= i < |entries| && SameKey(entries[i].key, key)
  }

  // Reading.

  function ReadItem(s: Bytes, depth: nat): (r: Read<Value>)
    ensures r.Done? ==> |r.rest| < |s|
    decreases |s|, 0
  {
    if depth > MAX_DEPTH || s == [] then Fail
    else if s[0] / 32 == 7 then ReadSimple(s)
    else
      var argument := Argument(s[0] % 32, s[1..]);
      if argument.Fail? then Fail
      else
        ArgumentShrinks(s[0] % 32, s[1..]);
        match s[0] / 32
        case 0 => Done(Int(argument.value), argument.rest)
        case 1 => Done(Int(-1 - argument.value), argument.rest)
        case 2 => ReadBlob(argument.rest, argument.value)
        case 3 => ReadText(argument.rest, argument.value)
        case 4 =>
          var items := ReadItems(argument.rest, argument.value, depth + 1);
          if items.Fail? then Fail else Done(Array(items.value), items.rest)
        case 5 =>
          var entries := ReadEntries(argument.rest, argument.value, depth + 1, []);
          if entries.Fail? then Fail else Done(Map(entries.value), entries.rest)
        case _ =>
          if argument.value != COSE_SIGN1_TAG || depth != 0 then Fail
          else ReadItem(argument.rest, depth + 1)
  }

  function ReadSimple(s: Bytes): Read<Value>
    requires s != []
  {
    match s[0] % 32
    case 20 => Done(Bool(false), s[1..])
    case 21 => Done(Bool(true), s[1..])
    case 22 => Done(Null, s[1..])
    case _ => Fail
  }

  function ReadBlob(s: Bytes, n: nat): Read<Value> {
    if |s| < n then Fail else Done(Blob(s[..n]), s[n..])
  }

  function ReadText(s: Bytes, n: nat): Read<Value> {
    if |s| < n || FromUtf8(s[..n]).None? then Fail else Done(Str(s[..n]), s[n..])
  }

  lemma ArgumentShrinks(additional: nat, s: Bytes)
    ensures Argument(additional, s).Done? ==> |Argument(additional, s).rest| <= |s|
  {
  }

  function ReadItems(s: Bytes, n: nat, depth: nat): (r: Read<seq<Value>>)
    ensures r.Done? ==> |r.rest| + n <= |s|
    decreases |s|, 1, n
  {
    if n == 0 then Done([], s)
    else
      var item := ReadItem(s, depth);
      if item.Fail? then Fail
      else
        var others := ReadItems(item.rest, n - 1, depth);
        if others.Fail? then Fail else Done([item.value] + others.value, others.rest)
  }

  function ReadEntries(s: Bytes, n: nat, depth: nat, before: seq<Entry>): (r: Read<seq<Entry>>)
    ensures r.Done? ==> |r.rest| + 2 * n <= |s|
    decreases |s|, 2, n
  {
    if n == 0 then Done(before, s)
    else
      var entry := ReadEntry(s, depth, before);
      if entry.Fail? then Fail
      else ReadEntries(entry.rest, n - 1, depth, before + [entry.value])
  }

  /** One entry whose key is new. */
  function ReadEntry(s: Bytes, depth: nat, before: seq<Entry>): (r: Read<Entry>)
    ensures r.Done? ==> |r.rest| + 2 <= |s|
    decreases |s|, 1
  {
    var key := ReadItem(s, depth);
    if key.Fail? || !IsKey(key.value) || HasKey(before, key.value) then Fail
    else
      var value := ReadItem(key.rest, depth);
      if value.Fail? then Fail else Done(Entry(key.value, value.value), value.rest)
  }

  /** An indefinite map from after its head to its break. */
  function ReadToBreak(s: Bytes, before: seq<Entry>): (r: Read<seq<Entry>>)
    decreases |s|
  {
    if s != [] && s[0] == BREAK then Done(before, s[1..])
    else if |before| >= MAX_INDEFINITE_ROOT_MAP_ENTRIES then Fail
    else
      var key := ReadItem(s, 1);
      if key.Fail? || !IsKey(key.value) then Fail
      else if key.rest != [] && key.rest[0] == BREAK then Fail
      else if HasKey(before, key.value) then Fail
      else
        var value := ReadItem(key.rest, 1);
        if value.Fail? then Fail
        else ReadToBreak(value.rest, before + [Entry(key.value, value.value)])
  }

  /** The outermost item, which the Nitro entry point lets be an indefinite map. */
  function ReadRoot(s: Bytes, allowIndefinite: bool): Read<Value> {
    if allowIndefinite && s != [] && s[0] == 0xbf then
      var entries := ReadToBreak(s[1..], []);
      if entries.Fail? then Fail else Done(Map(entries.value), entries.rest)
    else ReadItem(s, 0)
  }

  /** No trailing bytes. */
  function Whole(r: Read<Value>): Option<Value> {
    if r.Done? && r.rest == [] then Some(r.value) else None
  }

  function DecodeCbor(s: Bytes): Option<Value> { Whole(ReadRoot(s, false)) }

  function DecodeAwsNitroAttestationCbor(s: Bytes): Option<Value> { Whole(ReadRoot(s, true)) }

  // Encoding.

  /** The values the reader can produce at a depth. */
  predicate Encodable(v: Value, depth: nat) {
    && depth <= MAX_DEPTH
    && match v
       case Int(n) => -1 - MAX_SAFE <= n <= MAX_SAFE
       case Blob(b) => |b| <= MAX_SAFE
       case Str(t) => |t| <= MAX_SAFE && FromUtf8(t).Some?
       case Array(items) => |items| <= MAX_SAFE && forall i :: 0 <= i < |items| ==> Encodable(items[i], depth + 1)
       case Map(entries) =>
         && |entries| <= MAX_SAFE
         && DistinctKeys(entries)
         && forall i :: 0 <= i < |entries| ==>
              IsKey(entries[i].key) && Encodable(entries[i].key, depth + 1) && Encodable(entries[i].value, depth + 1)
       case _ => true
  }

  predicate DistinctKeys(entries: seq<Entry>) {
    forall i, j :: 0 <= i < j < |entries| ==> !SameKey(entries[i].key, entries[j].key)
  }

  predicate EncodableItems(items: seq<Value>, depth: nat) {
    forall i :: 0 <= i < |items| ==> Encodable(items[i], depth)
  }

  predicate EncodableEntries(entries: seq<Entry>, depth: nat) {
    forall i :: 0 <= i < |entries| ==>
      IsKey(entries[i].key) && Encodable(entries[i].key, depth) && Encodable(entries[i].value, depth)
  }

  function Encode(v: Value, depth: nat): Bytes
    requires Encodable(v, depth)
    decreases v
  {
    match v
    case Null => [0xf6]
    case Bool(b) => [if b then 0xf5 else 0xf4]
    case Int(n) => if n >= 0 then Head(0, n) else Head(1, -1 - n)
    case Blob(b) => Head(2, |b|) + b
    case Str(t) => Head(3, |t|) + t
    case Array(items) => Head(4, |items|) + EncodeItems(items, depth + 1)
    case Map(entries) => Head(5, |entries|) + EncodeEntries(entries, depth + 1)
  }

  function EncodeItems(items: seq<Value>, depth: nat): Bytes
    requires EncodableItems(items, depth)
    decreases items
  {
    if items == [] then [] else Encode(items[0], depth) + EncodeItems(items[1..], depth)
  }

  function EncodeEntries(entries: seq<Entry>, depth: nat): Bytes
    requires EncodableEntries(entries, depth)
    decreases entries
  {
    if entries == [] then [] else EncodeEntry(entries[0], depth) + EncodeEntries(entries[1..], depth)
  }

  function EncodeEntry(e: Entry, depth: nat): Bytes
    requires Encodable(e.key, depth) && Encodable(e.value, depth)
    decreases e
  {
    Encode(e.key, depth) + Encode(e.value, depth)
  }
}
