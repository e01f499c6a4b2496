/**
 How many bytes a canonical text takes on the wire. The size is a sum over the
 value's parts, so it depends neither on the order of members nor on anything but the
 length of a part that is replaced; a lone surrogate takes the three bytes of U+FFFD.
 */
module RequestSize {
  import opened Basics
  import opened Unicode
  import opened Json
  import opened Jcs
  import JcsWriters
  import opened Encodings
  import opened Digest
  import opened Requests
  import opened Qos

  // `TextEncoder.encode`: a lone surrogate becomes U+FFFD.

  predicate StartsPair(s: Text) {
    |s| > 1 && JcsWriters.HighSurrogate(s[0]) && JcsWriters.LowSurrogate(s[1])
  }

  /** How many units the first character takes, and its bytes. */
  function Lead(s: Text): (n: nat)
    requires s != []
    ensures 0 < n <= |s|
  {
    if StartsPair(s) then 2 else 1
  }

  function First(s: Text): Bytes
    requires s != []
  {
    if StartsPair(s) then Utf8Of(0x10000 + (s[0] - 0xD800) * 1024 + (s[1] - 0xDC00))
    else if Surrogate(s[0]) then Utf8Of(0xFFFD)
    else Utf8Of(s[0])
  }

  function TextEncode(s: Text): Bytes {
    if s == [] then [] else First(s) + TextEncode(s[Lead(s)..])
  }

  predicate Joins(s: Text) { s == [] || !JcsWriters.LowSurrogate(s[0]) }

  /** Text is encoded piece by piece wherever no surrogate pair straddles the cut. */
  lemma {:induction false} TextEncodeConcat(a: Text, b: Text)
    requires Joins(b)
    ensures TextEncode(a + b) == TextEncode(a) + TextEncode(b)
    decreases |a|
  {
    if a == [] {
      assert a + b == b;
    } else {
      var n := Lead(a);
      assert (a + b)[n..] == a[n..] + b;
      TextEncodeConcat(a[n..], b);
      SameFirst(a, b);
    }
  }

  lemma SameFirst(a: Text, b: Text)
    requires Joins(b) && a != []
    ensures Lead(a + b) == Lead(a) && First(a + b) == First(a)
  {
    assert (a + b)[0] == a[0] && (|a| > 1 ==> (a + b)[1] == a[1]);
    assert |a| == 1 && b != [] ==> (a + b)[1] == b[0];
  }

  function Wire(s: Text): nat { |TextEncode(s)| }

  lemma WireConcat(a: Text, b: Text)
    requires Joins(b)
    ensures Wire(a + b) == Wire(a) + Wire(b)
  {
    TextEncodeConcat(a, b);
  }

  lemma WireThree(a: Text, b: Text, c: Text)
    requires Joins(b) && Joins(c)
    ensures Wire(a + b + c) == Wire(a) + Wire(b) + Wire(c)
  {
    WireConcat(a + b, c);
    WireConcat(a, b);
  }

  predicate Ascii(s: Text) { forall i :: 0 <= i < |s| ==> s[i] < 0x80 }

  lemma {:induction false} AsciiWire(s: Text)
    requires Ascii(s)
    ensures Wire(s) == |s|
  {
    if s != [] { AsciiWire(s[1..]); }
  }

  // The size of a value's compact text.

  function Size(v: Json): nat {
    match v
    case Arr(items) => 1 + (if items == [] then 1 else SizeItems(items))
    case Obj(ms) => 1 + (if ms == [] then 1 else SizeMembers(ms))
    case Str(s) => Wire(Quote(s))
    case Bool(b) => if b then 4 else 5
    case Null => 4
    case Num(n) => |Decimal(n)|
    case Float => 0
  }

  /** Each item and the character after it. */
  function SizeItems(items: seq<Json>): nat {
    if items == [] then 0 else Size(items[0]) + 1 + SizeItems(items[1..])
  }

  function SizeMember(m: Member): nat { Wire(Quote(m.key)) + 1 + Size(m.value) }

  function SizeMembers(ms: seq<Member>): nat {
    if ms == [] then 0 else SizeMember(ms[0]) + 1 + SizeMembers(ms[1..])
  }

  lemma DecimalIsAscii(n: int)
    ensures Ascii(Decimal(n))
  {
  }

  lemma {:induction false} SizeIsWire(v: Json)
    ensures Wire(Print(v)) == Size(v) && Joins(Print(v))
  {
    match v
    case Num(n) =>
      DecimalIsAscii(n);
      AsciiWire(Decimal(n));
    case Bool(b) => AsciiWire(Print(v));
    case Null => AsciiWire(Print(v));
    case Arr(items) =>
      AsciiWire([91]);
      AsciiWire([93]);
      if items != [] {
        SizeIsWire(items[0]);
        ItemsTailWire(items[1..]);
        WireConcat(Print(items[0]), ItemsTail(items[1..]));
      }
      WireConcat([91], Items(items));
    case Obj(ms) =>
      AsciiWire([123]);
      AsciiWire([125]);
      if ms != [] {
        MemberWire(ms[0]);
        MembersTailWire(ms[1..]);
        WireConcat(PrintMember(ms[0]), MembersTail(ms[1..]));
      }
      WireConcat([123], Members(ms));
    case _ =>
  }

  lemma {:induction false} ItemsTailWire(items: seq<Json>)
    ensures Wire(ItemsTail(items)) == 1 + SizeItems(items) && Joins(ItemsTail(items))
  {
    AsciiWire([93]);
    AsciiWire([COMMA]);
    if items != [] {
      SizeIsWire(items[0]);
      ItemsTailWire(items[1..]);
      WireThree([COMMA], Print(items[0]), ItemsTail(items[1..]));
    }
  }

  lemma {:induction false} MemberWire(m: Member)
    ensures Wire(PrintMember(m)) == SizeMember(m) && Joins(PrintMember(m))
  {
    AsciiWire([COLON]);
    SizeIsWire(m.value);
    WireThree(Quote(m.key), [COLON], Print(m.value));
  }

  lemma {:induction false} MembersTailWire(ms: seq<Member>)
    ensures Wire(MembersTail(ms)) == 1 + SizeMembers(ms) && Joins(MembersTail(ms))
  {
    AsciiWire([125]);
    AsciiWire([COMMA]);
    if ms != [] {
      MemberWire(ms[0]);
      MembersTailWire(ms[1..]);
      WireThree([COMMA], PrintMember(ms[0]), MembersTail(ms[1..]));
    }
  }

  // Sorting members does not change the size.

  lemma {:induction false} SizeOfInsert(m: Member, ms: seq<Member>)
    ensures SizeMembers(Insert(m, ms)) == SizeMember(m) + 1 + SizeMembers(ms)
  {
    if ms == [] || Before(m, ms[0]) {
      assert ([m] + ms)[1..] == ms;
    } else {
      SizeOfInsert(m, ms[1..]);
      assert Insert(m, ms)[1..] == Insert(m, ms[1..]);
    }
  }

  lemma {:induction false} SizeOfSort(ms: seq<Member>)
    ensures SizeMembers(Sort(ms)) == SizeMembers(ms)
  {
    if ms != [] {
      SizeOfSort(ms[1..]);
      SizeOfInsert(ms[0], Sort(ms[1..]));
    }
  }

  lemma {:induction false} SizeOfCanon(v: Json)
    ensures Size(Canon(v)) == Size(v)
  {
    match v
    case Arr(items) => SizeOfCanonItems(items);
    case Obj(ms) =>
      SizeOfCanonMembers(ms);
      SizeOfSort(CanonMembers(ms));
    case _ =>
  }

  lemma {:induction false} SizeOfCanonItems(items: seq<Json>)
    ensures SizeItems(CanonItems(items)) == SizeItems(items)
  {
    if items != [] {
      SizeOfCanon(items[0]);
      SizeOfCanonItems(items[1..]);
      assert CanonItems(items)[1..] == CanonItems(items[1..]);
    }
  }

  lemma {:induction false} SizeOfCanonMembers(ms: seq<Member>)
    ensures SizeMembers(CanonMembers(ms)) == SizeMembers(ms)
  {
    if ms != [] {
      SizeOfCanon(ms[0].value);
      SizeOfCanonMembers(ms[1..]);
      assert CanonMembers(ms)[1..] == CanonMembers(ms[1..]);
    }
  }

  /** A canonical text's bytes add up member by member, in whatever order they came. */
  lemma CanonicalSize(v: Json)
    ensures Wire(Canonical(v)) == Size(v)
  {
    SizeIsWire(Canon(v));
    SizeOfCanon(v);
  }

  /** Hex, quoted. */
  lemma HexSize(b: Bytes)
    ensures Size(Hex(b)) == 2 + 2 * |b|
  {
    LowerHexLength(b);
    PlainQuote(EncodeLowerHex(b));
    AsciiWire(Quote(EncodeLowerHex(b)));
  }

  /** Printable ASCII without quotes or backslashes is written as it is. */
  lemma {:induction false} PlainQuote(s: Text)
    requires forall i :: 0 <= i < |s| ==> 48 <= s[i] <= 57 || 97 <= s[i] <= 102
    ensures StringTail(s) == s + [QUOTE]
  {
    if s != [] {
      PlainQuote(s[1..]);
      assert s == [s[0]] + s[1..];
    }
  }
}
