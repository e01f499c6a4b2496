/**
 Text as code numbers, and its UTF-16 and UTF-8 forms (RFC 3629). A Rust string is a
 sequence of scalar values; a JavaScript string is a sequence of UTF-16 units, lone
 surrogates included. One type holds both, so that one printer and one reader serve
 both languages.
 */
module Unicode {
  import opened Basics

  /** A Unicode scalar value (Rust `char`) or a UTF-16 code unit (a JavaScript string element). */
  type Code = x: int | 0 <= x <= 0x10FFFF

  type Text = seq<Code>

  /** The text of an ASCII literal. */
  function Name(s: string): (t: Text)
    ensures |t| == |s| && forall i :: 0 <= i < |s| ==> t[i] == s[i] as int
  {
    seq(|s|, i requires 0 <= i < |s| => s[i] as int)
  }

  lemma NameInjective(a: string, b: string)
    ensures Name(a) == Name(b) <==> a == b
  {
    if Name(a) == Name(b) {
      forall i | 0 <= i < |a| ensures a[i] == b[i] { assert Name(a)[i] == Name(b)[i]; }
    }
  }

  predicate Surrogate(c: Code) { 0xD800 <= c < 0xE000 }

  /** Rust strings. */
  predicate Scalars(s: Text) { forall i :: 0 <= i < |s| ==> !Surrogate(s[i]) }

  /** JavaScript strings, lone surrogates included. */
  predicate Units(s: Text) { forall i :: 0 <= i < |s| ==> s[i] < 0x10000 }

  function UnitsOf(c: Code): Text {
    if c < 0x10000 then [c] else [0xD800 + (c - 0x10000) / 1024, 0xDC00 + (c - 0x10000) % 1024]
  }

  /** `encode_utf16`; a JavaScript string is its own. */
  function Utf16(s: Text): Text {
    if s == [] then [] else UnitsOf(s[0]) + Utf16(s[1..])
  }

  lemma {:induction false} Utf16Concat(a: Text, b: Text)
    ensures Utf16(a + b) == Utf16(a) + Utf16(b)
  {
    if a == [] {
      assert a + b == b;
    } else {
      assert (a + b)[1..] == a[1..] + b;
      Utf16Concat(a[1..], b);
    }
  }

  lemma {:induction false} Utf16OfUnits(s: Text)
    requires Units(s)
    ensures Utf16(s) == s
  {
    if s != [] { Utf16OfUnits(s[1..]); }
  }

  lemma {:induction false} Utf16Injective(a: Text, b: Text)
    requires Scalars(a) && Scalars(b) && Utf16(a) == Utf16(b)
    ensures a == b
  {
    if a != [] && b != [] {
      var u, v := UnitsOf(a[0]), UnitsOf(b[0]);
      var s := Utf16(a);
      assert s[0] == u[0] && s[0] == v[0];
      assert |u| == |v| == 2 ==> s[1] == u[1] && s[1] == v[1];
      assert |u| == |v| && a[0] == b[0];
      assert Utf16(a[1..]) == s[|u|..] && Utf16(b[1..]) == s[|v|..];
      Utf16Injective(a[1..], b[1..]);
    }
  }

  function Utf8Of(c: Code): (r: seq<Byte>)
    ensures 1 <= |r| <= 4
  {
    if c < 0x80 then [c]
    else if c < 0x800 then [0xC0 + c / 64, 0x80 + c % 64]
    else if c < 0x10000 then [0xE0 + c / 64 / 64, 0x80 + c / 64 % 64, 0x80 + c % 64]
    else [0xF0 + c / 64 / 64 / 64, 0x80 + c / 64 / 64 % 64, 0x80 + c / 64 % 64, 0x80 + c % 64]
  }

  function Utf8(s: Text): seq<Byte> {
    if s == [] then [] else Utf8Of(s[0]) + Utf8(s[1..])
  }

  /** The bits a continuation byte carries. */
  function Tail(b: seq<Byte>, i: nat): Option<int> {
    if i < |b| && 0x80 <= b[i] < 0xC0 then Some(b[i] - 0x80) else None
  }

  function Pack(head: nat, t: nat): nat { head * 64 + t }

  lemma Unpack(head: nat, t: nat)
    requires t < 64
    ensures Pack(head, t) / 64 == head && Pack(head, t) % 64 == t
  {
  }

  lemma Split64(c: nat)
    ensures c == Pack(c / 64, c % 64)
  {
  }

  /** The first character of well-formed UTF-8: shortest form, no surrogate, at most U+10FFFF. */
  function FirstChar(b: seq<Byte>): Option<Code> {
    if b == [] then None
    else if b[0] < 0x80 then Some(b[0])
    else
      var t, u, v := Tail(b, 1), Tail(b, 2), Tail(b, 3);
      if 0xC2 <= b[0] < 0xE0 && t.Some? then Some(Pack(b[0] - 0xC0, t.value))
      else if 0xE0 <= b[0] < 0xF0 && t.Some? && u.Some? then
        var c := Pack(Pack(b[0] - 0xE0, t.value), u.value);
        if c >= 0x800 && !Surrogate(c) then Some(c) else None
      else if 0xF0 <= b[0] < 0xF8 && t.Some? && u.Some? && v.Some? then
        var c := Pack(Pack(Pack(b[0] - 0xF0, t.value), u.value), v.value);
        if 0x10000 <= c <= 0x10FFFF then Some(c) else None
      else None
  }

  lemma FirstCharSound(b: seq<Byte>)
    requires FirstChar(b).Some?
    ensures !Surrogate(FirstChar(b).value) && Utf8Of(FirstChar(b).value) <= b
  {
    var c := FirstChar(b).value;
    Split64(c);
    if 0x80 <= b[0] {
      var t, u, v := Tail(b, 1), Tail(b, 2), Tail(b, 3);
      if b[0] < 0xE0 {
        Unpack(b[0] - 0xC0, t.value);
      } else if b[0] < 0xF0 {
        Unpack(b[0] - 0xE0, t.value);
        Unpack(Pack(b[0] - 0xE0, t.value), u.value);
      } else {
        Unpack(b[0] - 0xF0, t.value);
        Unpack(Pack(b[0] - 0xF0, t.value), u.value);
        Unpack(Pack(Pack(b[0] - 0xF0, t.value), u.value), v.value);
      }
    }
  }

  lemma FirstCharOfUtf8(c: Code, rest: seq<Byte>)
    requires !Surrogate(c)
    ensures FirstChar(Utf8Of(c) + rest) == Some(c)
  {
    Split64(c);
    Split64(c / 64);
    Split64(c / 64 / 64);
    var b := Utf8Of(c) + rest;
    assert forall i :: 0 <= i < |Utf8Of(c)| ==> b[i] == Utf8Of(c)[i];
    if c >= 0x800 {
      assert Tail(b, 1).Some? && Tail(b, 2).Some?;
    }
  }

  /** Strict UTF-8 decoding, as `String::from_utf8` and a fatal `TextDecoder` do it. */
  function FromUtf8(b: seq<Byte>): (r: Option<Text>)
    ensures r.Some? ==> Scalars(r.value) && Utf8(r.value) == b
    decreases |b|
  {
    if b == [] then Some([])
    else
      var c := FirstChar(b);
      if c.None? then None
      else
        FirstCharSound(b);
        var n := |Utf8Of(c.value)|;
        var rest := FromUtf8(b[n..]);
        if rest.None? then None
        else
          assert b == b[..n] + b[n..];
          Some([c.value] + rest.value)
  }

  lemma FromUtf8Step(b: seq<Byte>, c: Code, rest: seq<Byte>)
    requires b == Utf8Of(c) + rest && FirstChar(b) == Some(c) && FromUtf8(rest).Some?
    ensures FromUtf8(b) == Some([c] + FromUtf8(rest).value)
  {
    assert b[|Utf8Of(c)|..] == rest;
  }

  /** Decoding inverts encoding, so no two texts share their bytes. */
  lemma {:induction false} FromUtf8OfUtf8(s: Text)
    requires Scalars(s)
    ensures FromUtf8(Utf8(s)) == Some(s)
  {
    if s != [] {
      FirstCharOfUtf8(s[0], Utf8(s[1..]));
      FromUtf8OfUtf8(s[1..]);
      FromUtf8Step(Utf8(s), s[0], Utf8(s[1..]));
      assert s == [s[0]] + s[1..];
    }
  }

  lemma Utf8Injective(a: Text, b: Text)
    requires Scalars(a) && Scalars(b)
    ensures Utf8(a) == Utf8(b) <==> a == b
  {
    FromUtf8OfUtf8(a);
    FromUtf8OfUtf8(b);
  }
}
