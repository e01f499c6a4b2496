/**
 The Rust printer, what differs in the TypeScript one, and why they agree: strings are
 walked by scalar value in one and by UTF-16 unit in the other, keys are compared in
 UTF-16 in both, and every escaped character is a single unit.
 */
module JcsWriters {
  import opened Basics
  import opened Unicode
  import opened Json
  import opened Jcs

  // Sorting looks at keys only, so it commutes with canonicalizing values.

  lemma {:induction false} InsertCommutes(m: Member, ms: seq<Member>)
    ensures Insert(Member(m.key, Canon(m.value)), CanonMembers(ms)) == CanonMembers(Insert(m, ms))
  {
    var m' := Member(m.key, Canon(m.value));
    if ms == [] {
    } else if Before(m, ms[0]) {
      assert ([m] + ms)[1..] == ms;
    } else {
      InsertCommutes(m, ms[1..]);
      assert Insert(m, ms)[1..] == Insert(m, ms[1..]);
      assert CanonMembers(ms)[1..] == CanonMembers(ms[1..]);
    }
  }

  lemma {:induction false} SortCommutes(ms: seq<Member>)
    ensures Sort(CanonMembers(ms)) == CanonMembers(Sort(ms))
  {
    if ms != [] {
      SortCommutes(ms[1..]);
      InsertCommutes(ms[0], Sort(ms[1..]));
      assert CanonMembers(ms)[1..] == CanonMembers(ms[1..]);
    }
  }

  /** Every member's value is a part of `v`, so printing it terminates. */
  ghost predicate PartsOf(ms: seq<Member>, v: Json) {
    forall i :: 0 <= i < |ms| ==> ms[i].value < v
  }

  lemma SortedParts(ms: seq<Member>)
    ensures PartsOf(Sort(ms), Obj(ms))
    ensures FloatFreeMembers(Sort(ms)) <==> FloatFree(Obj(ms))
  {
    forall i | 0 <= i < |ms| ensures Sort(ms)[i].value < Obj(ms) {
      assert Sort(ms)[i] in ms;
    }
    if FloatFree(Obj(ms)) {
      forall i | 0 <= i < |ms| ensures FloatFree(Sort(ms)[i].value) { assert Sort(ms)[i] in ms; }
    } else {
      var i :| 0 <= i < |ms| && !FloatFree(ms[i].value);
      assert ms[i] in Sort(ms);
    }
  }

  /** `append_jcs` and `append_json_string`, growing one buffer. */
  class JcsWriter {
    var out: Text

    constructor ()
      ensures out == []
    {
      out := [];
    }

    method AppendJsonString(s: Text)
      modifies this
      ensures out == old(out) + Quote(s)
    {
      out := out + [QUOTE];
      for i := 0 to |s|
        invariant out + StringTail(s[i..]) == old(out) + Quote(s)
      {
        ghost var before := out;
        var ch := s[i];
        if ch == 34 { out := out + [92, 34]; }
        else if ch == 92 { out := out + [92, 92]; }
        else if ch == 8 { out := out + [92, 98]; }
        else if ch == 12 { out := out + [92, 102]; }
        else if ch == 10 { out := out + [92, 110]; }
        else if ch == 13 { out := out + [92, 114]; }
        else if ch == 9 { out := out + [92, 116]; }
        else if ch < 0x20 { out := out + [92, 117, 48, 48, HexDigit(ch / 16), HexDigit(ch % 16)]; }
        else { out := out + [ch]; }
        assert out == before + EscapeOne(ch);
        Assoc(before, EscapeOne(ch), StringTail(s[i..][1..]));
        assert s[i..][1..] == s[i + 1..];
      }
      assert s[|s|..] == [];
      out := out + [QUOTE];
    }

    /** Appends the canonical text; refuses a value exactly when it holds a float. */
    method AppendJcs(v: Json) returns (ok: bool)
      modifies this
      ensures ok <==> FloatFree(v)
      ensures ok ==> out == old(out) + Canonical(v)
      decreases v, 1
    {
      match v {
        case Null => out := out + NULL_TEXT; ok := true;
        case Bool(b) => out := out + if b then TRUE_TEXT else FALSE_TEXT; ok := true;
        case Num(n) => out := out + Decimal(n); ok := true;
        case Float => ok := false;
        case Str(s) => AppendJsonString(s); ok := true;
        case Arr(items) =>
          out := out + [91];
          ok := AppendItems(items);
          if ok { Assoc(old(out), [91], Items(CanonItems(items))); }
        case Obj(ms) =>
          out := out + [123];
          var keys := Sort(ms);
          SortedParts(ms);
          SortCommutes(ms);
          ok := AppendMembers(keys, v);
          if ok { Assoc(old(out), [123], Members(Sort(CanonMembers(ms)))); }
      }
    }

    method AppendItems(items: seq<Json>) returns (ok: bool)
      modifies this
      ensures ok <==> FloatFree(Arr(items))
      ensures ok ==> out == old(out) + Items(CanonItems(items))
      decreases items, 0
    {
      ghost var c := CanonItems(items);
      for i := 0 to |items|
        invariant forall j :: 0 <= j < i ==> FloatFree(items[j])
        invariant out + ItemsLeft(c, i) == old(out) + Items(c)
      {
        ItemsLeftStep(c, i);
        ghost var sep := if i > 0 then [COMMA] else [];
        ghost var before := out;
        if i > 0 { out := out + [44]; }
        assert out == before + sep;
        ok := AppendJcs(items[i]);
        if !ok { return; }
        Regroup(before, sep, Print(c[i]), ItemsLeft(c, i + 1));
      }
      out := out + [93];
      ok := true;
    }

    method AppendMember(m: Member, separate: bool) returns (ok: bool)
      modifies this
      ensures ok <==> FloatFree(m.value)
      ensures ok ==>
        out == old(out) + (if separate then [COMMA] else []) + PrintMember(Member(m.key, Canon(m.value)))
      decreases m.value, 2
    {
      if separate { out := out + [44]; }
      ghost var base := old(out) + if separate then [COMMA] else [];
      assert out == base;
      AppendJsonString(m.key);
      out := out + [58];
      ok := AppendJcs(m.value);
      if ok { Regroup(base, Quote(m.key), [COLON], Canonical(m.value)); }
    }

    method AppendMembers(keys: seq<Member>, ghost v: Json) returns (ok: bool)
      requires PartsOf(keys, v)
      modifies this
      ensures ok <==> FloatFreeMembers(keys)
      ensures ok ==> out == old(out) + Members(CanonMembers(keys))
      decreases v, 0
    {
      ghost var c := CanonMembers(keys);
      for i := 0 to |keys|
        invariant forall j :: 0 <= j < i ==> FloatFree(keys[j].value)
        invariant out + MembersLeft(c, i) == old(out) + Members(c)
      {
        ghost var before := out;
        ok := AppendMember(keys[i], i > 0);
        if !ok { return; }
        MembersLeftStep(c, i);
        Regroup(before, if i > 0 then [COMMA] else [], PrintMember(c[i]), MembersLeft(c, i + 1));
      }
      out := out + [125];
      ok := true;
    }
  }

  lemma Regroup(a: Text, b: Text, c: Text, d: Text)
    ensures a + b + c + d == a + (b + c + d)
  {
  }

  /** What is still to be printed once `i` elements are. */
  ghost function ItemsLeft(c: seq<Json>, i: nat): Text
    requires i <= |c|
  {
    if i == 0 then Items(c) else ItemsTail(c[i..])
  }

  lemma ItemsLeftStep(c: seq<Json>, i: nat)
    requires i < |c|
    ensures ItemsLeft(c, i) == (if i > 0 then [COMMA] else []) + Print(c[i]) + ItemsLeft(c, i + 1)
  {
    if i > 0 {
      assert c[i..][1..] == c[i + 1..];
    } else {
      assert [] + Print(c[0]) == Print(c[0]);
    }
  }

  ghost function MembersLeft(c: seq<Member>, i: nat): Text
    requires i <= |c|
  {
    if i == 0 then Members(c) else MembersTail(c[i..])
  }

  lemma MembersLeftStep(c: seq<Member>, i: nat)
    requires i < |c|
    ensures MembersLeft(c, i) == (if i > 0 then [COMMA] else []) + PrintMember(c[i]) + MembersLeft(c, i + 1)
  {
    if i > 0 {
      assert c[i..][1..] == c[i + 1..];
    } else {
      assert [] + PrintMember(c[0]) == PrintMember(c[0]);
    }
  }

  /** `canonicalize_json_value`. */
  method CanonicalizeJsonValue(v: Json) returns (text: Option<Text>)
    ensures text == if FloatFree(v) then Some(Canonical(v)) else None
  {
    var writer := new JcsWriter();
    var ok := writer.AppendJcs(v);
    assert [] + Canonical(v) == Canonical(v);
    text := if ok then Some(writer.out) else None;
  }

  // TypeScript: the same printer over UTF-16 units.

  /** `utf16Cmp`: negative, zero or positive as the keys compare. */
  method Utf16Cmp(a: Text, b: Text) returns (order: int)
    ensures order < 0 <==> Less(a, b)
    ensures order == 0 <==> a == b
  {
    LessTrichotomy(a, b);
    var n := if |a| < |b| then |a| else |b|;
    for i := 0 to n
      invariant a[..i] == b[..i]
      invariant Less(a, b) <==> Less(a[i..], b[i..])
    {
      if a[i] != b[i] {
        return (a[i] as int) - (b[i] as int);
      }
      assert a[i..][1..] == a[i + 1..] && b[i..][1..] == b[i + 1..];
    }
    assert a[..n] == b[..n];
    assert |a| == |b| ==> a == a[..n] && b == b[..n];
    return |a| - |b|;
  }

  predicate HighSurrogate(c: Code) { 0xD800 <= c < 0xDC00 }

  predicate LowSurrogate(c: Code) { 0xDC00 <= c < 0xE000 }

  /** `appendJsonString`, which walks code points: a surrogate pair is pushed whole. */
  method AppendJsonStringUnits(out: Text, value: Text) returns (text: Text)
    requires Units(value)
    ensures text == out + Quote(value)
  {
    text := out + [QUOTE];
    var i := 0;
    while i < |value|
      invariant 0 <= i <= |value|
      invariant text + StringTail(value[i..]) == out + Quote(value)
    {
      var pair := HighSurrogate(value[i]) && i + 1 < |value| && LowSurrogate(value[i + 1]);
      var width := if pair then 2 else 1;
      var piece := if pair then value[i..i + 2] else EscapeOne(value[i]);
      StringTailStep(value, i, width, piece);
      Assoc(text, piece, StringTail(value[i + width..]));
      text := text + piece;
      i := i + width;
    }
    assert value[|value|..] == [];
    text := text + [QUOTE];
  }

  lemma StringTailStep(s: Text, i: nat, width: nat, piece: Text)
    requires i + width <= |s|
    requires
      || (width == 1 && piece == EscapeOne(s[i]))
      || (width == 2 && piece == s[i..i + 2] && Surrogate(s[i]) && Surrogate(s[i + 1]))
    ensures StringTail(s[i..]) == piece + StringTail(s[i + width..])
  {
    assert s[i..][1..] == s[i + 1..];
    if width == 2 {
      assert s[i + 1..][1..] == s[i + 2..];
      assert piece == [s[i]] + [s[i + 1]];
    }
  }

  // The printers agree.

  /** A value's JavaScript form: every string in UTF-16. */
  function InUtf16(v: Json): Json {
    match v
    case Str(s) => Str(Utf16(s))
    case Arr(items) => Arr(ItemsInUtf16(items))
    case Obj(ms) => Obj(MembersInUtf16(ms))
    case _ => v
  }

  function ItemsInUtf16(items: seq<Json>): (r: seq<Json>)
    ensures |r| == |items| && forall i :: 0 <= i < |items| ==> r[i] == InUtf16(items[i])
  {
    if items == [] then [] else [InUtf16(items[0])] + ItemsInUtf16(items[1..])
  }

  function MembersInUtf16(ms: seq<Member>): (r: seq<Member>)
    ensures |r| == |ms| && forall i :: 0 <= i < |ms| ==> r[i] == MemberInUtf16(ms[i])
  {
    if ms == [] then [] else [MemberInUtf16(ms[0])] + MembersInUtf16(ms[1..])
  }

  function MemberInUtf16(m: Member): Member { Member(Utf16(m.key), InUtf16(m.value)) }

  lemma {:induction false} Utf16IsUnits(s: Text)
    ensures Units(Utf16(s)) && Utf16(Utf16(s)) == Utf16(s)
  {
    if s != [] { Utf16IsUnits(s[1..]); }
    assert Units(Utf16(s));
    Utf16OfUnits(Utf16(s));
  }

  lemma Utf16Three(a: Text, b: Text, c: Text)
    ensures Utf16(a + b + c) == Utf16(a) + Utf16(b) + Utf16(c)
  {
    Utf16Concat(a + b, c);
    Utf16Concat(a, b);
  }

  lemma StringTailCons(c: Code, rest: Text)
    ensures StringTail([c] + rest) == EscapeOne(c) + StringTail(rest)
  {
    assert ([c] + rest)[1..] == rest;
  }

  lemma StringTailUnits(c: Code, rest: Text)
    ensures StringTail(UnitsOf(c) + rest) == Utf16(EscapeOne(c)) + StringTail(rest)
  {
    if c < 0x10000 {
      Utf16OfUnits(EscapeOne(c));
      StringTailCons(c, rest);
    } else {
      var u := UnitsOf(c);
      assert u + rest == [u[0]] + ([u[1]] + rest);
      StringTailCons(u[0], [u[1]] + rest);
      StringTailCons(u[1], rest);
      assert Utf16(EscapeOne(c)) == [u[0]] + [u[1]];
    }
  }

  lemma {:induction false} StringTailUtf16(s: Text)
    ensures Utf16(StringTail(s)) == StringTail(Utf16(s))
  {
    if s == [] {
      Utf16OfUnits([QUOTE]);
    } else {
      StringTailUtf16(s[1..]);
      Utf16Concat(EscapeOne(s[0]), StringTail(s[1..]));
      StringTailUnits(s[0], Utf16(s[1..]));
    }
  }

  lemma QuoteUtf16(s: Text)
    ensures Utf16(Quote(s)) == Quote(Utf16(s))
  {
    Utf16Concat([QUOTE], StringTail(s));
    Utf16OfUnits([QUOTE]);
    StringTailUtf16(s);
  }

  lemma {:induction false} PrintUtf16(v: Json)
    ensures Utf16(Print(v)) == Print(InUtf16(v))
    decreases v, 0
  {
    match v
    case Str(s) => QuoteUtf16(s);
    case Num(n) => assert Units(Decimal(n)); Utf16OfUnits(Decimal(n));
    case Arr(items) =>
      Utf16Concat([91], Items(items));
      Utf16OfUnits([91]);
      if items == [] {
        Utf16OfUnits([93]);
      } else {
        Utf16Concat(Print(items[0]), ItemsTail(items[1..]));
        PrintUtf16(items[0]);
        ItemsTailUtf16(items[1..]);
        assert ItemsInUtf16(items)[1..] == ItemsInUtf16(items[1..]);
      }
    case Obj(ms) =>
      Utf16Concat([123], Members(ms));
      Utf16OfUnits([123]);
      if ms == [] {
        Utf16OfUnits([125]);
      } else {
        Utf16Concat(PrintMember(ms[0]), MembersTail(ms[1..]));
        PrintMemberUtf16(ms[0]);
        MembersTailUtf16(ms[1..]);
        assert MembersInUtf16(ms)[1..] == MembersInUtf16(ms[1..]);
      }
    case Null => Utf16OfUnits(NULL_TEXT);
    case Bool(b) => Utf16OfUnits(if b then TRUE_TEXT else FALSE_TEXT);
    case Float =>
  }

  lemma {:induction false} PrintMemberUtf16(m: Member)
    ensures Utf16(PrintMember(m)) == PrintMember(MemberInUtf16(m))
    decreases m, 1
  {
    Utf16Three(Quote(m.key), [COLON], Print(m.value));
    QuoteUtf16(m.key);
    Utf16OfUnits([COLON]);
    PrintUtf16(m.value);
  }

  lemma {:induction false} ItemsTailUtf16(items: seq<Json>)
    ensures Utf16(ItemsTail(items)) == ItemsTail(ItemsInUtf16(items))
    decreases items, 1
  {
    if items == [] {
      Utf16OfUnits([93]);
    } else {
      Utf16Three([COMMA], Print(items[0]), ItemsTail(items[1..]));
      Utf16OfUnits([COMMA]);
      PrintUtf16(items[0]);
      ItemsTailUtf16(items[1..]);
      assert ItemsInUtf16(items)[1..] == ItemsInUtf16(items[1..]);
    }
  }

  lemma {:induction false} MembersTailUtf16(ms: seq<Member>)
    ensures Utf16(MembersTail(ms)) == MembersTail(MembersInUtf16(ms))
    decreases ms, 2
  {
    if ms == [] {
      Utf16OfUnits([125]);
    } else {
      Utf16Three([COMMA], PrintMember(ms[0]), MembersTail(ms[1..]));
      Utf16OfUnits([COMMA]);
      PrintMemberUtf16(ms[0]);
      MembersTailUtf16(ms[1..]);
      assert MembersInUtf16(ms)[1..] == MembersInUtf16(ms[1..]);
    }
  }

  lemma {:induction false} InsertUtf16(m: Member, ms: seq<Member>)
    ensures MembersInUtf16(Insert(m, ms)) == Insert(MemberInUtf16(m), MembersInUtf16(ms))
  {
    Utf16IsUnits(m.key);
    if ms != [] {
      Utf16IsUnits(ms[0].key);
      if Before(m, ms[0]) {
        assert ([m] + ms)[1..] == ms;
      } else {
        InsertUtf16(m, ms[1..]);
        assert Insert(m, ms)[1..] == Insert(m, ms[1..]);
        assert MembersInUtf16(ms)[1..] == MembersInUtf16(ms[1..]);
      }
    }
  }

  lemma {:induction false} SortUtf16(ms: seq<Member>)
    ensures MembersInUtf16(Sort(ms)) == Sort(MembersInUtf16(ms))
  {
    if ms != [] {
      SortUtf16(ms[1..]);
      InsertUtf16(ms[0], Sort(ms[1..]));
      assert MembersInUtf16(ms)[1..] == MembersInUtf16(ms[1..]);
    }
  }

  lemma {:induction false} CanonUtf16(v: Json)
    ensures InUtf16(Canon(v)) == Canon(InUtf16(v))
    decreases v, 0
  {
    match v
    case Arr(items) =>
      forall i | 0 <= i < |items|
        ensures ItemsInUtf16(CanonItems(items))[i] == CanonItems(ItemsInUtf16(items))[i]
      {
        CanonUtf16(items[i]);
      }
      assert ItemsInUtf16(CanonItems(items)) == CanonItems(ItemsInUtf16(items));
    case Obj(ms) =>
      CanonMembersUtf16(ms);
      SortUtf16(CanonMembers(ms));
    case _ =>
  }

  lemma {:induction false} CanonMembersUtf16(ms: seq<Member>)
    ensures MembersInUtf16(CanonMembers(ms)) == CanonMembers(MembersInUtf16(ms))
    decreases ms, 1
  {
    forall i | 0 <= i < |ms|
      ensures MembersInUtf16(CanonMembers(ms))[i] == CanonMembers(MembersInUtf16(ms))[i]
    {
      CanonUtf16(ms[i].value);
    }
  }

  /** The Rust text, in UTF-16, is the TypeScript text of the same value. */
  lemma PrintersAgree(v: Json)
    ensures Utf16(Canonical(v)) == Canonical(InUtf16(v))
  {
    CanonUtf16(v);
    PrintUtf16(Canon(v));
  }
}
