/**
 JSON values and their compact text (sections 3.2.2 and 3.2.3 of RFC 8785), with
 the proof that the text is uniquely readable: a reader that knows no more than the
 next character can tell which kind of value begins, and nothing but the characters
 of a value decides where it ends.
 */
module Json {
  import opened Basics
  import opened Unicode

  /** `Float` is any number that is not an integer; canonical JSON refuses it. */
  datatype Json =
    | Null
    | Bool(b: bool)
    | Num(n: int)
    | Float
    | Str(s: Text)
    | Arr(items: seq<Json>)
    | Obj(members: seq<Member>)

  datatype Member = Member(key: Text, value: Json)

  predicate FloatFree(v: Json) {
    match v
    case Float => false
    case Arr(items) => forall i :: 0 <= i < |items| ==> FloatFree(items[i])
    case Obj(ms) => forall i :: 0 <= i < |ms| ==> FloatFree(ms[i].value)
    case _ => true
  }

  const QUOTE: Code := 34
  const COMMA: Code := 44
  const COLON: Code := 58
  const BACKSLASH: Code := 92

  // Concatenation.

  lemma Assoc(a: Text, b: Text, c: Text)
    ensures (a + b) + c == a + (b + c)
  {
  }

  /** Drops a common first character and regroups what follows. */
  lemma Drop(c: Code, a: Text, b: Text, r: Text, c': Code, a': Text, b': Text, r': Text)
    requires [c] + a + b + r == [c'] + a' + b' + r'
    ensures c == c' && a + (b + r) == a' + (b' + r')
  {
    var t := [c] + a + b + r;
    assert t[0] == c && t[0] == c';
    assert t[1..] == a + (b + r);
    assert t[1..] == a' + (b' + r');
  }

  lemma DropOne(c: Code, a: Text, r: Text, c': Code, a': Text, r': Text)
    requires [c] + a + r == [c'] + a' + r'
    ensures c == c' && a + r == a' + r'
  {
    var t := [c] + a + r;
    assert t[0] == c && t[0] == c';
    assert t[1..] == a + r;
    assert t[1..] == a' + r';
  }

  lemma FirstOf(a: Text, b: Text, r: Text, r': Text)
    requires a != [] && b != [] && a + r == b + r'
    ensures a[0] == b[0]
  {
    assert (a + r)[0] == a[0] && (b + r')[0] == b[0];
  }

  lemma SameLengthSplit(a: Text, r: Text, b: Text, r': Text)
    requires |a| == |b| && a + r == b + r'
    ensures a == b && r == r'
  {
    assert a == (a + r)[..|a|] && b == (b + r')[..|b|];
    assert r == (a + r)[|a|..] && r' == (b + r')[|b|..];
  }

  // Strings.

  function HexDigit(d: int): Code
    requires 0 <= d < 16
  {
    if d < 10 then 48 + d else 87 + d
  }

  function EscapeOne(c: Code): Text {
    if c == QUOTE || c == BACKSLASH then [BACKSLASH, c]
    else if c == 8 then [BACKSLASH, 98]
    else if c == 12 then [BACKSLASH, 102]
    else if c == 10 then [BACKSLASH, 110]
    else if c == 13 then [BACKSLASH, 114]
    else if c == 9 then [BACKSLASH, 116]
    else if c < 32 then [BACKSLASH, 117, 48, 48, HexDigit(c / 16), HexDigit(c % 16)]
    else [c]
  }

  /** The characters of a string from here to its closing quote. */
  function StringTail(s: Text): Text {
    if s == [] then [QUOTE] else EscapeOne(s[0]) + StringTail(s[1..])
  }

  function Quote(s: Text): Text { [QUOTE] + StringTail(s) }

  /** The first two characters tell how long an escape is. */
  lemma EscapeOneShape(c: Code)
    ensures var e := EscapeOne(c);
            && (|e| == 1 || |e| == 2 || |e| == 6)
            && (e[0] == BACKSLASH <==> |e| > 1)
            && (|e| > 1 ==> (e[1] == 117 <==> |e| == 6))
  {
  }

  lemma EscapeOneInjective(c: Code, d: Code)
    requires EscapeOne(c) == EscapeOne(d)
    ensures c == d
  {
    var e, f := EscapeOne(c), EscapeOne(d);
    if |e| == 6 {
      assert e[4] == HexDigit(c / 16) && e[5] == HexDigit(c % 16);
      assert f[4] == HexDigit(d / 16) && f[5] == HexDigit(d % 16);
    } else {
      assert e[|e| - 1] == f[|f| - 1];
    }
  }

  lemma EscapeOneUnique(c: Code, d: Code, r: Text, r': Text)
    requires EscapeOne(c) + r == EscapeOne(d) + r'
    ensures c == d && r == r'
  {
    var e, f := EscapeOne(c), EscapeOne(d);
    var t := e + r;
    EscapeOneShape(c);
    EscapeOneShape(d);
    assert t[0] == e[0] && t[0] == f[0];
    if |e| > 1 { assert t[1] == e[1] && t[1] == f[1]; }
    SameLengthSplit(e, r, f, r');
    EscapeOneInjective(c, d);
  }

  lemma StringTailFirst(s: Text)
    ensures StringTail(s) != [] && (StringTail(s)[0] == QUOTE <==> s == [])
  {
  }

  lemma {:induction false} StringTailUnique(a: Text, b: Text, r: Text, r': Text)
    requires StringTail(a) + r == StringTail(b) + r'
    ensures a == b && r == r'
  {
    StringTailFirst(a);
    StringTailFirst(b);
    FirstOf(StringTail(a), StringTail(b), r, r');
    if a == [] {
      SameLengthSplit(StringTail(a), r, StringTail(b), r');
    } else {
      Assoc(EscapeOne(a[0]), StringTail(a[1..]), r);
      Assoc(EscapeOne(b[0]), StringTail(b[1..]), r');
      EscapeOneUnique(a[0], b[0], StringTail(a[1..]) + r, StringTail(b[1..]) + r');
      StringTailUnique(a[1..], b[1..], r, r');
      assert a == [a[0]] + a[1..] && b == [b[0]] + b[1..];
    }
  }

  // Integers.

  predicate Digit(c: Code) { 48 <= c <= 57 }

  predicate Stops(r: Text) { r == [] || !Digit(r[0]) }

  function Digits(n: nat): (r: Text)
    ensures r != [] && forall i :: 0 <= i < |r| ==> Digit(r[i])
  {
    if n < 10 then [48 + n] else Digits(n / 10) + [48 + n % 10]
  }

  function Decimal(n: int): Text {
    if n < 0 then [45] + Digits(-n) else Digits(n)
  }

  lemma {:induction false} DigitsInjective(n: nat, m: nat)
    requires Digits(n) == Digits(m)
    ensures n == m
  {
    var t := Digits(n);
    assert t[|t| - 1] == 48 + n % 10 && t[|t| - 1] == 48 + m % 10;
    if n >= 10 {
      assert Digits(n / 10) == t[..|t| - 1];
      assert |t| >= 2;
      assert Digits(m / 10) == t[..|t| - 1];
      DigitsInjective(n / 10, m / 10);
    } else {
      assert |t| == 1;
    }
  }

  lemma DigitRunNotLonger(n: nat, m: nat, r: Text, r': Text)
    requires Digits(n) + r == Digits(m) + r' && Stops(r)
    ensures |Digits(m)| <= |Digits(n)|
  {
    var t := Digits(n) + r;
    assert forall i :: 0 <= i < |Digits(m)| ==> t[i] == Digits(m)[i];
    assert |t| > |Digits(n)| ==> t[|Digits(n)|] == r[0];
  }

  lemma DigitsUnique(n: nat, m: nat, r: Text, r': Text)
    requires Digits(n) + r == Digits(m) + r' && Stops(r) && Stops(r')
    ensures n == m && r == r'
  {
    DigitRunNotLonger(n, m, r, r');
    DigitRunNotLonger(m, n, r', r);
    SameLengthSplit(Digits(n), r, Digits(m), r');
    DigitsInjective(n, m);
  }

  lemma DecimalUnique(n: int, m: int, r: Text, r': Text)
    requires Decimal(n) + r == Decimal(m) + r' && Stops(r) && Stops(r')
    ensures n == m && r == r'
  {
    FirstOf(Decimal(n), Decimal(m), r, r');
    if n < 0 {
      DropOne(45, Digits(-n), r, 45, Digits(-m), r');
      DigitsUnique(-n, -m, r, r');
    } else {
      DigitsUnique(n, m, r, r');
    }
  }

  // Values.

  const NULL_TEXT: Text := [110, 117, 108, 108]
  const TRUE_TEXT: Text := [116, 114, 117, 101]
  const FALSE_TEXT: Text := [102, 97, 108, 115, 101]

  /** The compact text of a value, members in the order they come. */
  function Print(v: Json): Text {
    match v
    case Null => NULL_TEXT
    case Bool(b) => if b then TRUE_TEXT else FALSE_TEXT
    case Num(n) => Decimal(n)
    case Float => []
    case Str(s) => Quote(s)
    case Arr(items) => [91] + Items(items)
    case Obj(ms) => [123] + Members(ms)
  }

  function Items(items: seq<Json>): Text {
    if items == [] then [93] else Print(items[0]) + ItemsTail(items[1..])
  }

  function Members(ms: seq<Member>): Text {
    if ms == [] then [125] else PrintMember(ms[0]) + MembersTail(ms[1..])
  }

  function PrintMember(m: Member): Text {
    Quote(m.key) + [COLON] + Print(m.value)
  }

  /** What follows an array element: the rest of the elements and the bracket. */
  function ItemsTail(items: seq<Json>): Text {
    if items == [] then [93] else [COMMA] + Print(items[0]) + ItemsTail(items[1..])
  }

  function MembersTail(ms: seq<Member>): Text {
    if ms == [] then [125] else [COMMA] + PrintMember(ms[0]) + MembersTail(ms[1..])
  }

  predicate FloatFreeItems(items: seq<Json>) { forall i :: 0 <= i < |items| ==> FloatFree(items[i]) }

  predicate FloatFreeMembers(ms: seq<Member>) { forall i :: 0 <= i < |ms| ==> FloatFree(ms[i].value) }

  /** Which kind of value a character begins. */
  function Kind(c: Code): int {
    if c == 110 then 0 else if c == 116 then 1 else if c == 102 then 2
    else if Digit(c) || c == 45 then 3 else if c == QUOTE then 4
    else if c == 91 then 5 else if c == 123 then 6 else 7
  }

  function KindOf(v: Json): int {
    match v
    case Null => 0 case Bool(b) => if b then 1 else 2 case Num(_) => 3 case Float => 8
    case Str(_) => 4 case Arr(_) => 5 case Obj(_) => 6
  }

  lemma FirstCharTellsKind(v: Json)
    requires FloatFree(v)
    ensures Print(v) != [] && Kind(Print(v)[0]) == KindOf(v)
  {
  }

  /** No text begins with two values: readers need no lookahead past a digit run. */
  lemma {:induction false} PrintUnique(v: Json, w: Json, r: Text, r': Text)
    requires FloatFree(v) && FloatFree(w) && Stops(r) && Stops(r')
    requires Print(v) + r == Print(w) + r'
    ensures v == w && r == r'
    decreases v, 1
  {
    FirstCharTellsKind(v);
    FirstCharTellsKind(w);
    FirstOf(Print(v), Print(w), r, r');
    match v
    case Null => SameLengthSplit(Print(v), r, Print(w), r');
    case Bool(b) => SameLengthSplit(Print(v), r, Print(w), r');
    case Num(n) => DecimalUnique(n, w.n, r, r');
    case Str(s) =>
      DropOne(QUOTE, StringTail(s), r, QUOTE, StringTail(w.s), r');
      StringTailUnique(s, w.s, r, r');
    case Arr(items) =>
      DropOne(91, Items(items), r, 91, Items(w.items), r');
      ItemsUnique(items, w.items, r, r');
    case Obj(ms) =>
      DropOne(123, Members(ms), r, 123, Members(w.members), r');
      MembersUnique(ms, w.members, r, r');
  }

  lemma {:induction false} ItemsUnique(a: seq<Json>, b: seq<Json>, r: Text, r': Text)
    requires FloatFreeItems(a) && FloatFreeItems(b) && Stops(r) && Stops(r')
    requires Items(a) + r == Items(b) + r'
    ensures a == b && r == r'
    decreases a, 3
  {
    ItemsFirst(a);
    ItemsFirst(b);
    FirstOf(Items(a), Items(b), r, r');
    if a == [] {
      SameLengthSplit(Items(a), r, Items(b), r');
    } else {
      Assoc(Print(a[0]), ItemsTail(a[1..]), r);
      Assoc(Print(b[0]), ItemsTail(b[1..]), r');
      ItemsTailStops(a[1..], r);
      ItemsTailStops(b[1..], r');
      PrintUnique(a[0], b[0], ItemsTail(a[1..]) + r, ItemsTail(b[1..]) + r');
      ItemsTailUnique(a[1..], b[1..], r, r');
      assert a == [a[0]] + a[1..] && b == [b[0]] + b[1..];
    }
  }

  lemma ItemsFirst(a: seq<Json>)
    requires FloatFreeItems(a)
    ensures Items(a) != [] && (Items(a)[0] == 93 <==> a == [])
  {
    if a != [] { FirstCharTellsKind(a[0]); }
  }

  lemma ItemsTailStops(a: seq<Json>, r: Text)
    ensures Stops(ItemsTail(a) + r)
  {
  }

  lemma MembersTailStops(a: seq<Member>, r: Text)
    ensures Stops(MembersTail(a) + r)
  {
  }

  lemma {:induction false} ItemsTailUnique(a: seq<Json>, b: seq<Json>, r: Text, r': Text)
    requires FloatFreeItems(a) && FloatFreeItems(b) && Stops(r) && Stops(r')
    requires ItemsTail(a) + r == ItemsTail(b) + r'
    ensures a == b && r == r'
    decreases a, 2
  {
    FirstOf(ItemsTail(a), ItemsTail(b), r, r');
    if a == [] {
      SameLengthSplit(ItemsTail(a), r, ItemsTail(b), r');
    } else {
      Drop(COMMA, Print(a[0]), ItemsTail(a[1..]), r, COMMA, Print(b[0]), ItemsTail(b[1..]), r');
      ItemsTailStops(a[1..], r);
      ItemsTailStops(b[1..], r');
      PrintUnique(a[0], b[0], ItemsTail(a[1..]) + r, ItemsTail(b[1..]) + r');
      ItemsTailUnique(a[1..], b[1..], r, r');
      assert a == [a[0]] + a[1..] && b == [b[0]] + b[1..];
    }
  }

  lemma {:induction false} MemberUnique(m: Member, k: Member, r: Text, r': Text)
    requires FloatFree(m.value) && FloatFree(k.value) && Stops(r) && Stops(r')
    requires PrintMember(m) + r == PrintMember(k) + r'
    ensures m == k && r == r'
    decreases m, 2
  {
    var p, q := [COLON] + Print(m.value), [COLON] + Print(k.value);
    Assoc(Quote(m.key), [COLON], Print(m.value));
    Assoc(Quote(k.key), [COLON], Print(k.value));
    Drop(QUOTE, StringTail(m.key), p, r, QUOTE, StringTail(k.key), q, r');
    StringTailUnique(m.key, k.key, p + r, q + r');
    DropOne(COLON, Print(m.value), r, COLON, Print(k.value), r');
    PrintUnique(m.value, k.value, r, r');
  }

  lemma {:induction false} MembersUnique(a: seq<Member>, b: seq<Member>, r: Text, r': Text)
    requires FloatFreeMembers(a) && FloatFreeMembers(b) && Stops(r) && Stops(r')
    requires Members(a) + r == Members(b) + r'
    ensures a == b && r == r'
    decreases a, 3
  {
    FirstOf(Members(a), Members(b), r, r');
    if a == [] {
      SameLengthSplit(Members(a), r, Members(b), r');
    } else {
      Assoc(PrintMember(a[0]), MembersTail(a[1..]), r);
      Assoc(PrintMember(b[0]), MembersTail(b[1..]), r');
      MembersTailStops(a[1..], r);
      MembersTailStops(b[1..], r');
      MemberUnique(a[0], b[0], MembersTail(a[1..]) + r, MembersTail(b[1..]) + r');
      MembersTailUnique(a[1..], b[1..], r, r');
      assert a == [a[0]] + a[1..] && b == [b[0]] + b[1..];
    }
  }

  lemma {:induction false} MembersTailUnique(a: seq<Member>, b: seq<Member>, r: Text, r': Text)
    requires FloatFreeMembers(a) && FloatFreeMembers(b) && Stops(r) && Stops(r')
    requires MembersTail(a) + r == MembersTail(b) + r'
    ensures a == b && r == r'
    decreases a, 2
  {
    FirstOf(MembersTail(a), MembersTail(b), r, r');
    if a == [] {
      SameLengthSplit(MembersTail(a), r, MembersTail(b), r');
    } else {
      Drop(COMMA, PrintMember(a[0]), MembersTail(a[1..]), r, COMMA, PrintMember(b[0]), MembersTail(b[1..]), r');
      MembersTailStops(a[1..], r);
      MembersTailStops(b[1..], r');
      MemberUnique(a[0], b[0], MembersTail(a[1..]) + r, MembersTail(b[1..]) + r');
      MembersTailUnique(a[1..], b[1..], r, r');
      assert a == [a[0]] + a[1..] && b == [b[0]] + b[1..];
    }
  }

  lemma PrintInjective(v: Json, w: Json)
    requires FloatFree(v) && FloatFree(w)
    ensures Print(v) == Print(w) <==> v == w
  {
    if Print(v) == Print(w) {
      assert Print(v) + [] == Print(w) + [];
      PrintUnique(v, w, [], []);
    }
  }
}
