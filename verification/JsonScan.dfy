/** On grammatical text the scan passes exactly when no object repeats a key. */
module JsonScan {
  import opened Basics
  import opened Unicode
  import opened Json
  import opened Encodings
  import opened StrictJson

  /** A value ends before `r`. */
  predicate Ends(r: Text) { r == [] || !IsScalarUnit(r[0]) }

  lemma {:induction false} SkipWsOver(ws: Text, r: Text)
    requires IsWs(ws) && (r != [] ==> !IsSpace(r[0]))
    ensures SkipWs(ws + r) == r
  {
    if ws == [] {
      assert ws + r == r;
    } else {
      assert (ws + r)[1..] == ws[1..] + r;
      SkipWsOver(ws[1..], r);
    }
  }

  // Strings.

  lemma HexStep(s: Text, value: nat)
    requires s != [] && HexValue(s[0]).Some?
    ensures HexPrefix(s, value) == HexPrefix(s[1..], value * 16 + HexValue(s[0]).value)
  {
  }

  lemma HexPrefixOfFour(digits: Text)
    requires WellFormedPiece(Hex(digits))
    ensures HexPrefix(digits, 0) == HexNumber(digits)
  {
    var a: nat, b: nat, c: nat := HexValue(digits[0]).value, HexValue(digits[1]).value, HexValue(digits[2]).value;
    HexStep(digits, 0);
    HexStep(digits[1..], a);
    assert digits[1..][1..] == digits[2..];
    HexStep(digits[2..], a * 16 + b);
    assert digits[2..][1..] == digits[3..];
    HexStep(digits[3..], (a * 16 + b) * 16 + c);
    assert digits[3..][1..] == [];
  }

  /** Of four hex digits, `parseInt` sees no white space, sign or `0x`. */
  lemma ParseIntOfFour(digits: Text)
    requires WellFormedPiece(Hex(digits))
    ensures ParseIntUnit(digits) == HexPrefix(digits, 0) % 0x10000
  {
    assert SkipWs(digits) == digits;
  }

  lemma ParseIntOfHex(digits: Text)
    requires WellFormedPiece(Hex(digits))
    ensures ParseIntUnit(digits) == HexNumber(digits)
  {
    HexPrefixOfFour(digits);
    ParseIntOfFour(digits);
    assert HexNumber(digits) < 0x10000;
  }

  lemma ScanPiece(p: Piece, r: Text, value: Text)
    requires WellFormedPiece(p) && r != []
    ensures ScanUnits(PieceText(p) + r, value) == ScanUnits(r, value + [UnitOf(p)])
  {
    var s := PieceText(p) + r;
    match p
    case Raw(c) => assert s[1..] == r;
    case Short(letter) => assert s[2..] == r;
    case Hex(digits) =>
      assert s[2..6] == digits && s[6..] == r;
      ParseIntOfHex(digits);
  }

  lemma PiecesTextNotEmpty(ps: seq<Piece>)
    ensures PiecesText(ps) != []
  {
  }

  lemma {:induction false} ScanPieces(ps: seq<Piece>, r: Text, value: Text)
    requires WellFormedPieces(ps)
    ensures ScanUnits(PiecesText(ps) + r, value) == Read(value + Value(ps), r)
  {
    if ps == [] {
      assert ([QUOTE] + r)[1..] == r;
      assert value + Value(ps) == value;
    } else {
      PiecesTextNotEmpty(ps[1..]);
      Assoc(PieceText(ps[0]), PiecesText(ps[1..]), r);
      ScanPiece(ps[0], PiecesText(ps[1..]) + r, value);
      ScanPieces(ps[1..], r, value + [UnitOf(ps[0])]);
      Assoc(value, [UnitOf(ps[0])], Value(ps[1..]));
    }
  }

  /** A string reads back as its unescaped value. */
  lemma ScanStringText(ps: seq<Piece>, r: Text)
    requires WellFormedPieces(ps)
    ensures ScanString(StringText(ps) + r) == Read(Value(ps), r)
  {
    ScanPieces(ps, r, []);
    Assoc([QUOTE], PiecesText(ps), r);
    ScanQuoted(PiecesText(ps) + r);
    assert [] + Value(ps) == Value(ps);
  }

  lemma ScanQuoted(s: Text)
    ensures ScanString([QUOTE] + s) == ScanUnits(s, [])
  {
    assert ([QUOTE] + s)[1..] == s;
  }

  /** The pieces `appendJsonString` writes. */
  function PieceOf(c: Code): Piece {
    if c == QUOTE || c == BACKSLASH then Short(c)
    else if c == 8 then Short(98)
    else if c == 12 then Short(102)
    else if c == 10 then Short(110)
    else if c == 13 then Short(114)
    else if c == 9 then Short(116)
    else if c < 32 then Hex([48, 48, HexDigit(c / 16), HexDigit(c % 16)])
    else Raw(c)
  }

  function PiecesOf(s: Text): seq<Piece> {
    if s == [] then [] else [PieceOf(s[0])] + PiecesOf(s[1..])
  }

  lemma PieceOfWrites(c: Code)
    ensures WellFormedPiece(PieceOf(c)) && PieceText(PieceOf(c)) == EscapeOne(c) && UnitOf(PieceOf(c)) == c
  {
  }

  lemma {:induction false} PiecesOfWrite(s: Text)
    ensures WellFormedPieces(PiecesOf(s)) && PiecesText(PiecesOf(s)) == StringTail(s) && Value(PiecesOf(s)) == s
  {
    if s != [] {
      PieceOfWrites(s[0]);
      PiecesOfWrite(s[1..]);
      assert PiecesOf(s)[1..] == PiecesOf(s[1..]);
    }
  }

  /** `parseString` inverts `appendJsonString`, for every string. */
  lemma ParseStringInvertsQuote(s: Text, r: Text)
    ensures ScanString(Quote(s) + r) == Read(s, r)
  {
    PiecesOfWrite(s);
    ScanStringText(PiecesOf(s), r);
  }

  // Scalars.

  predicate AllScalar(s: Text) { forall i :: 0 <= i < |s| ==> IsScalarUnit(s[i]) }

  lemma {:induction false} SkipScalarOver(s: Text, r: Text)
    requires AllScalar(s) && Ends(r)
    ensures SkipScalar(s + r) == r
  {
    if s == [] {
      assert s + r == r;
    } else {
      assert (s + r)[1..] == s[1..] + r;
      SkipScalarOver(s[1..], r);
    }
  }

  lemma NumberIsScalar(whole: Text, fraction: Text, exponent: Text)
    requires WellFormedWhole(whole) && WellFormedFraction(fraction) && WellFormedExponent(exponent)
    ensures AllScalar(whole) && AllScalar(fraction) && AllScalar(exponent)
  {
    if fraction != [] { assert forall i :: 1 <= i < |fraction| ==> fraction[i] == fraction[1..][i - 1]; }
    if exponent != [] {
      assert forall i :: 1 <= i < |exponent| ==> exponent[i] == exponent[1..][i - 1];
      assert forall i :: 2 <= i < |exponent| ==> exponent[i] == exponent[2..][i - 2];
    }
  }

  predicate Scalar(d: Doc) { d.Word? || d.Number? }

  lemma ScalarShape(d: Doc)
    requires Grammatical(d) && Scalar(d)
    ensures AllScalar(Render(d)) && Render(d) != [] && StartsScalar(Render(d)[0])
  {
    if d.Number? { NumberIsScalar(d.whole, d.fraction, d.exponent); }
  }

  lemma RenderStarts(d: Doc)
    requires Grammatical(d)
    ensures Render(d) != []
    ensures var c := Render(d)[0];
            !IsSpace(c) && c != 93 && c != 125 && (Scalar(d) ==> StartsScalar(c))
  {
    if Scalar(d) { ScalarShape(d); }
  }

  lemma ScanScalar(d: Doc, r: Text)
    requires Grammatical(d) && Scalar(d) && Ends(r)
    ensures ScanValue(Render(d) + r) == Rest(r)
  {
    ScalarShape(d);
    var s := Render(d) + r;
    assert s[0] == Render(d)[0];
    SkipScalarOver(Render(d), r);
  }

  // Values.

  function Verdict(clean: bool, r: Text): Scan {
    if clean then Rest(r) else Throws(DuplicateJsonField)
  }

  /** Leading white space does not change what a value scans to. */
  lemma ScanValueSkips(s: Text)
    ensures ScanValue(SkipWs(s)) == ScanValue(s)
  {
    assert SkipWs(SkipWs(s)) == SkipWs(s);
  }

  lemma ScanPadded(before: Text, d: Doc, r: Text)
    requires IsWs(before) && Grammatical(d)
    ensures ScanValue(before + Render(d) + r) == ScanValue(Render(d) + r)
  {
    RenderStarts(d);
    Assoc(before, Render(d), r);
    SkipWsOver(before, Render(d) + r);
    ScanValueSkips(before + Render(d) + r);
  }

  lemma {:induction false} ScanDoc(d: Doc, r: Text)
    requires Grammatical(d) && Ends(r)
    ensures ScanValue(Render(d) + r) == Verdict(NoDuplicates(d), r)
    decreases d, 1
  {
    if Scalar(d) {
      ScanScalar(d, r);
    } else if d.String? {
      ScanStringText(d.pieces, r);
    } else if d.List? {
      ScanListDoc(d, r);
    } else {
      ScanObjectDoc(d, r);
    }
  }

  lemma {:induction false} ScanListDoc(d: Doc, r: Text)
    requires Grammatical(d) && Ends(r) && d.List?
    ensures ScanValue(Render(d) + r) == Verdict(NoDuplicates(d), r)
    decreases d, 0
  {
    if d.items == [] {
      ScanEmpty(d.inner, 93, r);
      Assoc([91], d.inner, [93]);
    } else {
      ItemsStart(d.items, r);
      ScanItemsText(d.items, r);
      ScanList(ItemsText(d.items) + r);
      Assoc([91], ItemsText(d.items), r);
    }
  }

  lemma {:induction false} ScanObjectDoc(d: Doc, r: Text)
    requires Grammatical(d) && Ends(r) && d.Object?
    ensures ScanValue(Render(d) + r) == Verdict(NoDuplicates(d), r)
    decreases d, 0
  {
    if d.pairs == [] {
      ScanEmpty(d.inner, 125, r);
      Assoc([123], d.inner, [125]);
    } else {
      PairsStart(d.pairs, r);
      ScanPairsText(d.pairs, r, {});
      ScanObject(PairsText(d.pairs) + r);
      FreshMeansDistinct(d.pairs, {});
      Assoc([123], PairsText(d.pairs), r);
    }
  }

  lemma ScanEmpty(inner: Text, close: Code, r: Text)
    requires IsWs(inner) && (close == 93 || close == 125)
    ensures ScanValue([if close == 93 then 91 else 123] + inner + [close] + r) == Rest(r)
  {
    var s := [if close == 93 then 91 else 123] + inner + [close] + r;
    assert s[1..] == inner + ([close] + r);
    SkipWsOver(inner, [close] + r);
    assert ([close] + r)[1..] == r;
  }

  lemma ScanList(s: Text)
    requires SkipWs(s) != [] && SkipWs(s)[0] != 93
    ensures ScanValue([91] + s) == ScanItems(SkipWs(s))
  {
    assert ([91] + s)[1..] == s;
  }

  lemma ScanObject(s: Text)
    requires SkipWs(s) != [] && SkipWs(s)[0] != 125
    ensures ScanValue([123] + s) == ScanMembers(SkipWs(s), {})
  {
    assert ([123] + s)[1..] == s;
  }

  // Items.

  function AfterItem(items: seq<Item>, r: Text): Text
    requires items != []
  {
    if |items| == 1 then [93] + r else [COMMA] + (ItemsText(items[1..]) + r)
  }

  lemma ItemsSplit(items: seq<Item>, r: Text)
    requires items != []
    ensures ItemsText(items) + r
         == items[0].before + Render(items[0].value) + (items[0].after + AfterItem(items, r))
  {
    var b, v, a := items[0].before, Render(items[0].value), items[0].after;
    if |items| == 1 {
      assert b + v + a + [93] + r == b + v + (a + ([93] + r));
    } else {
      var t := ItemsText(items[1..]);
      assert b + v + a + [COMMA] + t + r == b + v + (a + ([COMMA] + (t + r)));
    }
  }

  lemma AfterEnds(after: Text, rest: Text)
    requires IsWs(after) && rest != [] && (rest[0] == COMMA || rest[0] == 93 || rest[0] == 125)
    ensures Ends(after + rest) && SkipWs(after + rest) == rest
  {
    SkipWsOver(after, rest);
  }

  lemma ItemsStart(items: seq<Item>, r: Text)
    requires items != [] && GrammaticalItem(items[0])
    ensures var u := SkipWs(ItemsText(items) + r);
            u != [] && u[0] != 93 && ScanItems(u) == ScanItems(ItemsText(items) + r)
  {
    var s := ItemsText(items) + r;
    ItemsSplit(items, r);
    var v, rest := Render(items[0].value), items[0].after + AfterItem(items, r);
    RenderStarts(items[0].value);
    Assoc(items[0].before, v, rest);
    SkipWsOver(items[0].before, v + rest);
    ScanValueSkips(s);
  }

  ghost predicate CleanItems(items: seq<Item>)
    requires forall i :: 0 <= i < |items| ==> GrammaticalItem(items[i])
  {
    forall i :: 0 <= i < |items| ==> CleanItem(items[i])
  }

  lemma CleanItemsStep(items: seq<Item>)
    requires items != [] && forall i :: 0 <= i < |items| ==> GrammaticalItem(items[i])
    ensures CleanItems(items) <==> CleanItem(items[0]) && CleanItems(items[1..])
  {
    if CleanItem(items[0]) && CleanItems(items[1..]) {
      forall i | 0 <= i < |items| ensures CleanItem(items[i]) { if i > 0 { assert items[i] == items[1..][i - 1]; } }
    }
  }

  /** The first item and what stops it, as the loop over items reads them. */
  lemma {:induction false} ScanFirstItem(items: seq<Item>, r: Text)
    requires items != [] && GrammaticalItem(items[0])
    ensures ScanValue(ItemsText(items) + r) == Verdict(CleanItem(items[0]), items[0].after + AfterItem(items, r))
    ensures SkipWs(items[0].after + AfterItem(items, r)) == AfterItem(items, r)
    decreases items, 0
  {
    var rest := items[0].after + AfterItem(items, r);
    ItemsSplit(items, r);
    ScanPadded(items[0].before, items[0].value, rest);
    AfterEnds(items[0].after, AfterItem(items, r));
    ScanItem(items[0], rest);
  }

  lemma {:induction false} ScanItemsText(items: seq<Item>, r: Text)
    requires items != [] && forall i :: 0 <= i < |items| ==> GrammaticalItem(items[i])
    ensures ScanItems(ItemsText(items) + r) == Verdict(CleanItems(items), r)
    decreases items, 1
  {
    var next := AfterItem(items, r);
    ScanFirstItem(items, r);
    CleanItemsStep(items);
    if |items| > 1 {
      assert next[1..] == ItemsText(items[1..]) + r;
      ScanItemsText(items[1..], r);
    } else {
      assert next[1..] == r;
    }
  }

  lemma {:induction false} ScanItem(item: Item, r: Text)
    requires GrammaticalItem(item) && Ends(r)
    ensures ScanValue(Render(item.value) + r) == Verdict(CleanItem(item), r)
    decreases item, 0
  {
    ScanDoc(item.value, r);
  }

  // Members.

  function AfterPair(pairs: seq<Pair>, r: Text): Text
    requires pairs != []
  {
    if |pairs| == 1 then [125] + r else [COMMA] + (PairsText(pairs[1..]) + r)
  }

  /** A member's text after its key. */
  function AfterKey(p: Pair, rest: Text): Text {
    p.gap + ([COLON] + (p.beforeValue + Render(p.value) + (p.after + rest)))
  }

  lemma PairsSplit(pairs: seq<Pair>, r: Text)
    requires pairs != []
    ensures PairsText(pairs) + r
         == pairs[0].before + (StringText(pairs[0].key) + AfterKey(pairs[0], AfterPair(pairs, r)))
  {
    var p := pairs[0];
    if |pairs| == 1 {
      PairSplit(p, [125], r);
    } else {
      var t := PairsText(pairs[1..]);
      Assoc(PairText(p), [COMMA], t);
      PairSplit(p, [COMMA] + t, r);
      Assoc([COMMA], t, r);
    }
  }

  lemma PairSplit(p: Pair, next: Text, r: Text)
    ensures PairText(p) + next + r == p.before + (StringText(p.key) + AfterKey(p, next + r))
  {
    var k, v := StringText(p.key), Render(p.value);
    var bv := p.beforeValue + v;
    assert PairText(p) == p.before + k + p.gap + [COLON] + bv + p.after;
    Regroup(p.before + k, p.gap, bv, p.after, next, r);
    Assoc(p.before, k, AfterKey(p, next + r));
  }

  lemma Regroup(k: Text, g: Text, v: Text, a: Text, n: Text, r: Text)
    ensures k + g + [COLON] + v + a + n + r == k + (g + ([COLON] + (v + (a + (n + r)))))
  {
    Assoc(k + g + [COLON] + v + a, n, r);
    Assoc(k + g + [COLON] + v, a, n + r);
    Assoc(k + g + [COLON], v, a + (n + r));
    Assoc(k + g, [COLON], v + (a + (n + r)));
    Assoc(k, g, [COLON] + (v + (a + (n + r))));
  }

  lemma PairsStart(pairs: seq<Pair>, r: Text)
    requires pairs != [] && GrammaticalPair(pairs[0])
    ensures var u := SkipWs(PairsText(pairs) + r);
            u != [] && u[0] != 125 && ScanMembers(u, {}) == ScanMembers(PairsText(pairs) + r, {})
  {
    PairsSplit(pairs, r);
    SkipWsOver(pairs[0].before, StringText(pairs[0].key) + AfterKey(pairs[0], AfterPair(pairs, r)));
    var s := PairsText(pairs) + r;
    assert SkipWs(SkipWs(s)) == SkipWs(s);
  }

  predicate GrammaticalPairs(pairs: seq<Pair>) { forall i :: 0 <= i < |pairs| ==> GrammaticalPair(pairs[i]) }

  /** What the loop over members checks, in its order. */
  predicate FreshPairs(pairs: seq<Pair>, seen: set<Text>)
    requires GrammaticalPairs(pairs)
  {
    pairs == []
    || (KeyOf(pairs[0]) !in seen && CleanPair(pairs[0]) && FreshPairs(pairs[1..], seen + {KeyOf(pairs[0])}))
  }

  lemma {:induction false} ScanPairsText(pairs: seq<Pair>, r: Text, seen: set<Text>)
    requires pairs != [] && GrammaticalPairs(pairs)
    ensures ScanMembers(PairsText(pairs) + r, seen) == Verdict(FreshPairs(pairs, seen), r)
    decreases pairs, 1
  {
    var p, next := pairs[0], AfterPair(pairs, r);
    assert GrammaticalPair(p);
    PairsSplit(pairs, r);
    ScanKey(p, next);
    ScanPair(p, next);
    if |pairs| > 1 {
      assert next[1..] == PairsText(pairs[1..]) + r;
      ScanPairsText(pairs[1..], r, seen + {KeyOf(p)});
    } else {
      assert next[1..] == r;
    }
  }

  lemma ScanKey(p: Pair, next: Text)
    requires GrammaticalPair(p)
    ensures ScanString(SkipWs(p.before + (StringText(p.key) + AfterKey(p, next)))) == Read(KeyOf(p), AfterKey(p, next))
    ensures SkipWs(AfterKey(p, next)) == [COLON] + (p.beforeValue + Render(p.value) + (p.after + next))
  {
    SkipWsOver(p.before, StringText(p.key) + AfterKey(p, next));
    ScanStringText(p.key, AfterKey(p, next));
    SkipWsOver(p.gap, [COLON] + (p.beforeValue + Render(p.value) + (p.after + next)));
  }

  lemma {:induction false} ScanPair(p: Pair, next: Text)
    requires GrammaticalPair(p) && next != [] && (next[0] == COMMA || next[0] == 125)
    ensures ScanValue(p.beforeValue + Render(p.value) + (p.after + next)) == Verdict(CleanPair(p), p.after + next)
    ensures SkipWs(p.after + next) == next
    decreases p, 0
  {
    AfterEnds(p.after, next);
    ScanPadded(p.beforeValue, p.value, p.after + next);
    ScanDoc(p.value, p.after + next);
  }

  /** The running set of keys checks that all are distinct. */
  lemma {:induction false} FreshMeansDistinct(pairs: seq<Pair>, seen: set<Text>)
    requires GrammaticalPairs(pairs)
    ensures FreshPairs(pairs, seen) <==>
      && (forall i :: 0 <= i < |pairs| ==> CleanPair(pairs[i]) && KeyOf(pairs[i]) !in seen)
      && forall i, j :: 0 <= i < j < |pairs| ==> KeyOf(pairs[i]) != KeyOf(pairs[j])
  {
    if pairs != [] {
      FreshMeansDistinct(pairs[1..], seen + {KeyOf(pairs[0])});
      forall i | 0 < i < |pairs| ensures pairs[i] == pairs[1..][i - 1] {}
    }
  }

  // The whole text.

  /**
   Every grammatical text passes the scan, all of it consumed, exactly when no
   object at any depth has two members with one unescaped key; otherwise the
   duplicate is what is reported.
   */
  lemma GrammaticalTextScans(lead: Text, d: Doc, trail: Text)
    requires IsWs(lead) && Grammatical(d) && IsWs(trail)
    ensures ScanText(lead + Render(d) + trail) == if NoDuplicates(d) then None else Some(DuplicateJsonField)
  {
    ScanPadded(lead, d, trail);
    ScanDoc(d, trail);
    SkipWsOver(trail, []);
    assert trail + [] == trail;
  }
}
