/**
 The duplicate-rejecting scan in front of `JSON.parse`, on what is left of the text,
 and the JSON grammar (RFC 8259) it is measured against: documents with their layout
 and escapes, whose rendering is the grammatical text.
 */
module StrictJson {
  import opened Basics
  import opened Unicode
  import opened Json
  import opened Encodings

  datatype JsonError = InvalidCanonicalJson | DuplicateJsonField | UnknownJsonField

  /** A scan ends before `rest`, or throws. */
  datatype Scan = Rest(rest: Text) | Throws(error: JsonError)

  datatype ScannedString = Read(value: Text, rest: Text) | Broken

  datatype ScannedSeparator = Another(rest: Text) | Closed(rest: Text) | Missing

  datatype ScannedMember = Pass(key: Text, rest: Text) | Bad(error: JsonError)

  // The scanner.

  /** `\s`. */
  predicate IsSpace(c: Code) {
    || 9 <= c <= 13 || c == 32 || c == 0xA0 || c == 0x1680 || 0x2000 <= c <= 0x200A
    || c == 0x2028 || c == 0x2029 || c == 0x202F || c == 0x205F || c == 0x3000 || c == 0xFEFF
  }

  function SkipWs(s: Text): (r: Text)
    ensures |r| <= |s|
    ensures r != [] ==> !IsSpace(r[0])
  {
    if s != [] && IsSpace(s[0]) then SkipWs(s[1..]) else s
  }

  /** What a one-letter escape stands for. */
  function Unescaped(letter: Code): Option<Code> {
    if letter == QUOTE || letter == BACKSLASH || letter == 47 then Some(letter)
    else if letter == 98 then Some(8)
    else if letter == 102 then Some(12)
    else if letter == 110 then Some(10)
    else if letter == 114 then Some(13)
    else if letter == 116 then Some(9)
    else None
  }

  /** The number the leading hex digits write; 0 for none. */
  function HexPrefix(s: Text, value: nat): nat {
    if s != [] && HexValue(s[0]).Some? then HexPrefix(s[1..], value * 16 + HexValue(s[0]).value) else value
  }

  /** `Number.parseInt(s, 16)`, with its white space, sign and `0x`, as `String.fromCharCode` takes it. */
  function ParseIntUnit(s: Text): Code {
    var t := SkipWs(s);
    var negative := t != [] && t[0] == 45;
    var u := if t != [] && (t[0] == 45 || t[0] == 43) then t[1..] else t;
    var digits := if |u| >= 2 && u[0] == 48 && (u[1] == 120 || u[1] == 88) then u[2..] else u;
    var value: int := HexPrefix(digits, 0);
    (if negative then -value else value) % 0x10000
  }

  /** `parseString` after the opening quote, with the value read so far. */
  function ScanUnits(s: Text, value: Text): (r: ScannedString)
    ensures r.Read? ==> |r.rest| < |s|
    decreases |s|
  {
    if s == [] then Broken
    else if s[0] == QUOTE then Read(value, s[1..])
    else if s[0] == BACKSLASH then
      if |s| == 1 then Broken
      else if Unescaped(s[1]).Some? then ScanUnits(s[2..], value + [Unescaped(s[1]).value])
      else if s[1] == 117 then
        if |s| <= 6 then Broken else ScanUnits(s[6..], value + [ParseIntUnit(s[2..6])])
      else Broken
    else ScanUnits(s[1..], value + [s[0]])
  }

  function ScanString(s: Text): (r: ScannedString)
    ensures r.Read? ==> |r.rest| < |s|
  {
    if s == [] || s[0] != QUOTE then Broken else ScanUnits(s[1..], [])
  }

  /** `[0-9eE+.\-truefalsn]`. */
  predicate IsScalarUnit(c: Code) {
    || Digit(c)
    || c in {101, 69, 43, 46, 45, 116, 114, 117, 102, 97, 108, 115, 110}
  }

  function SkipScalar(s: Text): (r: Text)
    ensures |r| <= |s|
    ensures r != [] ==> !IsScalarUnit(r[0])
  {
    if s != [] && IsScalarUnit(s[0]) then SkipScalar(s[1..]) else s
  }

  /** What follows a member or an item: a comma, the closing character, or neither. */
  function ScanSeparator(s: Text, close: Code): (r: ScannedSeparator)
    ensures !r.Missing? ==> |r.rest| < |s|
  {
    var u := SkipWs(s);
    if u == [] then Missing
    else if u[0] == COMMA then Another(u[1..])
    else if u[0] == close then Closed(u[1..])
    else Missing
  }

  predicate StartsScalar(c: Code) { c == 116 || c == 102 || c == 110 || c == 45 || Digit(c) }

  function ScanValue(s: Text): (r: Scan)
    ensures r.Rest? ==> |r.rest| < |s|
    decreases |s|, 0
  {
    var t := SkipWs(s);
    if t == [] then Throws(InvalidCanonicalJson)
    else if t[0] == 123 then
      var u := SkipWs(t[1..]);
      if u != [] && u[0] == 125 then Rest(u[1..]) else ScanMembers(u, {})
    else if t[0] == 91 then
      var u := SkipWs(t[1..]);
      if u != [] && u[0] == 93 then Rest(u[1..]) else ScanItems(u)
    else if t[0] == QUOTE then
      var read := ScanString(t);
      if read.Broken? then Throws(InvalidCanonicalJson) else Rest(read.rest)
    else if StartsScalar(t[0]) then Rest(SkipScalar(t))
    else Throws(InvalidCanonicalJson)
  }

  /** One member, from its key to its value. */
  function ScanMember(s: Text, seen: set<Text>): (r: ScannedMember)
    ensures r.Pass? ==> |r.rest| < |s|
    decreases |s|, 1
  {
    var key := ScanString(SkipWs(s));
    if key.Broken? then Bad(InvalidCanonicalJson)
    else if key.value in seen then Bad(DuplicateJsonField)
    else
      var t := SkipWs(key.rest);
      if t == [] || t[0] != COLON then Bad(InvalidCanonicalJson)
      else
        var nested := ScanValue(t[1..]);
        if nested.Throws? then Bad(nested.error) else Pass(key.value, nested.rest)
  }

  function ScanMembers(s: Text, seen: set<Text>): (r: Scan)
    ensures r.Rest? ==> |r.rest| < |s|
    decreases |s|, 2
  {
    var member := ScanMember(s, seen);
    if member.Bad? then Throws(member.error)
    else
      match ScanSeparator(member.rest, 125)
      case Another(rest) => ScanMembers(rest, seen + {member.key})
      case Closed(rest) => Rest(rest)
      case Missing => Throws(InvalidCanonicalJson)
  }

  function ScanItems(s: Text): (r: Scan)
    ensures r.Rest? ==> |r.rest| < |s|
    decreases |s|, 1
  {
    var nested := ScanValue(s);
    if nested.Throws? then nested
    else
      match ScanSeparator(nested.rest, 93)
      case Another(rest) => ScanItems(rest)
      case Closed(rest) => Rest(rest)
      case Missing => Throws(InvalidCanonicalJson)
  }

  /** The scan of a whole text: `None` when it passes. */
  function ScanText(s: Text): Option<JsonError> {
    var scanned := ScanValue(s);
    if scanned.Throws? then Some(scanned.error)
    else if SkipWs(scanned.rest) != [] then Some(InvalidCanonicalJson)
    else None
  }

  // The grammar: a document with its layout.

  datatype Piece = Raw(c: Code) | Short(letter: Code) | Hex(digits: Text)

  datatype Doc =
    | Word(text: Text)
    | Number(negative: bool, whole: Text, fraction: Text, exponent: Text)
    | String(pieces: seq<Piece>)
    | List(inner: Text, items: seq<Item>)
    | Object(inner: Text, pairs: seq<Pair>)

  datatype Item = Item(before: Text, value: Doc, after: Text)

  datatype Pair = Pair(before: Text, key: seq<Piece>, gap: Text, beforeValue: Text, value: Doc, after: Text)

  predicate IsWs(s: Text) { forall i :: 0 <= i < |s| ==> s[i] in {32, 9, 10, 13} }

  predicate IsDigits(s: Text) { forall i :: 0 <= i < |s| ==> Digit(s[i]) }

  predicate WellFormedPiece(p: Piece) {
    match p
    case Raw(c) => c >= 32 && c != QUOTE && c != BACKSLASH
    case Short(letter) => Unescaped(letter).Some?
    case Hex(digits) => |digits| == 4 && forall i :: 0 <= i < 4 ==> HexValue(digits[i]).Some?
  }

  predicate WellFormedPieces(ps: seq<Piece>) { forall i :: 0 <= i < |ps| ==> WellFormedPiece(ps[i]) }

  predicate WellFormedWhole(s: Text) { s != [] && IsDigits(s) && (s[0] == 48 ==> |s| == 1) }

  predicate WellFormedFraction(s: Text) { s == [] || (|s| >= 2 && s[0] == 46 && IsDigits(s[1..])) }

  predicate WellFormedExponent(s: Text) {
    || s == []
    || (|s| >= 2 && (s[0] == 101 || s[0] == 69)
        && (IsDigits(s[1..]) || (|s| >= 3 && (s[1] == 43 || s[1] == 45) && IsDigits(s[2..]))))
  }

  /** What RFC 8259 lets a document be. */
  predicate Grammatical(d: Doc) {
    match d
    case Word(text) => text in {NULL_TEXT, TRUE_TEXT, FALSE_TEXT}
    case Number(_, whole, fraction, exponent) =>
      WellFormedWhole(whole) && WellFormedFraction(fraction) && WellFormedExponent(exponent)
    case String(pieces) => WellFormedPieces(pieces)
    case List(inner, items) =>
      && IsWs(inner)
      && forall i :: 0 <= i < |items| ==> GrammaticalItem(items[i])
    case Object(inner, pairs) =>
      && IsWs(inner)
      && forall i :: 0 <= i < |pairs| ==> GrammaticalPair(pairs[i])
  }

  predicate GrammaticalItem(item: Item) { IsWs(item.before) && Grammatical(item.value) && IsWs(item.after) }

  predicate GrammaticalPair(p: Pair) {
    && IsWs(p.before) && WellFormedPieces(p.key) && IsWs(p.gap)
    && IsWs(p.beforeValue) && Grammatical(p.value) && IsWs(p.after)
  }

  function PieceText(p: Piece): Text {
    match p
    case Raw(c) => [c]
    case Short(letter) => [BACKSLASH, letter]
    case Hex(digits) => [BACKSLASH, 117] + digits
  }

  /** The pieces and the closing quote. */
  function PiecesText(ps: seq<Piece>): Text {
    if ps == [] then [QUOTE] else PieceText(ps[0]) + PiecesText(ps[1..])
  }

  function StringText(ps: seq<Piece>): Text { [QUOTE] + PiecesText(ps) }

  function Render(d: Doc): Text {
    match d
    case Word(text) => text
    case Number(negative, whole, fraction, exponent) =>
      (if negative then [45] else []) + whole + fraction + exponent
    case String(pieces) => StringText(pieces)
    case List(inner, items) => [91] + (if items == [] then inner + [93] else ItemsText(items))
    case Object(inner, pairs) => [123] + (if pairs == [] then inner + [125] else PairsText(pairs))
  }

  function ItemText(item: Item): Text { item.before + Render(item.value) + item.after }

  /** The items from here to the closing bracket. */
  function ItemsText(items: seq<Item>): Text
    requires items != []
  {
    if |items| == 1 then ItemText(items[0]) + [93] else ItemText(items[0]) + [COMMA] + ItemsText(items[1..])
  }

  function PairText(p: Pair): Text {
    p.before + StringText(p.key) + p.gap + [COLON] + p.beforeValue + Render(p.value) + p.after
  }

  function PairsText(pairs: seq<Pair>): Text
    requires pairs != []
  {
    if |pairs| == 1 then PairText(pairs[0]) + [125] else PairText(pairs[0]) + [COMMA] + PairsText(pairs[1..])
  }

  function HexNumber(digits: Text): Code
    requires WellFormedPiece(Hex(digits))
  {
    ((HexValue(digits[0]).value * 16 + HexValue(digits[1]).value) * 16 + HexValue(digits[2]).value) * 16
    + HexValue(digits[3]).value
  }

  /** The code unit a piece writes. */
  function UnitOf(p: Piece): Code
    requires WellFormedPiece(p)
  {
    match p
    case Raw(c) => c
    case Short(letter) => Unescaped(letter).value
    case Hex(digits) => HexNumber(digits)
  }

  /** What a string says. */
  function Value(ps: seq<Piece>): Text
    requires WellFormedPieces(ps)
  {
    if ps == [] then [] else [UnitOf(ps[0])] + Value(ps[1..])
  }

  /** What a member's key says. */
  function KeyOf(p: Pair): Text
    requires GrammaticalPair(p)
  {
    Value(p.key)
  }

  /** No object at any depth has two members whose unescaped keys are equal. */
  predicate NoDuplicates(d: Doc)
    requires Grammatical(d)
  {
    match d
    case List(_, items) => forall i :: 0 <= i < |items| ==> CleanItem(items[i])
    case Object(_, pairs) =>
      && (forall i :: 0 <= i < |pairs| ==> CleanPair(pairs[i]))
      && forall i, j :: 0 <= i < j < |pairs| ==> KeyOf(pairs[i]) != KeyOf(pairs[j])
    case _ => true
  }

  predicate CleanItem(item: Item)
    requires GrammaticalItem(item)
  {
    NoDuplicates(item.value)
  }

  predicate CleanPair(p: Pair)
    requires GrammaticalPair(p)
  {
    NoDuplicates(p.value)
  }
}
