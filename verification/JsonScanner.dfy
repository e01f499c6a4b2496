/** The scan as it runs, on an index into the text, and `parseStrictJson` on top of it. */
module JsonScanner {
  import opened Basics
  import opened Unicode
  import opened Json
  import opened StrictJson
  import opened JsonScan

  /** What `parseString` and `parseValue` answer; a thrown error is in `error`. */
  datatype ParsedString = ParsedString(value: Text, next: nat)

  datatype Next = At(next: nat) | Error(error: JsonError)

  /** An index answer and a suffix answer are the same. */
  ghost predicate SameScan(text: Text, r: Next, scan: Scan) {
    match r
    case At(next) => next <= |text| && scan == Rest(text[next..])
    case Error(error) => scan == Throws(error)
  }

  ghost predicate SameString(text: Text, r: Option<ParsedString>, scan: ScannedString) {
    if r.Some? then r.value.next <= |text| && scan == Read(r.value.value, text[r.value.next..]) else scan.Broken?
  }

  method SkipWhitespace(text: Text, start: nat) returns (i: nat)
    requires start <= |text|
    ensures start <= i <= |text| && text[i..] == SkipWs(text[start..])
  {
    i := start;
    while i < |text| && IsSpace(text[i])
      invariant start <= i <= |text| && SkipWs(text[i..]) == SkipWs(text[start..])
    {
      assert text[i..][1..] == text[i + 1..];
      i := i + 1;
    }
  }

  lemma RawStep(text: Text, i: nat, value: Text)
    requires i < |text| && text[i] != QUOTE && text[i] != BACKSLASH
    ensures ScanUnits(text[i..], value) == ScanUnits(text[i + 1..], value + [text[i]])
  {
    assert text[i..][1..] == text[i + 1..];
  }

  lemma ShortStep(text: Text, i: nat, value: Text)
    requires i + 1 < |text| && text[i] == BACKSLASH && Unescaped(text[i + 1]).Some?
    ensures ScanUnits(text[i..], value) == ScanUnits(text[i + 2..], value + [Unescaped(text[i + 1]).value])
  {
    assert text[i..][2..] == text[i + 2..];
  }

  lemma HexStepAt(text: Text, i: nat, value: Text)
    requires i + 1 < |text| && text[i] == BACKSLASH && text[i + 1] == 117
    ensures i + 6 < |text| ==>
      ScanUnits(text[i..], value) == ScanUnits(text[i + 6..], value + [ParseIntUnit(text[i + 2..i + 6])])
    ensures i + 6 >= |text| ==> ScanUnits(text[i..], value).Broken?
  {
    if i + 6 < |text| {
      assert text[i..][6..] == text[i + 6..] && text[i..][2..6] == text[i + 2..i + 6];
    }
  }

  /** One escape: the value and index after it. */
  method ParseEscape(text: Text, i: nat, value: Text) returns (r: Option<(Text, nat)>)
    requires i < |text| && text[i] == BACKSLASH
    ensures r.None? ==> ScanUnits(text[i..], value).Broken?
    ensures r.Some? ==> i < r.value.1
    ensures r.Some? && r.value.1 <= |text| ==>
      ScanUnits(text[i..], value) == ScanUnits(text[r.value.1..], r.value.0)
    ensures r.Some? && r.value.1 > |text| ==> ScanUnits(text[i..], value).Broken?
  {
    if i + 1 == |text| {
      return None;
    }
    var letter := text[i + 1];
    if Unescaped(letter).Some? {
      ShortStep(text, i, value);
      return Some((value + [Unescaped(letter).value], i + 2));
    }
    if letter != 117 {
      return None;
    }
    HexStepAt(text, i, value);
    var hex := text[i + 2..if i + 6 < |text| then i + 6 else |text|];
    r := Some((value + [ParseIntUnit(hex)], i + 6));
  }

  method ParseString(text: Text, start: nat) returns (r: Option<ParsedString>)
    requires start <= |text|
    ensures SameString(text, r, ScanString(text[start..]))
    ensures r.Some? ==> start < r.value.next
  {
    if start == |text| || text[start] != QUOTE {
      return None;
    }
    var i := start + 1;
    var value: Text := [];
    ghost var scan := ScanString(text[start..]);
    assert text[start..][1..] == text[i..];
    while i < |text|
      invariant start < i
      invariant i <= |text| ==> ScanUnits(text[i..], value) == scan
      invariant i > |text| ==> scan.Broken?
      decreases |text| - i
    {
      var ch := text[i];
      if ch == QUOTE {
        assert text[i..][1..] == text[i + 1..];
        return Some(ParsedString(value, i + 1));
      }
      if ch == BACKSLASH {
        var escape := ParseEscape(text, i, value);
        if escape.None? {
          return None;
        }
        value, i := escape.value.0, escape.value.1;
      } else {
        RawStep(text, i, value);
        value := value + [ch];
        i := i + 1;
      }
    }
    return None;
  }

  method SkipScalarAt(text: Text, start: nat) returns (i: nat)
    requires start <= |text|
    ensures start <= i <= |text| && text[i..] == SkipScalar(text[start..])
  {
    i := start;
    while i < |text| && IsScalarUnit(text[i])
      invariant start <= i <= |text| && SkipScalar(text[i..]) == SkipScalar(text[start..])
    {
      assert text[i..][1..] == text[i + 1..];
      i := i + 1;
    }
  }

  method ParseValue(text: Text, start: nat) returns (r: Next)
    requires start <= |text|
    ensures SameScan(text, r, ScanValue(text[start..]))
    decreases |text| - start, 0
  {
    var i := SkipWhitespace(text, start);
    if i == |text| {
      return Error(InvalidCanonicalJson);
    }
    var ch := text[i];
    ghost var t := text[i..];
    assert t[1..] == text[i + 1..];
    if ch == 123 {
      i := SkipWhitespace(text, i + 1);
      if i < |text| && text[i] == 125 {
        assert text[i..][1..] == text[i + 1..];
        return At(i + 1);
      }
      r := ParseMembers(text, i);
    } else if ch == 91 {
      i := SkipWhitespace(text, i + 1);
      if i < |text| && text[i] == 93 {
        assert text[i..][1..] == text[i + 1..];
        return At(i + 1);
      }
      r := ParseItems(text, i);
    } else if ch == QUOTE {
      var read := ParseString(text, i);
      r := if read.Some? then At(read.value.next) else Error(InvalidCanonicalJson);
    } else if StartsScalar(ch) {
      i := SkipScalarAt(text, i);
      r := At(i);
    } else {
      r := Error(InvalidCanonicalJson);
    }
  }

  datatype Separator = NextAt(next: nat) | ClosedAt(next: nat) | Neither

  ghost predicate SameSeparator(text: Text, r: Separator, scan: ScannedSeparator) {
    match r
    case NextAt(next) => next <= |text| && scan == Another(text[next..])
    case ClosedAt(next) => next <= |text| && scan == Closed(text[next..])
    case Neither => scan == Missing
  }

  /** What follows a member or an item. */
  method ParseSeparator(text: Text, start: nat, close: Code) returns (r: Separator)
    requires start <= |text|
    ensures SameSeparator(text, r, ScanSeparator(text[start..], close))
    ensures !r.Neither? ==> start < r.next
  {
    var i := SkipWhitespace(text, start);
    if i == |text| {
      return Neither;
    }
    assert text[i..][1..] == text[i + 1..];
    r := if text[i] == COMMA then NextAt(i + 1) else if text[i] == close then ClosedAt(i + 1) else Neither;
  }

  datatype NextMember = Parsed(key: Text, next: nat) | Refused(error: JsonError)

  ghost predicate SameMember(text: Text, r: NextMember, scan: ScannedMember) {
    match r
    case Parsed(key, next) => next <= |text| && scan == Pass(key, text[next..])
    case Refused(error) => scan == Bad(error)
  }

  /** A string after white space. */
  method ParseKey(text: Text, start: nat) returns (r: Option<ParsedString>)
    requires start <= |text|
    ensures SameString(text, r, ScanString(SkipWs(text[start..])))
    ensures r.Some? ==> start < r.value.next
  {
    var i := SkipWhitespace(text, start);
    r := ParseString(text, i);
  }

  /** The value after a key: white space, the colon, the value. */
  method ParseKeyed(text: Text, start: nat) returns (r: Next)
    requires start <= |text|
    ensures var t := SkipWs(text[start..]);
            SameScan(text, r, if t == [] || t[0] != COLON then Throws(InvalidCanonicalJson) else ScanValue(t[1..]))
    ensures r.At? ==> start < r.next
    decreases |text| - start, 1
  {
    var i := SkipWhitespace(text, start);
    if i == |text| || text[i] != COLON {
      return Error(InvalidCanonicalJson);
    }
    assert text[i..][1..] == text[i + 1..];
    r := ParseValue(text, i + 1);
    if r.At? { NextIsLater(text, i + 1, r.next); }
  }

  /** One member, unless its key was seen. */
  method ParseMember(text: Text, start: nat, seen: set<Text>) returns (r: NextMember)
    requires start <= |text|
    ensures SameMember(text, r, ScanMember(text[start..], seen))
    ensures r.Parsed? ==> start < r.next
    decreases |text| - start, 2
  {
    var key := ParseKey(text, start);
    if key.None? {
      return Refused(InvalidCanonicalJson);
    }
    if key.value.value in seen {
      return Refused(DuplicateJsonField);
    }
    var nested := ParseKeyed(text, key.value.next);
    r := if nested.Error? then Refused(nested.error) else Parsed(key.value.value, nested.next);
  }

  /** The loop over an object's members, with the keys it has seen. */
  method ParseMembers(text: Text, start: nat) returns (r: Next)
    requires start <= |text|
    ensures SameScan(text, r, ScanMembers(text[start..], {}))
    decreases |text| - start, 3
  {
    var i := start;
    var seen: set<Text> := {};
    while i < |text|
      invariant start <= i <= |text|
      invariant ScanMembers(text[i..], seen) == ScanMembers(text[start..], {})
      decreases |text| - i
    {
      var member := ParseMember(text, i, seen);
      if member.Refused? {
        return Error(member.error);
      }
      var separator := ParseSeparator(text, member.next, 125);
      match separator {
        case NextAt(next) =>
          seen := seen + {member.key};
          i := next;
        case ClosedAt(next) =>
          return At(next);
        case Neither =>
          return Error(InvalidCanonicalJson);
      }
    }
    return Error(InvalidCanonicalJson);
  }

  /** The loop over a list's items. */
  method ParseItems(text: Text, start: nat) returns (r: Next)
    requires start <= |text|
    ensures SameScan(text, r, ScanItems(text[start..]))
    decreases |text| - start, 3
  {
    var i := start;
    while i < |text|
      invariant start <= i <= |text|
      invariant ScanItems(text[i..]) == ScanItems(text[start..])
      decreases |text| - i
    {
      var nested := ParseValue(text, i);
      if nested.Error? {
        return nested;
      }
      NextIsLater(text, i, nested.next);
      var separator := ParseSeparator(text, nested.next, 93);
      match separator {
        case NextAt(next) =>
          i := next;
        case ClosedAt(next) =>
          return At(next);
        case Neither =>
          return Error(InvalidCanonicalJson);
      }
    }
    return Error(InvalidCanonicalJson);
  }

  /** A scanned value takes at least one unit. */
  lemma NextIsLater(text: Text, start: nat, next: nat)
    requires start <= |text| && SameScan(text, At(next), ScanValue(text[start..]))
    ensures start < next
  {
  }

  // `parseStrictJson`.

  /** What `JSON.parse` made of the text: an object with these own keys, or any other value. */
  datatype ParsedJson = Keyed(keys: seq<Text>) | Unkeyed

  predicate Distinct(keys: seq<Text>) { forall i, j :: 0 <= i < j < |keys| ==> keys[i] != keys[j] }

  function KeySet(keys: seq<Text>): set<Text> { set i | 0 <= i < |keys| :: keys[i] }

  lemma {:induction false} DistinctKeysCount(keys: seq<Text>)
    requires Distinct(keys)
    ensures |KeySet(keys)| == |keys|
  {
    if keys != [] {
      var n := |keys| - 1;
      DistinctKeysCount(keys[..n]);
      assert KeySet(keys) == KeySet(keys[..n]) + {keys[n]};
      assert keys[n] !in KeySet(keys[..n]);
    }
  }

  lemma SameSizeSubset(a: set<Text>, b: set<Text>)
    requires a <= b && |a| == |b|
    ensures a == b
  {
    assert |b - a| == |b| - |a|;
  }

  /** The check of `exactKeys`: every key is listed, and as many as are listed. */
  method CheckExactKeys(keys: seq<Text>, exactKeys: seq<Text>) returns (error: Option<JsonError>)
    requires Distinct(keys) && Distinct(exactKeys)
    ensures error.None? <==> KeySet(keys) == KeySet(exactKeys)
    ensures error == Some(UnknownJsonField) <==> !(KeySet(keys) <= KeySet(exactKeys))
  {
    for i := 0 to |keys|
      invariant KeySet(keys[..i]) <= KeySet(exactKeys)
    {
      if keys[i] !in exactKeys {
        assert keys[i] in KeySet(keys) && keys[i] !in KeySet(exactKeys);
        return Some(UnknownJsonField);
      }
      assert KeySet(keys[..i + 1]) == KeySet(keys[..i]) + {keys[i]};
    }
    assert keys[..|keys|] == keys;
    DistinctKeysCount(keys);
    DistinctKeysCount(exactKeys);
    if |keys| != |exactKeys| {
      return Some(InvalidCanonicalJson);
    }
    SameSizeSubset(KeySet(keys), KeySet(exactKeys));
    return None;
  }

  /** `parsed` is `JSON.parse`'s answer, `None` when it throws. */
  method ParseStrictJson(text: Text, parsed: Option<ParsedJson>, exactKeys: Option<seq<Text>>)
    returns (accepted: bool, error: Option<JsonError>)
    requires exactKeys.Some? ==> Distinct(exactKeys.value)
    requires parsed.Some? && parsed.value.Keyed? ==> Distinct(parsed.value.keys)
    ensures accepted <==>
      && ScanText(text).None? && parsed.Some?
      && (exactKeys.Some? && parsed.value.Keyed? ==> KeySet(parsed.value.keys) == KeySet(exactKeys.value))
    ensures ScanText(text).Some? ==> error == ScanText(text)
  {
    assert text[0..] == text;
    var scanned := ParseValue(text, 0);
    if scanned.Error? {
      return false, Some(scanned.error);
    }
    var end := SkipWhitespace(text, scanned.next);
    if end != |text| {
      return false, Some(InvalidCanonicalJson);
    }
    assert ScanText(text).None?;
    if parsed.None? {
      return false, None;
    }
    if exactKeys.Some? && parsed.value.Keyed? {
      error := CheckExactKeys(parsed.value.keys, exactKeys.value);
      return error.None?, error;
    }
    return true, None;
  }
}
