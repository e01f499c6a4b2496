/**
 Canonical text is grammatical, and the duplicate-rejecting scan finds in it exactly
 the repeated keys of its value: the text of a value is the document without layout,
 with the escapes the printer chooses, in the value's JavaScript form.
 */
module CanonicalScan {
  import opened Basics
  import opened Unicode
  import opened Json
  import opened StrictJson
  import opened JsonScan
  import opened JcsWriters
  import Jcs

  /** The document a compact text is. */
  function DocOf(v: Json): Doc {
    match v
    case Null => Word(NULL_TEXT)
    case Bool(b) => Word(if b then TRUE_TEXT else FALSE_TEXT)
    case Num(n) => Number(n < 0, Digits(if n < 0 then -n else n), [], [])
    case Float => Word(NULL_TEXT)
    case Str(s) => String(PiecesOf(s))
    case Arr(items) => List([], ItemsOf(items))
    case Obj(ms) => Object([], PairsOf(ms))
  }

  function ItemsOf(items: seq<Json>): (r: seq<Item>)
    ensures |r| == |items| && forall i :: 0 <= i < |items| ==> r[i] == Item([], DocOf(items[i]), [])
  {
    if items == [] then [] else [Item([], DocOf(items[0]), [])] + ItemsOf(items[1..])
  }

  function PairOf(m: Member): Pair { Pair([], PiecesOf(m.key), [], [], DocOf(m.value), []) }

  function PairsOf(ms: seq<Member>): (r: seq<Pair>)
    ensures |r| == |ms| && forall i :: 0 <= i < |ms| ==> r[i] == PairOf(ms[i])
  {
    if ms == [] then [] else [PairOf(ms[0])] + PairsOf(ms[1..])
  }

  lemma {:induction false} DigitsAreWhole(n: nat)
    ensures WellFormedWhole(Digits(n)) && (n > 0 ==> Digits(n)[0] != 48)
  {
    if n >= 10 { DigitsAreWhole(n / 10); }
  }

  lemma {:induction false} DocOfIsGrammatical(v: Json)
    requires FloatFree(v)
    ensures Grammatical(DocOf(v))
  {
    match v
    case Num(n) => DigitsAreWhole(if n < 0 then -n else n);
    case Str(s) => PiecesOfWrite(s);
    case Arr(items) =>
      forall i | 0 <= i < |items| ensures GrammaticalItem(ItemsOf(items)[i]) { DocOfIsGrammatical(items[i]); }
    case Obj(ms) =>
      forall i | 0 <= i < |ms| ensures GrammaticalPair(PairsOf(ms)[i]) {
        DocOfIsGrammatical(ms[i].value);
        PiecesOfWrite(ms[i].key);
      }
    case _ =>
  }

  lemma {:induction false} DocOfRenders(v: Json)
    requires FloatFree(v)
    ensures Render(DocOf(v)) == Print(v)
  {
    match v
    case Num(n) =>
      var whole := Digits(if n < 0 then -n else n);
      assert whole + [] + [] == whole;
      assert [] + whole == whole;
    case Str(s) => PiecesOfWrite(s);
    case Arr(items) => if items != [] { ItemsOfRender(items); }
    case Obj(ms) => if ms != [] { PairsOfRender(ms); }
    case _ =>
  }

  lemma {:induction false} ItemsOfRender(items: seq<Json>)
    requires items != [] && FloatFreeItems(items)
    ensures ItemsText(ItemsOf(items)) == Items(items)
  {
    var t := Print(items[0]);
    DocOfRenders(items[0]);
    assert [] + t + [] == t;
    if |items| > 1 {
      ItemsOfRender(items[1..]);
      assert ItemsOf(items)[1..] == ItemsOf(items[1..]);
      Assoc([COMMA], Print(items[1]), ItemsTail(items[1..][1..]));
      Assoc(t, [COMMA], Items(items[1..]));
    }
  }

  lemma Bare(a: Text)
    ensures [] + a == a && a + [] == a
  {
  }

  lemma PairWithoutLayout(k: Text, t: Text)
    ensures [] + k + [] + [COLON] + [] + t + [] == k + [COLON] + t
  {
    Bare(k);
    Bare(k + [COLON]);
    Bare(k + [COLON] + t);
  }

  lemma {:induction false} PairOfRenders(m: Member)
    requires FloatFree(m.value)
    ensures PairText(PairOf(m)) == PrintMember(m)
  {
    DocOfRenders(m.value);
    PiecesOfWrite(m.key);
    PairWithoutLayout(Quote(m.key), Print(m.value));
  }

  lemma {:induction false} PairsOfRender(ms: seq<Member>)
    requires ms != [] && FloatFreeMembers(ms)
    ensures PairsText(PairsOf(ms)) == Members(ms)
  {
    PairOfRenders(ms[0]);
    if |ms| > 1 {
      PairsOfRender(ms[1..]);
      assert PairsOf(ms)[1..] == PairsOf(ms[1..]);
      Assoc([COMMA], PrintMember(ms[1]), MembersTail(ms[1..][1..]));
      Assoc(PrintMember(ms[0]), [COMMA], Members(ms[1..]));
    }
  }

  // A value's JavaScript form repeats a key exactly when the value does.

  lemma {:induction false} FloatFreeInUtf16(v: Json)
    requires FloatFree(v)
    ensures FloatFree(InUtf16(v))
  {
    match v
    case Arr(items) => forall i | 0 <= i < |items| ensures FloatFree(InUtf16(items[i])) { FloatFreeInUtf16(items[i]); }
    case Obj(ms) => forall i | 0 <= i < |ms| ensures FloatFree(InUtf16(ms[i].value)) { FloatFreeInUtf16(ms[i].value); }
    case _ =>
  }

  lemma PairKey(m: Member)
    requires GrammaticalPair(PairOf(MemberInUtf16(m)))
    ensures KeyOf(PairOf(MemberInUtf16(m))) == Utf16(m.key)
  {
    PiecesOfWrite(Utf16(m.key));
  }

  ghost predicate DistinctPairs(ps: seq<Pair>)
    requires GrammaticalPairs(ps)
  {
    forall i, j :: 0 <= i < j < |ps| ==> KeyOf(ps[i]) != KeyOf(ps[j])
  }

  lemma PairsAreDistinct(ms: seq<Member>)
    requires GrammaticalPairs(PairsOf(MembersInUtf16(ms)))
    ensures DistinctPairs(PairsOf(MembersInUtf16(ms))) <==> Jcs.DistinctKeys(ms)
  {
    var ps := PairsOf(MembersInUtf16(ms));
    forall i | 0 <= i < |ms| ensures KeyOf(ps[i]) == Utf16(ms[i].key) { PairKey(ms[i]); }
    if DistinctPairs(ps) {
      forall i, j | 0 <= i < j < |ms| ensures Utf16(ms[i].key) != Utf16(ms[j].key) {
        assert KeyOf(ps[i]) != KeyOf(ps[j]);
      }
    }
  }

  lemma {:induction false} RepeatsNothingNew(v: Json)
    requires Grammatical(DocOf(InUtf16(v)))
    ensures NoDuplicates(DocOf(InUtf16(v))) <==> Jcs.WellFormed(v)
    decreases v, 0
  {
    match v
    case Arr(items) =>
      var parts := ItemsOf(ItemsInUtf16(items));
      forall i | 0 <= i < |items| ensures CleanItem(parts[i]) <==> Jcs.WellFormed(items[i]) {
        assert GrammaticalItem(parts[i]);
        RepeatsNothingNew(items[i]);
      }
    case Obj(ms) =>
      MembersRepeatNothingNew(ms);
      ObjectRepeatsNothing(PairsOf(MembersInUtf16(ms)));
    case _ =>
  }

  lemma {:induction false} PairIsClean(m: Member)
    requires GrammaticalPair(PairOf(MemberInUtf16(m)))
    ensures CleanPair(PairOf(MemberInUtf16(m))) <==> Jcs.WellFormed(m.value)
    decreases m
  {
    RepeatsNothingNew(m.value);
  }

  ghost predicate CleanPairs(ps: seq<Pair>)
    requires GrammaticalPairs(ps)
  {
    forall i :: 0 <= i < |ps| ==> CleanPair(ps[i])
  }

  lemma ObjectRepeatsNothing(ps: seq<Pair>)
    requires GrammaticalPairs(ps) && Grammatical(Object([], ps))
    ensures NoDuplicates(Object([], ps)) <==> CleanPairs(ps) && DistinctPairs(ps)
  {
  }

  predicate MembersWellFormed(ms: seq<Member>) { forall i :: 0 <= i < |ms| ==> Jcs.WellFormed(ms[i].value) }

  lemma {:induction false} MembersAreClean(ms: seq<Member>)
    requires GrammaticalPairs(PairsOf(MembersInUtf16(ms)))
    ensures CleanPairs(PairsOf(MembersInUtf16(ms))) <==> MembersWellFormed(ms)
    decreases ms, 0
  {
    var ps := PairsOf(MembersInUtf16(ms));
    forall i | 0 <= i < |ms| ensures CleanPair(ps[i]) <==> Jcs.WellFormed(ms[i].value) {
      assert ps[i] == PairOf(MemberInUtf16(ms[i]));
      PairIsClean(ms[i]);
    }
  }

  lemma {:induction false} MembersRepeatNothingNew(ms: seq<Member>)
    requires GrammaticalPairs(PairsOf(MembersInUtf16(ms)))
    ensures CleanPairs(PairsOf(MembersInUtf16(ms))) && DistinctPairs(PairsOf(MembersInUtf16(ms)))
       <==> MembersWellFormed(ms) && Jcs.DistinctKeys(ms)
    decreases ms, 1
  {
    PairsAreDistinct(ms);
    MembersAreClean(ms);
  }

  lemma PrintedTextScans(w: Json)
    requires FloatFree(w)
    ensures Grammatical(DocOf(w))
    ensures ScanText(Print(w)) == if NoDuplicates(DocOf(w)) then None else Some(DuplicateJsonField)
  {
    DocOfIsGrammatical(w);
    DocOfRenders(w);
    GrammaticalTextScans([], DocOf(w), []);
    assert [] + Print(w) + [] == Print(w);
  }

  /** The scan of a value's compact text passes exactly when no object in it repeats a key. */
  lemma CompactTextScans(v: Json)
    requires FloatFree(v)
    ensures ScanText(Utf16(Print(v))) == if Jcs.WellFormed(v) then None else Some(DuplicateJsonField)
  {
    PrintUtf16(v);
    FloatFreeInUtf16(v);
    PrintedTextScans(InUtf16(v));
    RepeatsNothingNew(v);
  }
}
