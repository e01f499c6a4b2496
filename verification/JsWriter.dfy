/** The TypeScript printer as it runs, on strings of UTF-16 units. */
module JsWriter {
  import opened Basics
  import opened Unicode
  import opened Json
  import opened Jcs
  import opened JcsWriters

  /** Every string in the value is a JavaScript string. */
  predicate JsValue(v: Json) {
    match v
    case Str(s) => Units(s)
    case Arr(items) => forall i :: 0 <= i < |items| ==> JsValue(items[i])
    case Obj(ms) => JsMembers(ms) && forall i :: 0 <= i < |ms| ==> JsValue(ms[i].value)
    case _ => true
  }

  predicate JsMembers(ms: seq<Member>) { forall i :: 0 <= i < |ms| ==> Units(ms[i].key) }

  lemma {:induction false} InsertAt(m: Member, ms: seq<Member>, p: nat)
    requires p <= |ms| && (forall q :: 0 <= q < p ==> !Before(m, ms[q])) && (p < |ms| ==> Before(m, ms[p]))
    ensures Insert(m, ms) == ms[..p] + [m] + ms[p..]
    decreases p
  {
    if p == 0 {
      assert ms[..0] == [] && [] + [m] + ms[0..] == [m] + ms;
    } else {
      InsertAt(m, ms[1..], p - 1);
      assert Insert(m, ms) == [ms[0]] + Insert(m, ms[1..]);
      Shifted(m, ms, p);
    }
  }

  lemma Shifted(m: Member, ms: seq<Member>, p: nat)
    requires 0 < p <= |ms|
    ensures [ms[0]] + (ms[1..][..p - 1] + [m] + ms[1..][p - 1..]) == ms[..p] + [m] + ms[p..]
  {
    assert ms[..p] == [ms[0]] + ms[1..][..p - 1];
    assert ms[1..][p - 1..] == ms[p..];
  }

  /** One member into a sorted list, by `utf16Cmp`. */
  method InsertByKey(m: Member, ms: seq<Member>) returns (r: seq<Member>)
    requires Units(m.key) && JsMembers(ms)
    ensures r == Insert(m, ms) && JsMembers(r)
  {
    Utf16OfUnits(m.key);
    var p := 0;
    while p < |ms|
      invariant p <= |ms| && forall q :: 0 <= q < p ==> !Before(m, ms[q])
    {
      Utf16OfUnits(ms[p].key);
      var order := Utf16Cmp(m.key, ms[p].key);
      if order < 0 {
        break;
      }
      p := p + 1;
    }
    InsertAt(m, ms, p);
    r := ms[..p] + [m] + ms[p..];
  }

  /** `keys.sort(utf16Cmp)`. */
  method SortByKey(ms: seq<Member>) returns (keys: seq<Member>)
    requires JsMembers(ms)
    ensures keys == Sort(ms) && JsMembers(keys)
  {
    keys := [];
    assert ms[|ms|..] == [];
    for i := |ms| downto 0
      invariant keys == Sort(ms[i..]) && JsMembers(keys)
    {
      assert ms[i..][1..] == ms[i + 1..];
      keys := InsertByKey(ms[i], keys);
    }
    assert ms[0..] == ms;
  }

  predicate JsValues(ms: seq<Member>) { forall i :: 0 <= i < |ms| ==> JsValue(ms[i].value) }

  lemma SortedValues(ms: seq<Member>)
    requires JsValues(ms)
    ensures JsValues(Sort(ms))
  {
    forall i | 0 <= i < |ms| ensures JsValue(Sort(ms)[i].value) { assert Sort(ms)[i] in ms; }
  }

  /** `appendJcs` and `appendJsonString`; `out` is the pushed pieces joined. */
  class Writer {
    var out: Text

    constructor ()
      ensures out == []
    {
      out := [];
    }

    method AppendJsonString(value: Text)
      requires Units(value)
      modifies this
      ensures out == old(out) + Quote(value)
    {
      out := AppendJsonStringUnits(out, value);
    }

    /** Appends the canonical text; throws exactly for a number that is not an integer. */
    method AppendJcs(v: Json) returns (ok: bool)
      requires JsValue(v)
      modifies this
      ensures ok <==> FloatFree(v)
      ensures ok ==> out == old(out) + Canonical(v)
      decreases v, 1
    {
      match v {
        case Null => out := out + NULL_TEXT; ok := true;
        case Bool(b) => out := out + if b then TRUE_TEXT else FALSE_TEXT; ok := true;
        case Num(n) => out := out + Decimal(n); ok := true;
        case Float => ok := false;
        case Str(s) => AppendJsonString(s); ok := true;
        case Arr(items) =>
          out := out + [91];
          ok := AppendItems(items);
          if ok { Assoc(old(out), [91], Items(CanonItems(items))); }
        case Obj(ms) =>
          out := out + [123];
          var keys := SortByKey(ms);
          SortedParts(ms);
          SortedValues(ms);
          SortCommutes(ms);
          ok := AppendMembers(keys, v);
          if ok { Assoc(old(out), [123], Members(Sort(CanonMembers(ms)))); }
      }
    }

    method AppendItems(items: seq<Json>) returns (ok: bool)
      requires JsValue(Arr(items))
      modifies this
      ensures ok <==> FloatFree(Arr(items))
      ensures ok ==> out == old(out) + Items(CanonItems(items))
      decreases items, 0
    {
      ghost var c := CanonItems(items);
      for i := 0 to |items|
        invariant forall j :: 0 <= j < i ==> FloatFree(items[j])
        invariant out + ItemsLeft(c, i) == old(out) + Items(c)
      {
        ItemsLeftStep(c, i);
        ghost var sep := if i > 0 then [COMMA] else [];
        ghost var before := out;
        if i > 0 { out := out + [44]; }
        assert out == before + sep;
        ok := AppendJcs(items[i]);
        if !ok { return; }
        Regroup(before, sep, Print(c[i]), ItemsLeft(c, i + 1));
      }
      out := out + [93];
      ok := true;
    }

    method AppendMember(m: Member, separate: bool) returns (ok: bool)
      requires Units(m.key) && JsValue(m.value)
      modifies this
      ensures ok <==> FloatFree(m.value)
      ensures ok ==>
        out == old(out) + (if separate then [COMMA] else []) + PrintMember(Member(m.key, Canon(m.value)))
      decreases m.value, 2
    {
      if separate { out := out + [44]; }
      ghost var base := old(out) + if separate then [COMMA] else [];
      assert out == base;
      AppendJsonString(m.key);
      out := out + [58];
      ok := AppendJcs(m.value);
      if ok { Regroup(base, Quote(m.key), [COLON], Canonical(m.value)); }
    }

    method AppendMembers(keys: seq<Member>, ghost v: Json) returns (ok: bool)
      requires PartsOf(keys, v) && JsMembers(keys) && JsValues(keys)
      modifies this
      ensures ok <==> FloatFreeMembers(keys)
      ensures ok ==> out == old(out) + Members(CanonMembers(keys))
      decreases v, 0
    {
      ghost var c := CanonMembers(keys);
      for i := 0 to |keys|
        invariant forall j :: 0 <= j < i ==> FloatFree(keys[j].value)
        invariant out + MembersLeft(c, i) == old(out) + Members(c)
      {
        ghost var before := out;
        ok := AppendMember(keys[i], i > 0);
        if !ok { return; }
        MembersLeftStep(c, i);
        Regroup(before, if i > 0 then [COMMA] else [], PrintMember(c[i]), MembersLeft(c, i + 1));
      }
      out := out + [125];
      ok := true;
    }
  }

  /** `canonicalizeJsonValue`: of a Rust value's JavaScript form, it is the Rust text in UTF-16. */
  method CanonicalizeJsValue(v: Json) returns (text: Option<Text>)
    requires JsValue(v)
    ensures text == if FloatFree(v) then Some(Canonical(v)) else None
    ensures forall w :: v == InUtf16(w) && text.Some? ==> text.value == Utf16(Canonical(w))
  {
    var writer := new Writer();
    var ok := writer.AppendJcs(v);
    assert [] + Canonical(v) == Canonical(v);
    text := if ok then Some(writer.out) else None;
    forall w | v == InUtf16(w) ensures Canonical(v) == Utf16(Canonical(w)) { PrintersAgree(w); }
  }

  /** The JavaScript form of any value is made of JavaScript strings. */
  lemma {:induction false} InUtf16IsJs(v: Json)
    ensures JsValue(InUtf16(v))
  {
    match v
    case Str(s) => Utf16IsUnits(s);
    case Arr(items) => forall i | 0 <= i < |items| ensures JsValue(InUtf16(items[i])) { InUtf16IsJs(items[i]); }
    case Obj(ms) =>
      forall i | 0 <= i < |ms| ensures Units(Utf16(ms[i].key)) && JsValue(InUtf16(ms[i].value)) {
        Utf16IsUnits(ms[i].key);
        InUtf16IsJs(ms[i].value);
      }
    case _ =>
  }
}
