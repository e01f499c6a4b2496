/** Canonical JSON: members sorted by the UTF-16 units of their keys. */
module Jcs {
  import opened Basics
  import opened Unicode
  import opened Json

  // The Rust printer over scalar values and the TypeScript one over UTF-16 units both
  // print this form, at every depth.

  // The order of keys.

  function Less(a: Text, b: Text): bool {
    if b == [] then false
    else if a == [] then true
    else if a[0] != b[0] then a[0] < b[0]
    else Less(a[1..], b[1..])
  }

  lemma {:induction false} LessTrichotomy(a: Text, b: Text)
    ensures Less(a, b) || a == b || Less(b, a)
    ensures !(Less(a, b) && Less(b, a)) && !Less(a, a)
  {
    if a != [] && b != [] && a[0] == b[0] {
      LessTrichotomy(a[1..], b[1..]);
      assert a == [a[0]] + a[1..] && b == [b[0]] + b[1..];
    }
    if a != [] { LessTrichotomy(a[1..], a[1..]); }
  }

  lemma {:induction false} LessTransitive(a: Text, b: Text, c: Text)
    requires Less(a, b) && Less(b, c)
    ensures Less(a, c)
  {
    if a != [] && a[0] == b[0] == c[0] {
      LessTransitive(a[1..], b[1..], c[1..]);
    }
  }

  predicate Before(a: Member, b: Member) { Less(Utf16(a.key), Utf16(b.key)) }

  predicate Sorted(ms: seq<Member>) {
    forall i, j :: 0 <= i < j < |ms| ==> Before(ms[i], ms[j])
  }

  predicate DistinctKeys(ms: seq<Member>) {
    forall i, j :: 0 <= i < j < |ms| ==> Utf16(ms[i].key) != Utf16(ms[j].key)
  }

  function Insert(m: Member, ms: seq<Member>): (r: seq<Member>)
    ensures |r| == |ms| + 1 && forall x :: x in r <==> x == m || x in ms
  {
    if ms == [] then [m]
    else if Before(m, ms[0]) then [m] + ms
    else
      var r := [ms[0]] + Insert(m, ms[1..]);
      assert ms == [ms[0]] + ms[1..];
      r
  }

  /** The members in canonical order, as the key sort leaves them. */
  function Sort(ms: seq<Member>): (r: seq<Member>)
    ensures |r| == |ms| && forall x :: x in r <==> x in ms
  {
    if ms == [] then []
    else
      assert ms == [ms[0]] + ms[1..];
      Insert(ms[0], Sort(ms[1..]))
  }

  lemma {:induction false} InsertSorted(m: Member, ms: seq<Member>)
    requires Sorted(ms) && forall x :: x in ms ==> Utf16(x.key) != Utf16(m.key)
    ensures Sorted(Insert(m, ms))
  {
    if ms == [] {
    } else if Before(m, ms[0]) {
      forall j | 0 < j < |ms| ensures Before(m, ms[j]) {
        LessTransitive(Utf16(m.key), Utf16(ms[0].key), Utf16(ms[j].key));
      }
    } else {
      LessTrichotomy(Utf16(m.key), Utf16(ms[0].key));
      InsertSorted(m, ms[1..]);
      var rest := Insert(m, ms[1..]);
      forall j | 0 <= j < |rest| ensures Before(ms[0], rest[j]) {
        assert rest[j] in rest;
      }
    }
  }

  lemma {:induction false} SortSorted(ms: seq<Member>)
    requires DistinctKeys(ms)
    ensures Sorted(Sort(ms))
  {
    if ms != [] {
      SortSorted(ms[1..]);
      InsertSorted(ms[0], Sort(ms[1..]));
    }
  }

  // A sorted sequence is determined by its elements.

  /** Where each element of `p` sits in `q`: never earlier than in `p`. */
  lemma {:induction false} NotEarlier(p: seq<Member>, q: seq<Member>, i: nat, j: nat)
    requires Sorted(p) && Sorted(q) && i < |p| && j < |q| && p[i] == q[j]
    requires forall x :: x in p ==> x in q
    ensures i <= j
  {
    if i > 0 {
      assert p[i - 1] in q;
      var k :| 0 <= k < |q| && q[k] == p[i - 1];
      NotEarlier(p, q, i - 1, k);
      OrderTellsIndex(q, k, j);
    }
  }

  lemma {:induction false} NotLater(p: seq<Member>, q: seq<Member>, i: nat, j: nat)
    requires Sorted(p) && Sorted(q) && |p| == |q| && i < |p| && j < |q| && p[i] == q[j]
    requires forall x :: x in p ==> x in q
    ensures j <= i
    decreases |p| - i
  {
    if i + 1 < |p| {
      assert p[i + 1] in q;
      var k :| 0 <= k < |q| && q[k] == p[i + 1];
      NotLater(p, q, i + 1, k);
      OrderTellsIndex(q, j, k);
    }
  }

  lemma OrderTellsIndex(q: seq<Member>, j: nat, k: nat)
    requires Sorted(q) && j < |q| && k < |q| && Before(q[j], q[k])
    ensures j < k
  {
    LessTrichotomy(Utf16(q[j].key), Utf16(q[k].key));
  }

  lemma SortedUnique(p: seq<Member>, q: seq<Member>)
    requires Sorted(p) && Sorted(q) && |p| == |q|
    requires forall x :: x in p ==> x in q
    ensures p == q
  {
    forall i | 0 <= i < |p| ensures p[i] == q[i] {
      assert p[i] in q;
      var j :| 0 <= j < |q| && q[j] == p[i];
      NotEarlier(p, q, i, j);
      NotLater(p, q, i, j);
    }
  }

  // Canonical values.

  /** Keys are distinct in every object, as in a parsed or serialized value. */
  predicate WellFormed(v: Json) {
    match v
    case Arr(items) => forall i :: 0 <= i < |items| ==> WellFormed(items[i])
    case Obj(ms) => DistinctKeys(ms) && forall i :: 0 <= i < |ms| ==> WellFormed(ms[i].value)
    case _ => true
  }

  function Canon(v: Json): Json {
    match v
    case Arr(items) => Arr(CanonItems(items))
    case Obj(ms) => Obj(Sort(CanonMembers(ms)))
    case _ => v
  }

  function CanonItems(items: seq<Json>): (r: seq<Json>)
    ensures |r| == |items| && forall i :: 0 <= i < |items| ==> r[i] == Canon(items[i])
  {
    if items == [] then [] else [Canon(items[0])] + CanonItems(items[1..])
  }

  function CanonMembers(ms: seq<Member>): (r: seq<Member>)
    ensures |r| == |ms|
    ensures forall i :: 0 <= i < |ms| ==> r[i] == Member(ms[i].key, Canon(ms[i].value))
  {
    if ms == [] then [] else [Member(ms[0].key, Canon(ms[0].value))] + CanonMembers(ms[1..])
  }

  /** The canonical text of a value. */
  function Canonical(v: Json): Text { Print(Canon(v)) }

  /** Equality with objects taken as maps: member order does not matter. */
  ghost predicate SameValue(v: Json, w: Json) {
    match v
    case Arr(a) => w.Arr? && |a| == |w.items| && forall i :: 0 <= i < |a| ==> SameValue(a[i], w.items[i])
    case Obj(a) =>
      && w.Obj?
      && |a| == |w.members|
      && forall i :: 0 <= i < |a| ==> exists j :: 0 <= j < |w.members| && SameMember(a[i], w.members[j])
    case _ => v == w
  }

  ghost predicate SameMember(m: Member, k: Member) { m.key == k.key && SameValue(m.value, k.value) }

  lemma {:induction false} CanonFloatFree(v: Json)
    requires FloatFree(v)
    ensures FloatFree(Canon(v))
  {
    match v
    case Arr(items) =>
      forall i | 0 <= i < |items| ensures FloatFree(CanonItems(items)[i]) { CanonFloatFree(items[i]); }
    case Obj(ms) =>
      var c := CanonMembers(ms);
      forall i | 0 <= i < |c| ensures FloatFree(Sort(c)[i].value) {
        assert Sort(c)[i] in c;
        var j :| 0 <= j < |c| && c[j] == Sort(c)[i];
        CanonFloatFree(ms[j].value);
      }
    case _ =>
  }

  lemma {:induction false} SameCanonSameValue(v: Json, w: Json)
    requires Canon(v) == Canon(w)
    ensures SameValue(v, w)
  {
    match v
    case Arr(a) =>
      forall i | 0 <= i < |a| ensures SameValue(a[i], w.items[i]) {
        assert CanonItems(a)[i] == CanonItems(w.items)[i];
        SameCanonSameValue(a[i], w.items[i]);
      }
    case Obj(a) =>
      var p, q := CanonMembers(a), CanonMembers(w.members);
      forall i | 0 <= i < |a| ensures exists j :: 0 <= j < |w.members| && SameMember(a[i], w.members[j]) {
        assert p[i] in Sort(p);
        var j :| 0 <= j < |q| && q[j] == p[i];
        SameCanonSameValue(a[i].value, w.members[j].value);
        assert SameMember(a[i], w.members[j]);
      }
    case _ =>
  }

  lemma {:induction false} SameValueSameCanon(v: Json, w: Json)
    requires WellFormed(v) && WellFormed(w) && SameValue(v, w)
    ensures Canon(v) == Canon(w)
  {
    match v
    case Arr(a) =>
      forall i | 0 <= i < |a| ensures CanonItems(a)[i] == CanonItems(w.items)[i] {
        SameValueSameCanon(a[i], w.items[i]);
      }
      assert CanonItems(a) == CanonItems(w.items);
    case Obj(a) =>
      var p, q := CanonMembers(a), CanonMembers(w.members);
      forall i | 0 <= i < |p| ensures p[i] in q {
        var j :| 0 <= j < |w.members| && SameMember(a[i], w.members[j]);
        SameValueSameCanon(a[i].value, w.members[j].value);
        assert q[j] == p[i];
      }
      SortSorted(p);
      SortSorted(q);
      SortedUnique(Sort(p), Sort(q));
    case _ =>
  }

  /** Two values print the same canonical text exactly when they are the same, whatever the member order. */
  lemma CanonicalTextNamesValue(v: Json, w: Json)
    requires WellFormed(v) && WellFormed(w) && FloatFree(v) && FloatFree(w)
    ensures Canonical(v) == Canonical(w) <==> SameValue(v, w)
  {
    CanonFloatFree(v);
    CanonFloatFree(w);
    PrintInjective(Canon(v), Canon(w));
    if Canonical(v) == Canonical(w) { SameCanonSameValue(v, w); }
    if SameValue(v, w) { SameValueSameCanon(v, w); }
  }
}
