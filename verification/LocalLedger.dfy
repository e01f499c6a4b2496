/** The ledger of one process: two generations of entries that rotate. */
module LocalLedger {
  import opened Basics
  import opened Ledger

  // Generations rotate inside `Claim`, so an entry outlives at least one rotation.

  /** The configured window and the most entries a generation takes; the gateway refuses zero entries. */
  datatype Limits = Limits(window: nat, maxEntries: nat)

  /** `maps` and `current` as one value: `younger` is `maps[current]`. */
  datatype Generations = Generations(younger: View, older: View, rotatedAt: nat) {

    function View(): View { older + younger }

    predicate Disjoint() { forall k :: k in younger ==> k !in older }

    predicate Valid(limits: Limits) {
      Disjoint() && |younger.Keys| <= limits.maxEntries && |older.Keys| <= limits.maxEntries
    }
  }

  /** `saturating_duration_since`. */
  function Elapsed(now: nat, since: nat): nat {
    if now >= since then now - since else 0
  }

  predicate Rotates(g: Generations, limits: Limits, now: nat) {
    Elapsed(now, g.rotatedAt) >= limits.window || |g.younger.Keys| >= limits.maxEntries
  }

  /** The generations a claim looks in: the older one is dropped on rotation. */
  function Rotated(g: Generations, limits: Limits, now: nat): Generations {
    if Rotates(g, limits, now) then Generations(map[], g.younger, now) else g
  }

  /** The keys a claim makes the ledger forget. */
  function Forgotten(g: Generations, limits: Limits, now: nat): set<Key> {
    if Rotates(g, limits, now) then g.older.Keys else {}
  }

  function Insert(g: Generations, k: Key): Generations {
    g.(younger := g.younger[k := Running])
  }

  function ClaimIn(g: Generations, limits: Limits, k: Key, now: nat): (Generations, Claim) {
    var g' := Rotated(g, limits, now);
    var claim := ClaimEntry(g'.View(), k).1;
    (if claim.New? then Insert(g', k) else g', claim)
  }

  function RecordIn(g: Generations, k: Key, outcome: Outcome): Generations {
    if k in g.younger then g.(younger := g.younger[k := Answered(outcome)])
    else if k in g.older then g.(older := g.older[k := Answered(outcome)])
    else g
  }

  function ReleaseIn(g: Generations, k: Key): Generations {
    g.(younger := g.younger - {k}, older := g.older - {k})
  }

  function SettleIn(g: Generations, k: Key, outcome: Outcome): Generations {
    if Keeps(outcome) then RecordIn(g, k, outcome) else ReleaseIn(g, k)
  }

  // Refinement: every call is a step of the one-map ledger.

  lemma OlderDropped(younger: View, older: View)
    requires forall k :: k in younger ==> k !in older
    ensures (older + younger) - older.Keys == younger
  {
  }

  lemma RotatedView(g: Generations, limits: Limits, now: nat)
    requires g.Disjoint()
    ensures Rotated(g, limits, now).View() == g.View() - Forgotten(g, limits, now)
  {
    if Rotates(g, limits, now) {
      OlderDropped(g.younger, g.older);
      assert g.younger + map[] == g.younger;
    } else {
      assert g.View() - {} == g.View();
    }
  }

  lemma RotatedRefines(g: Generations, limits: Limits, now: nat)
    requires g.Valid(limits)
    ensures Rotated(g, limits, now).Valid(limits)
    ensures Rotated(g, limits, now).View() == g.View() - Forgotten(g, limits, now)
    ensures limits.maxEntries >= 1 ==> |Rotated(g, limits, now).younger.Keys| < limits.maxEntries
  {
    RotatedView(g, limits, now);
    var none: View := map[];
    assert none.Keys == {};
  }

  lemma InsertView(g: Generations, k: Key)
    requires k !in g.younger && k !in g.older && g.Disjoint()
    ensures Insert(g, k).Disjoint()
    ensures Insert(g, k).View() == g.View()[k := Running]
  {
  }

  lemma OneMore(m: View, k: Key, entry: Entry)
    ensures k !in m ==> |m[k := entry].Keys| == |m.Keys| + 1
    ensures k in m ==> m[k := entry].Keys == m.Keys
  {
    assert m[k := entry].Keys == m.Keys + {k};
  }

  lemma OneFewer(m: View, k: Key)
    ensures |(m - {k}).Keys| <= |m.Keys|
  {
    assert (m - {k}).Keys == m.Keys - {k};
  }

  /** A claim forgets the older generation's keys exactly when it rotates, then claims in what is left. */
  lemma ClaimRefines(g: Generations, limits: Limits, k: Key, now: nat)
    requires limits.maxEntries >= 1 && g.Valid(limits)
    ensures ClaimIn(g, limits, k, now).0.Valid(limits)
    ensures ClaimIn(g, limits, k, now).0.View() == ClaimEntry(g.View() - Forgotten(g, limits, now), k).0
    ensures ClaimIn(g, limits, k, now).1 == ClaimEntry(g.View() - Forgotten(g, limits, now), k).1
  {
    RotatedRefines(g, limits, now);
    var g' := Rotated(g, limits, now);
    if k !in g'.View() {
      InsertView(g', k);
      OneMore(g'.younger, k, Running);
    }
  }

  lemma RecordKeys(g: Generations, k: Key, outcome: Outcome)
    ensures RecordIn(g, k, outcome).younger.Keys == g.younger.Keys
    ensures RecordIn(g, k, outcome).older.Keys == g.older.Keys
  {
    OneMore(g.younger, k, Answered(outcome));
    OneMore(g.older, k, Answered(outcome));
  }

  lemma RecordView(g: Generations, k: Key, outcome: Outcome)
    requires g.Disjoint()
    ensures RecordIn(g, k, outcome).View() == RecordEntry(g.View(), k, outcome)
  {
  }

  lemma ReleaseView(g: Generations, k: Key)
    requires g.Disjoint()
    ensures ReleaseIn(g, k).Disjoint()
    ensures ReleaseIn(g, k).View() == ReleaseEntry(g.View(), k)
  {
  }

  lemma ReleaseRefines(g: Generations, limits: Limits, k: Key)
    requires g.Valid(limits)
    ensures ReleaseIn(g, k).Valid(limits)
    ensures ReleaseIn(g, k).View() == ReleaseEntry(g.View(), k)
    ensures |ReleaseIn(g, k).younger.Keys| <= |g.younger.Keys|
  {
    ReleaseView(g, k);
    OneFewer(g.younger, k);
    OneFewer(g.older, k);
  }

  lemma SettleRefines(g: Generations, limits: Limits, k: Key, outcome: Outcome)
    requires g.Valid(limits)
    ensures SettleIn(g, k, outcome).Valid(limits)
    ensures SettleIn(g, k, outcome).View() == Settle(g.View(), k, outcome)
    ensures |SettleIn(g, k, outcome).younger.Keys| <= |g.younger.Keys|
  {
    if Keeps(outcome) {
      RecordKeys(g, k, outcome);
      RecordView(g, k, outcome);
    } else {
      ReleaseRefines(g, limits, k);
    }
  }

  /** The bound fails only for a ledger of no entries, which the configuration refuses. */
  lemma NoEntriesStillHoldsOne(window: nat, k: Key, now: nat)
    ensures Generations(map[], map[], 0).Valid(Limits(window, 0))
    ensures !ClaimIn(Generations(map[], map[], 0), Limits(window, 0), k, now).0.Valid(Limits(window, 0))
  {
    var g := Rotated(Generations(map[], map[], 0), Limits(window, 0), now);
    OneMore(g.younger, k, Running);
  }

  // Retention over whole runs.

  datatype Call =
    | DoClaim(key: Key, now: nat)
    | DoSettle(key: Key, outcome: Outcome)
    | DoRelease(key: Key)

  function Perform(g: Generations, limits: Limits, call: Call): Generations {
    match call
    case DoClaim(k, now) => ClaimIn(g, limits, k, now).0
    case DoSettle(k, outcome) => SettleIn(g, k, outcome)
    case DoRelease(k) => ReleaseIn(g, k)
  }

  function PerformAll(g: Generations, limits: Limits, calls: seq<Call>): Generations
    decreases |calls|
  {
    if calls == [] then g else PerformAll(Perform(g, limits, calls[0]), limits, calls[1..])
  }

  lemma PerformKeepsValid(g: Generations, limits: Limits, call: Call)
    requires limits.maxEntries >= 1 && g.Valid(limits)
    ensures Perform(g, limits, call).Valid(limits)
  {
    match call
    case DoClaim(k, now) => ClaimRefines(g, limits, k, now);
    case DoSettle(k, outcome) => SettleRefines(g, limits, k, outcome);
    case DoRelease(k) => ReleaseRefines(g, limits, k);
  }

  /** Whatever is called, in any order and at any times, at most two generations' entries are held. */
  lemma {:induction false} RunKeepsValid(g: Generations, limits: Limits, calls: seq<Call>)
    requires limits.maxEntries >= 1 && g.Valid(limits)
    ensures PerformAll(g, limits, calls).Valid(limits)
    ensures |PerformAll(g, limits, calls).View().Keys| <= 2 * limits.maxEntries
    decreases |calls|
  {
    if calls == [] {
      assert g.View().Keys == g.younger.Keys + g.older.Keys;
    } else {
      PerformKeepsValid(g, limits, calls[0]);
      RunKeepsValid(Perform(g, limits, calls[0]), limits, calls[1..]);
    }
  }

  /** 1 when the call claims a key the ledger does not hold. */
  function NewClaim(g: Generations, limits: Limits, call: Call): nat {
    if call.DoClaim? && ClaimIn(g, limits, call.key, call.now).1.New? then 1 else 0
  }

  function NewClaims(g: Generations, limits: Limits, calls: seq<Call>): nat
    decreases |calls|
  {
    if calls == [] then 0
    else NewClaim(g, limits, calls[0]) + NewClaims(Perform(g, limits, calls[0]), limits, calls[1..])
  }

  /** The call does not release `k`, and its clock is less than `window` past `t0` and not before it. */
  predicate Spares(call: Call, k: Key, t0: nat, window: nat) {
    match call
    case DoClaim(_, now) => t0 <= now < t0 + window
    case DoSettle(j, outcome) => j == k ==> Keeps(outcome)
    case DoRelease(j) => j != k
  }

  predicate AllSpare(calls: seq<Call>, k: Key, t0: nat, window: nat) {
    forall i :: 0 <= i < |calls| ==> Spares(calls[i], k, t0, window)
  }

  /**
   `k` was inserted at `t0`, and `count` new claims came after it: it is in the
   younger generation, or everything in the younger one came after it.
   */
  predicate Kept(g: Generations, k: Key, t0: nat, count: nat) {
    k in g.younger || (k in g.older && g.rotatedAt >= t0 && |g.younger.Keys| <= count)
  }

  lemma ClaimKeeps(g: Generations, limits: Limits, j: Key, now: nat, k: Key, t0: nat, count: nat)
    requires g.Valid(limits) && Kept(g, k, t0, count) && count < limits.maxEntries
    requires t0 <= now < t0 + limits.window
    ensures k !in Forgotten(g, limits, now)
    ensures Kept(ClaimIn(g, limits, j, now).0, k, t0, count + NewClaim(g, limits, DoClaim(j, now)))
    ensures j == k ==> !ClaimIn(g, limits, j, now).1.New?
  {
    var g' := Rotated(g, limits, now);
    RotatedRefines(g, limits, now);
    assert Kept(g', k, t0, count);
    if j !in g'.View() { OneMore(g'.younger, j, Running); }
  }

  lemma ReleaseKeeps(g: Generations, limits: Limits, j: Key, k: Key, t0: nat, count: nat)
    requires g.Valid(limits) && Kept(g, k, t0, count) && j != k
    ensures Kept(ReleaseIn(g, j), k, t0, count)
  {
    ReleaseRefines(g, limits, j);
  }

  lemma SettleKeeps(g: Generations, limits: Limits, j: Key, outcome: Outcome, k: Key, t0: nat, count: nat)
    requires g.Valid(limits) && Kept(g, k, t0, count) && (j == k ==> Keeps(outcome))
    ensures Kept(SettleIn(g, j, outcome), k, t0, count)
  {
    if Keeps(outcome) { RecordKeys(g, j, outcome); } else { ReleaseKeeps(g, limits, j, k, t0, count); }
  }

  lemma PerformKeeps(g: Generations, limits: Limits, call: Call, k: Key, t0: nat, count: nat)
    requires g.Valid(limits) && Kept(g, k, t0, count) && count < limits.maxEntries
    requires Spares(call, k, t0, limits.window)
    ensures Perform(g, limits, call).Valid(limits)
    ensures Kept(Perform(g, limits, call), k, t0, count + NewClaim(g, limits, call))
  {
    match call
    case DoClaim(j, now) =>
      ClaimRefines(g, limits, j, now);
      ClaimKeeps(g, limits, j, now, k, t0, count);
    case DoSettle(j, outcome) =>
      SettleRefines(g, limits, j, outcome);
      SettleKeeps(g, limits, j, outcome, k, t0, count);
    case DoRelease(j) =>
      ReleaseRefines(g, limits, j);
      ReleaseKeeps(g, limits, j, k, t0, count);
  }

  /**
   An entry nobody releases is still there after any calls whose clocks stay
   within `window` of its insertion and which make fewer than `maxEntries` new claims.
   */
  lemma {:induction false} RunKeeps(g: Generations, limits: Limits, calls: seq<Call>, k: Key, t0: nat, count: nat)
    requires g.Valid(limits) && Kept(g, k, t0, count) && AllSpare(calls, k, t0, limits.window)
    requires count + NewClaims(g, limits, calls) < limits.maxEntries
    ensures PerformAll(g, limits, calls).Valid(limits)
    ensures Kept(PerformAll(g, limits, calls), k, t0, count + NewClaims(g, limits, calls))
    decreases |calls|
  {
    if calls != [] {
      PerformKeeps(g, limits, calls[0], k, t0, count);
      var g' := Perform(g, limits, calls[0]);
      RunKeeps(g', limits, calls[1..], k, t0, count + NewClaim(g, limits, calls[0]));
    }
  }

  /**
   Every claim of `k` finds the entry a new claim at `t0` made, until `window`
   has passed, `maxEntries` new claims came later, or the entry was released.
   */
  lemma NewEntryIsFoundByEveryClaim(
    g0: Generations, limits: Limits, k: Key, t0: nat, calls: seq<Call>, now: nat)
    requires g0.Valid(limits) && ClaimIn(g0, limits, k, t0).1.New?
    requires AllSpare(calls, k, t0, limits.window) && t0 <= now < t0 + limits.window
    requires NewClaims(ClaimIn(g0, limits, k, t0).0, limits, calls) < limits.maxEntries
    ensures !ClaimIn(PerformAll(ClaimIn(g0, limits, k, t0).0, limits, calls), limits, k, now).1.New?
  {
    ClaimRefines(g0, limits, k, t0);
    var g1 := ClaimIn(g0, limits, k, t0).0;
    RunKeeps(g1, limits, calls, k, t0, 0);
    ClaimKeeps(PerformAll(g1, limits, calls), limits, k, now, k, t0, NewClaims(g1, limits, calls));
  }

  // Exactly when an entry is forgotten.

  /** How many of the calls are claims that rotate. */
  function Rotations(g: Generations, limits: Limits, calls: seq<Call>): nat
    decreases |calls|
  {
    if calls == [] then 0
    else
      (if calls[0].DoClaim? && Rotates(g, limits, calls[0].now) then 1 else 0)
      + Rotations(Perform(g, limits, calls[0]), limits, calls[1..])
  }

  /** The call neither claims nor releases `k`; it may record an outcome for it. */
  predicate LeavesAlone(call: Call, k: Key) {
    match call
    case DoClaim(j, _) => j != k
    case DoSettle(j, outcome) => j == k ==> Keeps(outcome)
    case DoRelease(j) => j != k
  }

  predicate AllLeaveAlone(calls: seq<Call>, k: Key) {
    forall i :: 0 <= i < |calls| ==> LeavesAlone(calls[i], k)
  }

  /** How many rotations an entry outlives. */
  function Lives(g: Generations, k: Key): nat {
    if k in g.younger then 2 else if k in g.older then 1 else 0
  }

  lemma SettleKeepsLives(g: Generations, j: Key, outcome: Outcome, k: Key)
    requires g.Disjoint() && (j == k ==> Keeps(outcome))
    ensures Lives(SettleIn(g, j, outcome), k) == Lives(g, k) && SettleIn(g, j, outcome).Disjoint()
  {
  }

  lemma ClaimCostsALife(g: Generations, limits: Limits, j: Key, now: nat, k: Key)
    requires g.Disjoint() && j != k
    ensures ClaimIn(g, limits, j, now).0.Disjoint()
    ensures var lost := if Rotates(g, limits, now) then 1 else 0;
            Lives(ClaimIn(g, limits, j, now).0, k) == if Lives(g, k) >= lost then Lives(g, k) - lost else 0
  {
  }

  lemma CallCostsLives(g: Generations, limits: Limits, call: Call, k: Key)
    requires g.Disjoint() && LeavesAlone(call, k)
    ensures Perform(g, limits, call).Disjoint()
    ensures var lost := if call.DoClaim? && Rotates(g, limits, call.now) then 1 else 0;
            Lives(Perform(g, limits, call), k) == if Lives(g, k) >= lost then Lives(g, k) - lost else 0
  {
    match call
    case DoClaim(j, now) => ClaimCostsALife(g, limits, j, now, k);
    case DoSettle(j, outcome) => SettleKeepsLives(g, j, outcome, k);
    case DoRelease(_) =>
  }

  lemma {:induction false} CallsCostLives(g: Generations, limits: Limits, calls: seq<Call>, k: Key)
    requires g.Disjoint() && AllLeaveAlone(calls, k)
    ensures var lost := Rotations(g, limits, calls);
            Lives(PerformAll(g, limits, calls), k) == if Lives(g, k) >= lost then Lives(g, k) - lost else 0
    decreases |calls|
  {
    if calls != [] {
      CallCostsLives(g, limits, calls[0], k);
      CallsCostLives(Perform(g, limits, calls[0]), limits, calls[1..], k);
    }
  }

  lemma InViewWhileItLives(g: Generations, k: Key)
    ensures k in g.View() <==> Lives(g, k) > 0
  {
  }

  /**
   Time alone forgets nothing. Over any calls that neither claim nor release it, an
   entry of the younger generation is held exactly until the second rotating claim,
   and one of the older generation exactly until the first.
   */
  lemma ForgottenExactlyByRotations(g: Generations, limits: Limits, calls: seq<Call>, k: Key)
    requires g.Disjoint() && AllLeaveAlone(calls, k)
    ensures k in g.younger ==> (k in PerformAll(g, limits, calls).View() <==> Rotations(g, limits, calls) < 2)
    ensures k in g.older ==> (k in PerformAll(g, limits, calls).View() <==> Rotations(g, limits, calls) < 1)
    ensures k !in g.View() ==> k !in PerformAll(g, limits, calls).View()
  {
    CallsCostLives(g, limits, calls, k);
    InViewWhileItLives(g, k);
    InViewWhileItLives(PerformAll(g, limits, calls), k);
  }

  lemma {:induction false} NoClaimsNoRotations(g: Generations, limits: Limits, calls: seq<Call>)
    requires forall i :: 0 <= i < |calls| ==> !calls[i].DoClaim?
    ensures Rotations(g, limits, calls) == 0
    decreases |calls|
  {
    if calls != [] { NoClaimsNoRotations(Perform(g, limits, calls[0]), limits, calls[1..]); }
  }

  /** So a ledger that sees no claim forgets nothing, however long it waits. */
  lemma QuietLedgerForgetsNothing(g: Generations, limits: Limits, calls: seq<Call>, k: Key)
    requires g.Disjoint() && AllLeaveAlone(calls, k) && forall i :: 0 <= i < |calls| ==> !calls[i].DoClaim?
    ensures k in PerformAll(g, limits, calls).View() <==> k in g.View()
  {
    NoClaimsNoRotations(g, limits, calls);
    ForgottenExactlyByRotations(g, limits, calls, k);
  }

  /**
   However long `age` is, an entry that old can still be there: after its claim at time
   0 the next claim, of another key, comes at `age` and rotates once, and a claim of the
   first key just after it finds the request still running.
   */
  lemma EntryOutlivesTwoWindows(limits: Limits, k: Key, j: Key, age: nat)
    requires j != k && limits.maxEntries >= 2 && limits.window > 1 && age > 2 * limits.window
    ensures var g1 := ClaimIn(Generations(map[], map[], 0), limits, k, 0);
            var g2 := ClaimIn(g1.0, limits, j, age);
            g1.1.New? && g2.1.New? && ClaimIn(g2.0, limits, k, age + 1).1 == Refused(OperationInProgress)
  {
    var g1 := ClaimIn(Generations(map[], map[], 0), limits, k, 0).0;
    assert g1 == Generations(map[k := Running], map[], 0);
    OneMore(map[], k, Running);
    assert Rotates(g1, limits, age);
    var g2 := ClaimIn(g1, limits, j, age).0;
    assert g2 == Generations(map[j := Running], map[k := Running], age);
    OneMore(map[], j, Running);
    assert !Rotates(g2, limits, age + 1);
  }

  /** `LocalLedger`, whose mutex makes each method one step. */
  class LocalLedger {
    const limits: Limits
    var first: map<Key, Entry>
    var second: map<Key, Entry>
    var current: nat
    var rotatedAt: nat

    ghost function Value(): Generations
      reads this
    {
      if current == 0 then Generations(first, second, rotatedAt) else Generations(second, first, rotatedAt)
    }

    ghost predicate Valid()
      reads this
    {
      limits.maxEntries >= 1 && current <= 1 && Value().Valid(limits)
    }

    constructor (limits: Limits, now: nat)
      requires limits.maxEntries >= 1
      ensures Valid() && this.limits == limits && Value() == Generations(map[], map[], now)
    {
      this.limits := limits;
      first, second, current, rotatedAt := map[], map[], 0, now;
    }

    method Rotate(now: nat)
      requires current <= 1
      modifies this
      ensures current <= 1 && Value() == Generations(map[], old(Value()).younger, now)
    {
      current := 1 - current;
      if current == 0 { first := map[]; } else { second := map[]; }
      rotatedAt := now;
    }

    method Get(key: Key) returns (entry: Option<Entry>)
      requires current <= 1 && Value().Disjoint()
      ensures entry == if key in Value().View() then Some(Value().View()[key]) else None
    {
      if key in first {
        entry := Some(first[key]);
      } else if key in second {
        entry := Some(second[key]);
      } else {
        entry := None;
      }
    }

    /** Rotates if the window is over or the generation full. */
    method RotateIfDue(now: nat)
      requires Valid()
      modifies this
      ensures Valid() && Value() == Rotated(old(Value()), limits, now)
    {
      RotatedRefines(Value(), limits, now);
      var expired := Elapsed(now, rotatedAt) >= limits.window;
      var held := if current == 0 then |first.Keys| else |second.Keys|;
      if expired || held >= limits.maxEntries {
        Rotate(now);
      }
    }

    /** Inserts into the younger map. */
    method InsertRunning(key: Key)
      requires current <= 1
      modifies this`first, this`second
      ensures current <= 1 && Value() == Insert(old(Value()), key)
    {
      if current == 0 { first := first[key := Running]; } else { second := second[key := Running]; }
    }

    /** Forgets what rotation drops, then claims in the rest: a step of the one-map ledger. */
    method Claim(key: Key, now: nat) returns (claim: Claim)
      requires Valid()
      modifies this
      ensures Valid()
      ensures (Value(), claim) == ClaimIn(old(Value()), limits, key, now)
      ensures Value().View() == ClaimEntry(old(Value().View()) - Forgotten(old(Value()), limits, now), key).0
      ensures claim == ClaimEntry(old(Value().View()) - Forgotten(old(Value()), limits, now), key).1
    {
      ClaimRefines(Value(), limits, key, now);
      RotateIfDue(now);
      var entry := Get(key);
      if entry.None? {
        InsertRunning(key);
        claim := New;
      } else {
        claim := if entry.value.Running? then Refused(OperationInProgress) else Replay(entry.value.outcome);
      }
    }

    /** `LocalLedger::record`: overwrites a held entry where it is. */
    method Overwrite(key: Key, outcome: Outcome)
      requires current <= 1 && Value().Disjoint()
      modifies this`first, this`second
      ensures current <= 1 && Value() == RecordIn(old(Value()), key, outcome)
    {
      if key in first {
        first := first[key := Answered(outcome)];
      } else if key in second {
        second := second[key := Answered(outcome)];
      }
    }

    /** `ReplayLedger::record` over this ledger: an answer above the cap releases the claim. */
    method Record(key: Key, outcome: Outcome)
      requires Valid()
      modifies this
      ensures Valid() && Value() == SettleIn(old(Value()), key, outcome)
      ensures Value().View() == Settle(old(Value().View()), key, outcome)
    {
      SettleRefines(Value(), limits, key, outcome);
      if outcome.Answer? && |outcome.body| > MAX_KEPT_ANSWER_BYTES {
        Release(key);
      } else {
        Overwrite(key, outcome);
      }
    }

    method Release(key: Key)
      requires Valid()
      modifies this
      ensures Valid() && Value() == ReleaseIn(old(Value()), key)
      ensures Value().View() == ReleaseEntry(old(Value().View()), key)
    {
      ghost var was := Value();
      first := first - {key};
      second := second - {key};
      assert Value() == ReleaseIn(was, key);
      ReleaseRefines(was, limits, key);
    }
  }
}
