/** Gateway tasks over the shared ledger refine the step machine. */
module SharedGateway {
  import opened Basics
  import opened Unicode
  import opened Json
  import opened Ledger
  import opened SharedLedger
  import opened Operations

  // If every request finishes within the window, Redis never drops a running holder's
  // key, so every run, with any command or reply lost, is a safe run of `Operations`.

  datatype Gateway = Gateway(db: Db, requests: map<Id, Phase>, executed: set<Key>, claimedAt: map<Id, nat>) {
    function View(fromStr: Text -> Option<Json>): State
      requires Readable(fromStr, db)
    {
      State(ViewOf(fromStr, db), requests, executed)
    }
  }

  datatype Step =
    | Claim(id: Id, key: Key, now: nat, fate: Fate)
    | Release(id: Id, key: Key, fate: Fate)
    | Record(id: Id, key: Key, outcome: Outcome, now: nat, fate: Fate)
    | Expire(keys: set<Key>, now: nat)
    | Other(event: Event)

  /** The step of `Operations` this is. */
  function EventOf(step: Step): Event {
    match step
    case Claim(id, k, _, fate) => if fate.Lost? then Misses(id, k) else Claims(id, k, fate.Heard?)
    case Release(id, k, fate) => Releases(id, k, !fate.Lost?)
    case Record(id, k, outcome, _, fate) => Settles(id, k, outcome, Lands(outcome, fate))
    case Expire(keys, _) => Forgets(keys)
    case Other(e) => e
  }

  predicate TouchesNoLedger(e: Event) { e.Refuses? || e.Sends? || e.Answers? || e.Drops? }

  ghost predicate CanStep(fromStr: Text -> Option<Json>, s: Gateway, step: Step)
    requires Readable(fromStr, s.db)
  {
    && Enabled(s.View(fromStr), EventOf(step))
    && (step.Record? ==> WellTyped(step.outcome))
    && (step.Expire? ==> forall k :: k in step.keys && k in s.db ==> s.db[k].expires <= step.now)
    && (step.Other? ==> TouchesNoLedger(step.event))
  }

  function DbAfter(s: Gateway, window: nat, step: Step): Db {
    match step
    case Claim(_, k, now, fate) => ClaimDb(s.db, k, now + window, fate)
    case Release(_, k, fate) => ReleaseDb(s.db, k, fate)
    case Record(_, k, outcome, now, fate) => SettleDb(s.db, k, outcome, now + window, fate)
    case Expire(keys, _) => s.db - keys
    case Other(_) => s.db
  }

  ghost function Take(fromStr: Text -> Option<Json>, s: Gateway, window: nat, step: Step): Gateway
    requires Readable(fromStr, s.db) && CanStep(fromStr, s, step)
  {
    var s' := Next(s.View(fromStr), EventOf(step));
    Gateway(DbAfter(s, window, step), s'.requests, s'.executed,
      if step.Claim? then s.claimedAt[step.id := step.now] else s.claimedAt)
  }

  /** Redis drops keys only while every holder is within the window of its claim. */
  ghost predicate Timely(s: Gateway, window: nat, step: Step) {
    step.Expire? ==> forall id, k :: id in s.requests && s.requests[id].Holds(k) ==>
      id in s.claimedAt && step.now < s.claimedAt[id] + window
  }

  /** A holder's key expires no sooner than a window after its claim. */
  predicate HolderLive(s: Gateway, window: nat, id: Id, k: Key) {
    id in s.claimedAt && k in s.db && s.claimedAt[id] + window <= s.db[k].expires
  }

  ghost predicate HoldersLive(s: Gateway, window: nat) {
    forall id, k :: id in s.requests && s.requests[id].Holds(k) ==> HolderLive(s, window, id, k)
  }

  ghost predicate GatewayInv(fromStr: Text -> Option<Json>, s: Gateway, window: nat) {
    && ReadsRecords(fromStr) && Readable(fromStr, s.db)
    && Inv(s.View(fromStr)) && HoldersLive(s, window)
  }

  lemma ExpiryIsSafe(fromStr: Text -> Option<Json>, s: Gateway, window: nat, step: Step)
    requires GatewayInv(fromStr, s, window) && CanStep(fromStr, s, step) && Timely(s, window, step)
    ensures Safe(s.View(fromStr), EventOf(step))
  {
  }

  lemma ClaimSteps(s: Gateway, window: nat, id: Id, k: Key, now: nat, fate: Fate)
    ensures EventOf(Claim(id, k, now, fate)) == if fate.Lost? then Misses(id, k) else Claims(id, k, fate.Heard?)
    ensures DbAfter(s, window, Claim(id, k, now, fate)) == ClaimDb(s.db, k, now + window, fate)
  {
  }

  lemma ClaimedRefines(
    fromStr: Text -> Option<Json>, db: Db, s: State, id: Id, k: Key, expires: nat, fate: Fate)
    requires Readable(fromStr, db) && s.ledger == ViewOf(fromStr, db) && id !in s.requests
    ensures Readable(fromStr, ClaimDb(db, k, expires, fate))
    ensures ViewOf(fromStr, ClaimDb(db, k, expires, fate))
         == Next(s, if fate.Lost? then Misses(id, k) else Claims(id, k, fate.Heard?)).ledger
  {
    ClaimedView(fromStr, db, k, expires);
    ClaimsLedger(s, id, k, fate);
  }

  /** The database after a ledger command shows what the one-map ledger holds after it. */
  lemma ClaimRefines(fromStr: Text -> Option<Json>, s: Gateway, window: nat, step: Step)
    requires Readable(fromStr, s.db) && CanStep(fromStr, s, step) && step.Claim?
    ensures Readable(fromStr, DbAfter(s, window, step))
    ensures ViewOf(fromStr, DbAfter(s, window, step)) == Next(s.View(fromStr), EventOf(step)).ledger
  {
    var Claim(id, k, now, fate) := step;
    ClaimSteps(s, window, id, k, now, fate);
    ClaimedRefines(fromStr, s.db, s.View(fromStr), id, k, now + window, fate);
  }

  lemma ClaimsLedger(s: State, id: Id, k: Key, fate: Fate)
    requires id !in s.requests
    ensures !fate.Lost? ==> Next(s, Claims(id, k, fate.Heard?)).ledger == ClaimEntry(s.ledger, k).0
    ensures fate.Lost? ==> Next(s, Misses(id, k)).ledger == s.ledger
  {
  }

  lemma SettlesLedger(s: State, id: Id, k: Key, outcome: Outcome, landed: bool)
    requires Enabled(s, Settles(id, k, outcome, landed))
    ensures Next(s, Settles(id, k, outcome, landed)).ledger == if landed then Settle(s.ledger, k, outcome) else s.ledger
  {
  }

  lemma SettledRefines(
    fromStr: Text -> Option<Json>, db: Db, s: State, id: Id, k: Key, outcome: Outcome, expires: nat, fate: Fate, landed: bool)
    requires ReadsRecords(fromStr) && Readable(fromStr, db) && WellTyped(outcome) && s.ledger == ViewOf(fromStr, db)
    requires landed == Lands(outcome, fate) && Enabled(s, Settles(id, k, outcome, landed))
    ensures Readable(fromStr, SettleDb(db, k, outcome, expires, fate))
    ensures ViewOf(fromStr, SettleDb(db, k, outcome, expires, fate)) == Next(s, Settles(id, k, outcome, landed)).ledger
  {
    SettledView(fromStr, db, k, outcome, expires, fate);
    SettlesLedger(s, id, k, outcome, landed);
  }

  lemma RecordSteps(s: Gateway, window: nat, id: Id, k: Key, outcome: Outcome, now: nat, fate: Fate)
    ensures EventOf(Record(id, k, outcome, now, fate)) == Settles(id, k, outcome, Lands(outcome, fate))
    ensures DbAfter(s, window, Record(id, k, outcome, now, fate)) == SettleDb(s.db, k, outcome, now + window, fate)
  {
  }

  lemma RecordRefines(fromStr: Text -> Option<Json>, s: Gateway, window: nat, step: Step)
    requires ReadsRecords(fromStr) && Readable(fromStr, s.db) && CanStep(fromStr, s, step) && step.Record?
    ensures Readable(fromStr, DbAfter(s, window, step))
    ensures ViewOf(fromStr, DbAfter(s, window, step)) == Next(s.View(fromStr), EventOf(step)).ledger
  {
    var Record(id, k, outcome, now, fate) := step;
    var landed := Lands(outcome, fate);
    RecordSteps(s, window, id, k, outcome, now, fate);
    SettledRefines(fromStr, s.db, s.View(fromStr), id, k, outcome, now + window, fate, landed);
  }

  lemma DropRefines(fromStr: Text -> Option<Json>, s: Gateway, window: nat, step: Step)
    requires Readable(fromStr, s.db) && CanStep(fromStr, s, step) && (step.Release? || step.Expire?)
    ensures Readable(fromStr, DbAfter(s, window, step))
    ensures ViewOf(fromStr, DbAfter(s, window, step)) == Next(s.View(fromStr), EventOf(step)).ledger
  {
    DroppedView(fromStr, s.db, if step.Release? then {step.key} else step.keys);
  }

  lemma DbRefines(fromStr: Text -> Option<Json>, s: Gateway, window: nat, step: Step)
    requires ReadsRecords(fromStr) && Readable(fromStr, s.db) && CanStep(fromStr, s, step)
    ensures Readable(fromStr, DbAfter(s, window, step))
    ensures ViewOf(fromStr, DbAfter(s, window, step)) == Next(s.View(fromStr), EventOf(step)).ledger
  {
    match step
    case Claim(_, _, _, _) => ClaimRefines(fromStr, s, window, step);
    case Record(_, _, _, _, _) => RecordRefines(fromStr, s, window, step);
    case Other(_) =>
    case _ => DropRefines(fromStr, s, window, step);
  }

  /** A step leaves the stored entry of a key it does not settle, release or expire. */
  lemma OthersStay(s: Gateway, window: nat, step: Step, k: Key)
    requires k in s.db
    requires step.Record? || step.Release? ==> step.key != k
    requires step.Expire? ==> k !in step.keys
    ensures k in DbAfter(s, window, step) && DbAfter(s, window, step)[k] == s.db[k]
  {
  }

  lemma ClaimerHolds(fromStr: Text -> Option<Json>, s: Gateway, window: nat, step: Step)
    requires Readable(fromStr, s.db) && CanStep(fromStr, s, step) && step.Claim?
    requires !Take(fromStr, s, window, step).requests[step.id].Replied?
    ensures step.key !in s.db && step.fate.Heard?
    ensures Take(fromStr, s, window, step).requests[step.id] == Holding(step.key)
  {
  }

  lemma OldHolder(fromStr: Text -> Option<Json>, s: Gateway, window: nat, step: Step, id: Id, k: Key)
    requires Readable(fromStr, s.db) && CanStep(fromStr, s, step)
    requires id in Take(fromStr, s, window, step).requests
    requires Take(fromStr, s, window, step).requests[id].Holds(k)
    requires !(step.Claim? && id == step.id)
    ensures id in s.requests && s.requests[id].Holds(k)
    ensures step.Record? || step.Release? ==> id != step.id
  {
  }

  /** No step settles, releases or expires the key another request holds. */
  lemma HolderIsLeftAlone(fromStr: Text -> Option<Json>, s: Gateway, window: nat, step: Step, id: Id, k: Key)
    requires GatewayInv(fromStr, s, window) && CanStep(fromStr, s, step) && Timely(s, window, step)
    requires id in s.requests && s.requests[id].Holds(k)
    requires step.Record? || step.Release? ==> id != step.id
    ensures step.Record? || step.Release? ==> step.key != k
    ensures step.Expire? ==> k !in step.keys
  {
    if step.Record? || step.Release? {
      assert s.requests[step.id].Holds(step.key);
      assert OneHolder(s.View(fromStr));
    }
    if step.Expire? {
      assert HolderLive(s, window, id, k);
    }
  }

  /** A request that holds a key after the step keeps its claim live. */
  lemma HolderStaysLive(fromStr: Text -> Option<Json>, s: Gateway, window: nat, step: Step, id: Id, k: Key)
    requires GatewayInv(fromStr, s, window) && CanStep(fromStr, s, step) && Timely(s, window, step)
    requires id in Take(fromStr, s, window, step).requests && Take(fromStr, s, window, step).requests[id].Holds(k)
    ensures HolderLive(Take(fromStr, s, window, step), window, id, k)
  {
    if step.Claim? && id == step.id {
      ClaimerHolds(fromStr, s, window, step);
    } else {
      OldHolder(fromStr, s, window, step, id, k);
      assert HolderLive(s, window, id, k);
      HolderIsLeftAlone(fromStr, s, window, step, id, k);
      OthersStay(s, window, step, k);
    }
  }

  lemma StepKeepsHoldersLive(fromStr: Text -> Option<Json>, s: Gateway, window: nat, step: Step)
    requires GatewayInv(fromStr, s, window) && CanStep(fromStr, s, step) && Timely(s, window, step)
    ensures HoldersLive(Take(fromStr, s, window, step), window)
  {
    var s' := Take(fromStr, s, window, step);
    forall id, k | id in s'.requests && s'.requests[id].Holds(k)
      ensures HolderLive(s', window, id, k)
    {
      HolderStaysLive(fromStr, s, window, step, id, k);
    }
  }

  lemma StepRefines(fromStr: Text -> Option<Json>, s: Gateway, window: nat, step: Step)
    requires GatewayInv(fromStr, s, window) && CanStep(fromStr, s, step) && Timely(s, window, step)
    ensures Safe(s.View(fromStr), EventOf(step))
    ensures GatewayInv(fromStr, Take(fromStr, s, window, step), window)
    ensures Take(fromStr, s, window, step).View(fromStr) == Next(s.View(fromStr), EventOf(step))
  {
    ExpiryIsSafe(fromStr, s, window, step);
    DbRefines(fromStr, s, window, step);
    StepKeepsHoldersLive(fromStr, s, window, step);
    StepKeepsInv(s.View(fromStr), EventOf(step));
  }

  ghost predicate IsTimelyRun(fromStr: Text -> Option<Json>, s: Gateway, window: nat, steps: seq<Step>)
    decreases |steps|
  {
    steps == [] || (
      && Readable(fromStr, s.db) && CanStep(fromStr, s, steps[0]) && Timely(s, window, steps[0])
      && IsTimelyRun(fromStr, Take(fromStr, s, window, steps[0]), window, steps[1..]))
  }

  ghost function TakeAll(fromStr: Text -> Option<Json>, s: Gateway, window: nat, steps: seq<Step>): Gateway
    requires IsTimelyRun(fromStr, s, window, steps)
    decreases |steps|
  {
    if steps == [] then s else TakeAll(fromStr, Take(fromStr, s, window, steps[0]), window, steps[1..])
  }

  function Trace(steps: seq<Step>): (es: seq<Event>)
    ensures |es| == |steps|
    decreases |steps|
  {
    if steps == [] then [] else [EventOf(steps[0])] + Trace(steps[1..])
  }

  lemma {:induction false} TimelyRunRefines(
    fromStr: Text -> Option<Json>, s: Gateway, window: nat, steps: seq<Step>)
    requires GatewayInv(fromStr, s, window) && IsTimelyRun(fromStr, s, window, steps)
    ensures GatewayInv(fromStr, TakeAll(fromStr, s, window, steps), window)
    ensures IsRun(s.View(fromStr), Trace(steps))
    ensures Run(s.View(fromStr), Trace(steps)) == TakeAll(fromStr, s, window, steps).View(fromStr)
    decreases |steps|
  {
    if steps != [] {
      StepRefines(fromStr, s, window, steps[0]);
      TimelyRunRefines(fromStr, Take(fromStr, s, window, steps[0]), window, steps[1..]);
      assert Trace(steps)[1..] == Trace(steps[1..]);
    }
  }

  const START := Gateway(map[], map[], {}, map[])

  /** Every timely run of every task together is a safe run of `Operations`, event for event. */
  lemma SharedGatewayIsSafe(fromStr: Text -> Option<Json>, window: nat, steps: seq<Step>)
    requires ReadsRecords(fromStr) && IsTimelyRun(fromStr, START, window, steps)
    ensures IsRun(INIT, Trace(steps))
    ensures Run(INIT, Trace(steps)).requests == TakeAll(fromStr, START, window, steps).requests
  {
    assert ViewOf(fromStr, START.db) == map[];
    assert START.View(fromStr) == INIT;
    TimelyRunRefines(fromStr, START, window, steps);
  }

  lemma {:induction false} TraceAt(steps: seq<Step>, i: nat)
    requires i < |steps|
    ensures Trace(steps)[i] == EventOf(steps[i])
    ensures Trace(steps)[..i] == Trace(steps[..i])
    decreases |steps|
  {
    if i > 0 {
      TraceAt(steps[1..], i - 1);
      assert steps[..i][1..] == steps[1..][..i - 1];
    } else if |steps| > 1 {
      TraceAt(steps[1..], 0);
    }
  }

  lemma {:induction false} TimelyPrefix(fromStr: Text -> Option<Json>, s: Gateway, window: nat, steps: seq<Step>, n: nat)
    requires IsTimelyRun(fromStr, s, window, steps) && n <= |steps|
    ensures IsTimelyRun(fromStr, s, window, steps[..n])
    decreases n
  {
    if n > 0 {
      TimelyPrefix(fromStr, Take(fromStr, s, window, steps[0]), window, steps[1..], n - 1);
      assert steps[..n][1..] == steps[1..][..n - 1];
    }
  }

  lemma StoredIsClaimed(fromStr: Text -> Option<Json>, window: nat, steps: seq<Step>, i: nat, k: Key)
    requires ReadsRecords(fromStr) && IsTimelyRun(fromStr, START, window, steps) && i < |steps|
    ensures IsTimelyRun(fromStr, START, window, steps[..i]) && IsRun(INIT, Trace(steps)[..i])
    ensures k in TakeAll(fromStr, START, window, steps[..i]).db <==> k in Run(INIT, Trace(steps)[..i]).ledger
  {
    TimelyPrefix(fromStr, START, window, steps, i);
    TraceAt(steps, i);
    assert START.View(fromStr) == INIT;
    TimelyRunRefines(fromStr, START, window, steps[..i]);
  }

  /** The step takes the entry of `k` out of Redis, by expiry or for the request `id`. */
  predicate TakesOut(step: Step, k: Key, id: Id) {
    match step
    case Expire(keys, _) => k in keys
    case Release(a, j, fate) => a == id && j == k && !fate.Lost?
    case Record(a, j, outcome, _, fate) => a == id && j == k && !Keeps(outcome) && !fate.Lost?
    case _ => false
  }

  /** The step's claim of `k` landed where nothing was stored. */
  ghost predicate ClaimsNew(fromStr: Text -> Option<Json>, window: nat, steps: seq<Step>, i: nat, k: Key)
    requires i < |steps| && IsTimelyRun(fromStr, START, window, steps[..i])
  {
    && steps[i].Claim? && steps[i].key == k && !steps[i].fate.Lost?
    && k !in TakeAll(fromStr, START, window, steps[..i]).db
  }

  lemma RemovedIsTakenOut(step: Step, k: Key, id: Id)
    requires Removes(EventOf(step), k) && (EventOf(step).Forgets? || EventOf(step).id == id)
    requires step.Other? ==> TouchesNoLedger(step.event)
    ensures TakesOut(step, k, id)
  {
  }

  lemma {:induction false} OthersTouchNoLedger(
    fromStr: Text -> Option<Json>, s: Gateway, window: nat, steps: seq<Step>, i: nat)
    requires IsTimelyRun(fromStr, s, window, steps) && i < |steps|
    ensures steps[i].Other? ==> TouchesNoLedger(steps[i].event)
    decreases i
  {
    if i > 0 {
      OthersTouchNoLedger(fromStr, Take(fromStr, s, window, steps[0]), window, steps[1..], i - 1);
    }
  }

  lemma ClaimsNewInTrace(fromStr: Text -> Option<Json>, window: nat, steps: seq<Step>, i: nat, k: Key)
    requires ReadsRecords(fromStr) && IsTimelyRun(fromStr, START, window, steps) && i < |steps|
    requires IsTimelyRun(fromStr, START, window, steps[..i]) && ClaimsNew(fromStr, window, steps, i, k)
    ensures Trace(steps)[i] == Claims(steps[i].id, k, steps[i].fate.Heard?)
    ensures IsRun(INIT, Trace(steps)[..i]) && k !in Run(INIT, Trace(steps)[..i]).ledger
  {
    StoredIsClaimed(fromStr, window, steps, i, k);
    TraceAt(steps, i);
  }

  /** Over one shared ledger, two claims that land on no entry of `k` have one's release, unkept answer or expiry between them. */
  lemma NewClaimsAreApart(fromStr: Text -> Option<Json>, window: nat, steps: seq<Step>, i: nat, j: nat, k: Key)
    requires ReadsRecords(fromStr) && IsTimelyRun(fromStr, START, window, steps) && i < j < |steps|
    requires IsTimelyRun(fromStr, START, window, steps[..i]) && ClaimsNew(fromStr, window, steps, i, k)
    requires IsTimelyRun(fromStr, START, window, steps[..j]) && ClaimsNew(fromStr, window, steps, j, k)
    ensures exists m :: i < m < j && TakesOut(steps[m], k, steps[i].id)
  {
    var es := Trace(steps);
    SharedGatewayIsSafe(fromStr, window, steps);
    ClaimsNewInTrace(fromStr, window, steps, i, k);
    ClaimsNewInTrace(fromStr, window, steps, j, k);
    NewOncePerEntry(es, i, j, k);
    var m :| i < m < j && Removes(es[m], k) && (es[m].Forgets? || es[m].id == es[i].id);
    TraceAt(steps, m);
    OthersTouchNoLedger(fromStr, START, window, steps, m);
    RemovedIsTakenOut(steps[m], k, steps[i].id);
  }
}
