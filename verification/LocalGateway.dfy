/** The handler over the in-process ledger refines the step machine. */
module LocalGateway {
  import opened Basics
  import opened Ledger
  import opened LocalLedger
  import opened Operations

  // If every request finishes within the window, and before `maxEntries` newer claims,
  // rotation never forgets a running holder, so every run is a safe run of `Operations`.

  /** When a request claimed, and how many new claims had been made by then. */
  datatype Stamp = Stamp(at: nat, number: nat)

  datatype Gateway = Gateway(
    g: Generations, requests: map<Id, Phase>, executed: set<Key>, stamps: map<Id, Stamp>, made: nat)
  {
    function View(): State { State(g.View(), requests, executed) }
  }

  datatype Step =
    | Claim(id: Id, key: Key, now: nat)
    | Other(event: Event)

  /** A local ledger's commands always land, and it forgets only inside claims. */
  predicate CanStep(s: Gateway, step: Step) {
    match step
    case Claim(id, _, _) => id !in s.requests
    case Other(e) =>
      && !e.Claims? && !e.Misses? && !e.Forgets? && Enabled(s.View(), e)
      && (e.Releases? || e.Settles? ==> e.landed)
  }

  function Take(s: Gateway, limits: Limits, step: Step): Gateway
    requires CanStep(s, step)
  {
    match step
    case Claim(id, k, now) =>
      var (g, claim) := ClaimIn(s.g, limits, k, now);
      var made := s.made + NewClaim(s.g, limits, DoClaim(k, now));
      Gateway(g, s.requests[id := AfterClaim(k, claim, true)],
        s.executed - Forgotten(s.g, limits, now), s.stamps[id := Stamp(now, made)], made)
    case Other(e) =>
      var s' := Next(s.View(), e);
      var g :=
        if e.Releases? then ReleaseIn(s.g, e.key)
        else if e.Settles? then SettleIn(s.g, e.key, e.outcome)
        else s.g;
      s.(g := g, requests := s'.requests, executed := s'.executed)
  }

  /** The same step of `Operations`: a claim forgets first. */
  function Events(s: Gateway, limits: Limits, step: Step): seq<Event> {
    match step
    case Claim(id, k, now) => [Forgets(Forgotten(s.g, limits, now)), Claims(id, k, true)]
    case Other(e) => [e]
  }

  predicate TimelyFor(s: Gateway, limits: Limits, id: Id, now: nat) {
    && id in s.stamps
    && s.stamps[id].at <= now < s.stamps[id].at + limits.window
    && s.stamps[id].number <= s.made < s.stamps[id].number + limits.maxEntries
  }

  /** A claim comes while every holder is within the window and fewer than `maxEntries` claims old. */
  ghost predicate Timely(s: Gateway, limits: Limits, step: Step) {
    step.Claim? ==> forall id, k :: id in s.requests && s.requests[id].Holds(k) ==> TimelyFor(s, limits, id, step.now)
  }

  predicate HolderKept(s: Gateway, id: Id, k: Key) {
    && id in s.stamps && s.stamps[id].number <= s.made
    && Kept(s.g, k, s.stamps[id].at, s.made - s.stamps[id].number)
  }

  ghost predicate HoldersKept(s: Gateway) {
    forall id, k :: id in s.requests && s.requests[id].Holds(k) ==> HolderKept(s, id, k)
  }

  ghost predicate GatewayInv(s: Gateway, limits: Limits) {
    limits.maxEntries >= 1 && s.g.Valid(limits) && Inv(s.View()) && HoldersKept(s)
  }

  lemma ClaimForgetsNoHolder(s: Gateway, limits: Limits, step: Step)
    requires GatewayInv(s, limits) && step.Claim? && CanStep(s, step) && Timely(s, limits, step)
    ensures Safe(s.View(), Forgets(Forgotten(s.g, limits, step.now)))
  {
    forall id, k | id in s.requests && s.requests[id].Holds(k) ensures k !in Forgotten(s.g, limits, step.now) {
      assert TimelyFor(s, limits, id, step.now);
      ClaimKeeps(s.g, limits, step.key, step.now, k, s.stamps[id].at, s.made - s.stamps[id].number);
    }
  }

  lemma ClaimIsARun(s: Gateway, limits: Limits, step: Step)
    requires GatewayInv(s, limits) && step.Claim? && CanStep(s, step) && Timely(s, limits, step)
    ensures IsRun(s.View(), Events(s, limits, step))
    ensures Run(s.View(), Events(s, limits, step)) == Take(s, limits, step).View()
  {
    ClaimForgetsNoHolder(s, limits, step);
    ClaimRefines(s.g, limits, step.key, step.now);
    var es := Events(s, limits, step);
    var s1 := Next(s.View(), es[0]);
    assert es[1..] == [es[1]] && es[1..][1..] == [];
    assert Enabled(s1, es[1]) && Safe(s1, es[1]);
    assert IsRun(s1, es[1..]) && Run(s1, es[1..]) == Next(s1, es[1]);
  }

  /** A claimer that holds is told `New`, and its entry is in the younger generation. */
  lemma ClaimerIsKept(s: Gateway, limits: Limits, step: Step, k: Key)
    requires step.Claim? && CanStep(s, step) && Take(s, limits, step).requests[step.id].Holds(k)
    ensures HolderKept(Take(s, limits, step), step.id, k)
  {
    assert k == step.key && ClaimIn(s.g, limits, k, step.now).1.New?;
    assert k in ClaimIn(s.g, limits, k, step.now).0.younger;
  }

  lemma ClaimKeepsHolder(s: Gateway, limits: Limits, step: Step, id: Id, k: Key)
    requires s.g.Valid(limits) && step.Claim? && CanStep(s, step) && id != step.id
    requires HolderKept(s, id, k) && TimelyFor(s, limits, id, step.now)
    ensures HolderKept(Take(s, limits, step), id, k)
  {
    ClaimKeeps(s.g, limits, step.key, step.now, k, s.stamps[id].at, s.made - s.stamps[id].number);
  }

  lemma ClaimKeepsHolders(s: Gateway, limits: Limits, step: Step)
    requires GatewayInv(s, limits) && step.Claim? && CanStep(s, step) && Timely(s, limits, step)
    ensures HoldersKept(Take(s, limits, step)) && Take(s, limits, step).g.Valid(limits)
  {
    var s' := Take(s, limits, step);
    ClaimRefines(s.g, limits, step.key, step.now);
    forall id, k | id in s'.requests && s'.requests[id].Holds(k) ensures HolderKept(s', id, k) {
      if id == step.id {
        ClaimerIsKept(s, limits, step, k);
      } else {
        assert s.requests[id].Holds(k);
        ClaimKeepsHolder(s, limits, step, id, k);
      }
    }
  }

  lemma OtherIsARun(s: Gateway, limits: Limits, step: Step)
    requires GatewayInv(s, limits) && step.Other? && CanStep(s, step)
    ensures IsRun(s.View(), Events(s, limits, step))
    ensures Run(s.View(), Events(s, limits, step)) == Take(s, limits, step).View()
    ensures Take(s, limits, step).g.Valid(limits)
    ensures |Take(s, limits, step).g.younger.Keys| <= |s.g.younger.Keys|
  {
    var e, es := step.event, Events(s, limits, step);
    assert es[1..] == [];
    if e.Releases? { ReleaseRefines(s.g, limits, e.key); }
    if e.Settles? { SettleRefines(s.g, limits, e.key, e.outcome); }
  }

  /** A holder after a step that is no claim held its key before it, and did not just settle or release. */
  lemma HeldBefore(s: Gateway, limits: Limits, e: Event, id: Id, k: Key)
    requires Inv(s.View()) && CanStep(s, Other(e))
    requires id in Take(s, limits, Other(e)).requests && Take(s, limits, Other(e)).requests[id].Holds(k)
    ensures id in s.requests && s.requests[id].Holds(k)
    ensures e.Releases? || e.Settles? ==> e.key != k
  {
    if e.Releases? || e.Settles? {
      assert s.requests[e.id].Holds(e.key);
      assert OneHolder(s.View());
    }
  }

  lemma OtherKeepsHolder(s: Gateway, limits: Limits, e: Event, id: Id, k: Key)
    requires s.g.Valid(limits) && CanStep(s, Other(e)) && HolderKept(s, id, k)
    requires e.Releases? || e.Settles? ==> e.key != k
    ensures HolderKept(Take(s, limits, Other(e)), id, k)
  {
    var at, count := s.stamps[id].at, s.made - s.stamps[id].number;
    if e.Releases? {
      ReleaseKeeps(s.g, limits, e.key, k, at, count);
    } else if e.Settles? {
      SettleKeeps(s.g, limits, e.key, e.outcome, k, at, count);
    }
  }

  lemma OtherKeepsHolders(s: Gateway, limits: Limits, step: Step)
    requires GatewayInv(s, limits) && step.Other? && CanStep(s, step)
    ensures HoldersKept(Take(s, limits, step))
  {
    var e, s' := step.event, Take(s, limits, step);
    forall id, k | id in s'.requests && s'.requests[id].Holds(k) ensures HolderKept(s', id, k) {
      HeldBefore(s, limits, e, id, k);
      OtherKeepsHolder(s, limits, e, id, k);
    }
  }

  lemma StepRefines(s: Gateway, limits: Limits, step: Step)
    requires GatewayInv(s, limits) && CanStep(s, step) && Timely(s, limits, step)
    ensures GatewayInv(Take(s, limits, step), limits)
    ensures IsRun(s.View(), Events(s, limits, step))
    ensures Run(s.View(), Events(s, limits, step)) == Take(s, limits, step).View()
  {
    if step.Claim? {
      ClaimIsARun(s, limits, step);
      ClaimKeepsHolders(s, limits, step);
    } else {
      OtherIsARun(s, limits, step);
      OtherKeepsHolders(s, limits, step);
    }
    RunKeepsInv(s.View(), Events(s, limits, step));
  }

  ghost predicate IsTimelyRun(s: Gateway, limits: Limits, steps: seq<Step>)
    decreases |steps|
  {
    steps == [] || (
      && CanStep(s, steps[0]) && Timely(s, limits, steps[0])
      && IsTimelyRun(Take(s, limits, steps[0]), limits, steps[1..]))
  }

  function TakeAll(s: Gateway, limits: Limits, steps: seq<Step>): Gateway
    requires IsTimelyRun(s, limits, steps)
    decreases |steps|
  {
    if steps == [] then s else TakeAll(Take(s, limits, steps[0]), limits, steps[1..])
  }

  function Trace(s: Gateway, limits: Limits, steps: seq<Step>): seq<Event>
    requires IsTimelyRun(s, limits, steps)
    decreases |steps|
  {
    if steps == [] then []
    else Events(s, limits, steps[0]) + Trace(Take(s, limits, steps[0]), limits, steps[1..])
  }

  lemma {:induction false} JoinRuns(s: State, a: seq<Event>, b: seq<Event>)
    requires IsRun(s, a) && IsRun(Run(s, a), b)
    ensures IsRun(s, a + b) && Run(s, a + b) == Run(Run(s, a), b)
    decreases |a|
  {
    if a == [] {
      assert a + b == b;
    } else {
      assert (a + b)[1..] == a[1..] + b;
      JoinRuns(Next(s, a[0]), a[1..], b);
    }
  }

  lemma {:induction false} TimelyRunRefines(s: Gateway, limits: Limits, steps: seq<Step>)
    requires GatewayInv(s, limits) && IsTimelyRun(s, limits, steps)
    ensures GatewayInv(TakeAll(s, limits, steps), limits)
    ensures IsRun(s.View(), Trace(s, limits, steps))
    ensures Run(s.View(), Trace(s, limits, steps)) == TakeAll(s, limits, steps).View()
    decreases |steps|
  {
    if steps != [] {
      StepRefines(s, limits, steps[0]);
      var s' := Take(s, limits, steps[0]);
      TimelyRunRefines(s', limits, steps[1..]);
      JoinRuns(s.View(), Events(s, limits, steps[0]), Trace(s', limits, steps[1..]));
    }
  }

  function Start(now: nat): Gateway { Gateway(Generations(map[], map[], now), map[], {}, map[], 0) }

  /** Every timely run of the gateway is a safe run of `Operations`, and keeps one holder per key. */
  lemma LocalGatewayIsSafe(limits: Limits, now: nat, steps: seq<Step>, a: Id, b: Id, k: Key)
    requires limits.maxEntries >= 1 && IsTimelyRun(Start(now), limits, steps)
    ensures IsRun(INIT, Trace(Start(now), limits, steps))
    ensures Run(INIT, Trace(Start(now), limits, steps)) == TakeAll(Start(now), limits, steps).View()
    ensures var requests := TakeAll(Start(now), limits, steps).requests;
            a in requests && b in requests && requests[a].Holds(k) && requests[b].Holds(k) ==> a == b
  {
    assert Start(now).View() == INIT;
    TimelyRunRefines(Start(now), limits, steps);
    RunKeepsInv(INIT, Trace(Start(now), limits, steps));
  }
}
