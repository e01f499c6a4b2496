/** The client's proof loop: seal, submit, and try once more when the prover moved on. */
module ProveRetry {
  import opened Basics

  // The second turn fetches a new attestation. It asks for a new policy file too, but a
  // failed download leaves it the one held before, until that expires.

  datatype Error = ProverKeyLost | PolicyInvalid | PolicyExpired | Thrown(code: nat)

  /** What was asked for, or the error it fails with. */
  datatype Fetch<T> = Got(value: T) | Lost(error: Error)

  // The policy file.

  /** A well-shaped file's integers, times in seconds; `serial` tells files apart. */
  datatype File = File(
    serial: nat, version: nat, releaseExpiresAt: nat, maxAgeSecs: nat, issuedAt: nat, freshUntil: nat)

  datatype Policy = Policy(serial: nat, maxAgeSecs: nat, expiresAt: nat)

  /** `fetchedAtMs` is `None` for minus infinity. */
  datatype Held = Held(policy: Policy, fetchedAtMs: Option<int>)

  /** How a download ends: `Abandoned` when the caller's signal aborts it. */
  datatype Download = Came(file: File) | Fails(code: nat) | Abandoned(code: nat)

  /** What the world gives one call of `current`: the clock at its start and once the download ended. */
  datatype Ask = Ask(aborted: Option<nat>, nowMs: int, download: Download, landsMs: int)

  /** `expired`. */
  predicate Expired(p: Policy, nowMs: int) { nowMs >= p.expiresAt * 1_000 }

  /** `fresh`. */
  predicate InForce(h: Held, nowMs: int) {
    && h.fetchedAtMs.Some? && 0 <= nowMs - h.fetchedAtMs.value < h.policy.maxAgeSecs * 1_000
    && !Expired(h.policy, nowMs)
  }

  /** `readPolicy` of a well-shaped file. */
  function ReadPolicy(f: File, nowMs: int): (r: Fetch<Policy>)
    ensures r.Got? ==> r.value.serial == f.serial && r.value.maxAgeSecs >= 1 && !Expired(r.value, nowMs)
    ensures r.Got? ==> r.value.expiresAt <= f.releaseExpiresAt && r.value.expiresAt <= f.freshUntil
  {
    var expiresAt := if f.releaseExpiresAt < f.freshUntil then f.releaseExpiresAt else f.freshUntil;
    if f.version < 1 || f.releaseExpiresAt < 1 || f.maxAgeSecs < 1 || f.freshUntil < 1 then Lost(PolicyInvalid)
    else if f.issuedAt >= f.freshUntil then Lost(PolicyInvalid)
    else if nowMs >= expiresAt * 1_000 then Lost(PolicyExpired)
    else Got(Policy(f.serial, f.maxAgeSecs, expiresAt))
  }

  /** The policy a download brings. */
  function Downloaded(a: Ask): Fetch<Policy> {
    match a.download
    case Came(file) => ReadPolicy(file, a.landsMs)
    case Fails(code) => Lost(Thrown(code))
    case Abandoned(code) => Lost(Thrown(code))
  }

  /** What `#refresh` gives: a new file, or the held one for another while if the download failed. */
  function Refreshed(a: Ask, held: Option<Held>): Fetch<Held> {
    var next := Downloaded(a);
    if next.Got? then Got(Held(next.value, Some(a.landsMs)))
    else if a.download.Abandoned? || held.None? || Expired(held.value.policy, a.landsMs) then Lost(next.error)
    else Got(held.value.(fetchedAtMs := Some(a.landsMs)))
  }

  function Current(a: Ask, held: Option<Held>): Fetch<Held> {
    if a.aborted.Some? then Lost(Thrown(a.aborted.value))
    else if held.Some? && InForce(held.value, a.nowMs) then Got(held.value)
    else Refreshed(a, held)
  }

  function HeldAfter(a: Ask, held: Option<Held>): Option<Held> {
    var h := Current(a, held);
    if h.Got? then Some(h.value) else held
  }

  function Invalidated(held: Option<Held>): Option<Held> {
    if held.Some? then Some(held.value.(fetchedAtMs := None)) else None
  }

  class ProverPolicy {
    var held: Option<Held>

    constructor ()
      ensures held == None
    {
      held := None;
    }

    method GetCurrent(a: Ask) returns (r: Fetch<Held>)
      modifies this
      ensures r == Current(a, old(held)) && held == HeldAfter(a, old(held))
      ensures r.Got? ==> held == Some(r.value) && (!Expired(r.value.policy, a.nowMs) || !Expired(r.value.policy, a.landsMs))
    {
      if a.aborted.Some? {
        return Lost(Thrown(a.aborted.value));
      }
      if held.Some? && InForce(held.value, a.nowMs) {
        return Got(held.value);
      }
      r := Refresh(a);
    }

    /** `#refresh`. */
    method Refresh(a: Ask) returns (r: Fetch<Held>)
      modifies this
      ensures r == Refreshed(a, old(held)) && held == if r.Got? then Some(r.value) else old(held)
    {
      var next := Downloaded(a);
      var now: Held;
      if next.Got? {
        now := Held(next.value, Some(a.landsMs));
      } else if a.download.Abandoned? || held.None? || Expired(held.value.policy, a.landsMs) {
        return Lost(next.error);
      } else {
        now := held.value.(fetchedAtMs := Some(a.landsMs));
      }
      held := Some(now);
      return Got(now);
    }

    method Invalidate()
      modifies this
      ensures held == Invalidated(old(held))
    {
      if held.Some? {
        held := Some(held.value.(fetchedAtMs := None));
      }
    }
  }

  // The policy file over whole runs.

  datatype Call = Asks(ask: Ask) | Invalidates

  function Step(held: Option<Held>, call: Call): Option<Held> {
    if call.Asks? then HeldAfter(call.ask, held) else Invalidated(held)
  }

  function Steps(held: Option<Held>, calls: seq<Call>): Option<Held>
    decreases |calls|
  {
    if calls == [] then held else Steps(Step(held, calls[0]), calls[1..])
  }

  /** The file a call brings in, if it downloads one it can read. */
  function Installs(held: Option<Held>, call: Call): Option<Policy> {
    if call.Asks? && call.ask.aborted.None? && !(held.Some? && InForce(held.value, call.ask.nowMs)) && Downloaded(call.ask).Got?
    then Some(Downloaded(call.ask).value)
    else None
  }

  /** The last file calls bring in; `p` when they bring in none. */
  function LastInstalled(p: Option<Policy>, held: Option<Held>, calls: seq<Call>): Option<Policy>
    decreases |calls|
  {
    if calls == [] then p
    else
      var next := Installs(held, calls[0]);
      LastInstalled(if next.Some? then next else p, Step(held, calls[0]), calls[1..])
  }

  function PolicyIn(held: Option<Held>): Option<Policy> {
    if held.Some? then Some(held.value.policy) else None
  }

  /** Whatever fails or is invalidated, the file held is always the last one read. */
  lemma {:induction false} HeldIsTheLastRead(held: Option<Held>, calls: seq<Call>)
    ensures PolicyIn(Steps(held, calls)) == LastInstalled(PolicyIn(held), held, calls)
    decreases |calls|
  {
    if calls != [] {
      HeldIsTheLastRead(Step(held, calls[0]), calls[1..]);
    }
  }

  /** A caller that stays is given a file exactly when one is read or the one held has not expired. */
  lemma GivenExactly(a: Ask, held: Option<Held>)
    requires a.aborted.None? && !(held.Some? && InForce(held.value, a.nowMs))
    ensures Current(a, held).Got? <==>
      Downloaded(a).Got? || (!a.download.Abandoned? && held.Some? && !Expired(held.value.policy, a.landsMs))
    ensures Current(a, held).Got? ==>
      Some(Current(a, held).value.policy) == if Downloaded(a).Got? then Some(Downloaded(a).value) else PolicyIn(held)
  {
  }

  /** No file is read. */
  predicate Outage(calls: seq<Call>) {
    forall i :: 0 <= i < |calls| && calls[i].Asks? ==> !Downloaded(calls[i].ask).Got?
  }

  /**
   While no download is read, the held file is given to every caller that stays until it
   expires, and to none after.
   */
  lemma {:induction false} OutageServesUntilExpiry(held: Held, calls: seq<Call>, a: Ask)
    requires Outage(calls) && a.aborted.None? && !a.download.Abandoned? && !Downloaded(a).Got?
    requires a.nowMs <= a.landsMs
    ensures Expired(held.policy, a.nowMs) ==> Current(a, Steps(Some(held), calls)).Lost?
    ensures !Expired(held.policy, a.landsMs) ==>
      Current(a, Steps(Some(held), calls)).Got? && Current(a, Steps(Some(held), calls)).value.policy == held.policy
    decreases |calls|
  {
    if calls != [] {
      var next := Step(Some(held), calls[0]);
      assert next.Some? && next.value.policy == held.policy;
      OutageServesUntilExpiry(next.value, calls[1..], a);
    }
  }

  // The attestation.

  datatype Attestation = Attestation(serial: nat, fetchedAtMs: int)

  /** `attestationReuseMs`. */
  function ReuseMs(p: Policy, nowMs: int): (ms: int)
    ensures 0 <= ms <= p.maxAgeSecs * 1_000
    ensures ms == 0 || nowMs + ms <= p.expiresAt * 1_000
  {
    var left := p.expiresAt * 1_000 - nowMs;
    var age := p.maxAgeSecs * 1_000;
    var least := if age < left then age else left;
    if least < 0 then 0 else least
  }

  /** An attestation may serve at a time: it is younger than the policy lets it be, which never outlasts the policy. */
  predicate Reusable(a: Attestation, p: Policy, nowMs: int) { nowMs - a.fetchedAtMs < ReuseMs(p, a.fetchedAtMs) }

  lemma ReusableBeforeExpiry(a: Attestation, p: Policy, nowMs: int)
    requires Reusable(a, p, nowMs) && a.fetchedAtMs <= nowMs
    ensures nowMs < p.expiresAt * 1_000 && nowMs - a.fetchedAtMs < p.maxAgeSecs * 1_000
  {
  }

  // The loop.

  datatype Sealing = Sealed | ProverStage(code: nat) | Failed(code: nat)

  datatype Answer = Proof(body: nat) | KeyLost | Threw(code: nat)

  /** What the world gives one turn of the loop; `nowMs` is when it looks at the held attestation. */
  datatype Turn = Turn(ask: Ask, nowMs: int, fetched: Fetch<Attestation>, sealing: Sealing, answer: Answer)

  datatype Result = Proved(body: nat) | Refused(error: Error)

  /** What is held between calls. */
  datatype Keys = Keys(held: Option<Held>, attested: Option<Attestation>)

  /** What a turn seals with. */
  datatype Use = Use(policy: Policy, attestation: Attestation)

  function AttestationOf(t: Turn, p: Policy, attested: Option<Attestation>): Fetch<Attestation> {
    if attested.Some? && Reusable(attested.value, p, t.nowMs) then Got(attested.value) else t.fetched
  }

  function UseOf(t: Turn, s: Keys): Fetch<Use> {
    var h := Current(t.ask, s.held);
    if h.Lost? then Lost(h.error)
    else
      var a := AttestationOf(t, h.value.policy, s.attested);
      if a.Lost? then Lost(a.error) else Got(Use(h.value.policy, a.value))
  }

  /** The turn's attestation or policy failed it: the enclave refused it, or the prover lost its key. */
  predicate Stale(t: Turn, s: Keys) {
    UseOf(t, s).Got? && (t.sealing.ProverStage? || (t.sealing.Sealed? && t.answer.KeyLost?))
  }

  /** What a turn that ends the loop gives. */
  function Verdict(t: Turn, s: Keys): Result {
    var use := UseOf(t, s);
    if use.Lost? then Refused(use.error)
    else
      match t.sealing
      case ProverStage(code) => Refused(Thrown(code))
      case Failed(code) => Refused(Thrown(code))
      case Sealed =>
        match t.answer
        case Proof(body) => Proved(body)
        case KeyLost => Refused(ProverKeyLost)
        case Threw(code) => Refused(Thrown(code))
  }

  function Forgotten(s: Keys): Keys { Keys(Invalidated(s.held), None) }

  /** What is held once a turn sealed, or failed to. */
  function Holding(t: Turn, s: Keys): Keys {
    var use := UseOf(t, s);
    Keys(HeldAfter(t.ask, s.held), if use.Got? then Some(use.value.attestation) else s.attested)
  }

  /** What is held after a turn that ends the loop. */
  function After(t: Turn, s: Keys): Keys {
    if UseOf(t, s).Got? && t.sealing.Sealed? && t.answer.KeyLost? then Forgotten(Holding(t, s)) else Holding(t, s)
  }

  /** What the second turn starts from. */
  function Second(t: Turn, s: Keys): Keys { Forgotten(Holding(t, s)) }

  /**
   The second turn has a policy exactly when it downloads one or the first turn's has not
   expired; it is the downloaded one exactly when there is one, and the first turn's otherwise.
   */
  lemma SecondTurnPolicyExactly(first: Turn, second: Turn, s: Keys)
    requires Stale(first, s)
    ensures var p, h := UseOf(first, s).value.policy, Current(second.ask, Second(first, s).held);
            && (h.Got? <==>
                  && second.ask.aborted.None? && !second.ask.download.Abandoned?
                  && (Downloaded(second.ask).Got? || !Expired(p, second.ask.landsMs)))
            && (h.Got? ==> h.value.policy == if Downloaded(second.ask).Got? then Downloaded(second.ask).value else p)
  {
    var before := Second(first, s).held;
    assert before == Some(Held(UseOf(first, s).value.policy, None));
    if second.ask.aborted.None? {
      GivenExactly(second.ask, before);
    }
  }

  /** A stale turn, and one whose download fails: both seal under the policy held since before. */
  lemma FailedDownloadSealsUnderTheSamePolicy(code: nat)
    ensures var p := Policy(7, 60, 1_000);
            var s := Keys(Some(Held(p, Some(0))), None);
            var first := Turn(Ask(None, 5, Fails(code), 5), 5, Got(Attestation(1, 5)), Sealed, KeyLost);
            var second := Turn(Ask(None, 9, Fails(code), 9), 9, Got(Attestation(2, 9)), Sealed, Proof(0));
            && Stale(first, s) && UseOf(first, s).value.policy == p
            && UseOf(second, Second(first, s)) == Got(Use(p, Attestation(2, 9)))
            && Verdict(second, Second(first, s)) == Proved(0)
  {
  }

  class WalletKeys {
    const policy: ProverPolicy
    var attested: Option<Attestation>

    ghost function View(): Keys
      reads this, policy
    {
      Keys(policy.held, attested)
    }

    constructor (policy: ProverPolicy)
      ensures this.policy == policy && attested == None
    {
      this.policy, attested := policy, None;
    }

    /** `#attestation`. A failed fetch leaves what is held. */
    method Attest(anew: bool, inForce: Policy, t: Turn) returns (a: Fetch<Attestation>)
      modifies this`attested
      ensures a == AttestationOf(t, inForce, if anew then None else old(attested))
      ensures attested == if a.Got? then Some(a.value) else old(attested)
    {
      if !anew && attested.Some? && Reusable(attested.value, inForce, t.nowMs) {
        return Got(attested.value);
      }
      a := t.fetched;
      if a.Got? {
        attested := Some(a.value);
      }
    }

    /** `#forgetProver`: the held policy stays, to be downloaded again at the next call. */
    method ForgetProver()
      modifies this, policy
      ensures View() == Forgotten(old(View()))
    {
      attested := None;
      policy.Invalidate();
    }

    /**
     `#sealAndProve`. At most two turns; there is a second exactly when the first was
     stale. It fetches its own attestation, and its policy is the one it downloads, or
     the first turn's when that download fails before that policy expires. The last turn
     decides. `used` is what was sealed with.
     */
    method SealAndProve(turns: nat -> Turn) returns (r: Result, taken: nat, used: seq<Use>)
      modifies this, policy
      ensures 1 <= taken <= 2 && (taken == 2 <==> Stale(turns(0), old(View())))
      ensures taken == 1 ==> r == Verdict(turns(0), old(View())) && View() == After(turns(0), old(View()))
      ensures taken == 2 ==>
        var s := Second(turns(0), old(View()));
        r == Verdict(turns(1), s) && View() == After(turns(1), s)
      ensures |used| <= taken && (|used| > 0 <==> UseOf(turns(0), old(View())).Got?)
      ensures |used| > 0 ==> Got(used[0]) == UseOf(turns(0), old(View()))
      ensures taken == 2 ==> |used| > 0 && (|used| == 2 <==>
        && turns(1).ask.aborted.None? && !turns(1).ask.download.Abandoned? && turns(1).fetched.Got?
        && (Downloaded(turns(1).ask).Got? || !Expired(used[0].policy, turns(1).ask.landsMs)))
      ensures |used| == 2 ==> Got(used[1].attestation) == turns(1).fetched
      ensures |used| == 2 ==>
        used[1].policy == if Downloaded(turns(1).ask).Got? then Downloaded(turns(1).ask).value else used[0].policy
    {
      var anew := false;
      var attempt := 0;
      used := [];
      ghost var start := View();
      if Stale(turns(0), start) {
        SecondTurnPolicyExactly(turns(0), turns(1), start);
      }
      while true
        invariant |used| == attempt <= 1
        invariant attempt == 0 ==> !anew && View() == start
        invariant attempt == 1 ==> anew && Stale(turns(0), start) && View() == Second(turns(0), start)
        invariant attempt == 1 ==> Got(used[0]) == UseOf(turns(0), start)
        decreases 2 - attempt
      {
        var t := turns(attempt);
        var h := policy.GetCurrent(t.ask);
        if h.Lost? {
          return Refused(h.error), attempt + 1, used;
        }
        var a := Attest(anew, h.value.policy, t);
        if a.Lost? {
          return Refused(a.error), attempt + 1, used;
        }
        used := used + [Use(h.value.policy, a.value)];
        if t.sealing.ProverStage? && !anew {
          ForgetProver();
          anew := true;
        } else if !t.sealing.Sealed? {
          return Refused(Thrown(t.sealing.code)), attempt + 1, used;
        } else if t.answer.Proof? {
          return Proved(t.answer.body), attempt + 1, used;
        } else if t.answer.Threw? {
          return Refused(Thrown(t.answer.code)), attempt + 1, used;
        } else {
          ForgetProver();
          if attempt > 0 {
            return Refused(ProverKeyLost), attempt + 1, used;
          }
          anew := true;
        }
        attempt := attempt + 1;
      }
    }
  }
}
