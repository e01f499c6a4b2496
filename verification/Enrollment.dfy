/** One session key's enrollment, signed once by the wallet owner and shared. */
module Enrollment {
  import opened Basics

  // Nobody waiting stops an enrollment until the owner has signed it; from then on it
  // runs to its end. A step is one synchronous section; steps of any callers and
  // flights interleave, and whether the owner, Turnkey and the gateway answer is not
  // up to the client.

  type Id = nat

  type FlightId = nat

  /** An enrolled descriptor: which one, and when it expires. */
  datatype Config = Config(identity: nat, expiresAtMs: int)

  const DESCRIPTOR_RENEWAL_MARGIN_MS := 300_000

  /** `current`: more than the renewal margin is left. */
  predicate Current(config: Config, now: int) { config.expiresAtMs - now > DESCRIPTOR_RENEWAL_MARGIN_MS }

  /** How far `enroll` and its `then` and `finally` are. */
  datatype Work =
    | Listing                               // reading the wallet's accounts
    | Listed                                // about to ask the owner
    | Signing                               // the owner is asked
    | Posting                               // the gateway has the signed enrollment
    | Received(config: Config)              // a checked descriptor, not kept yet
    | Ended(outcome: Option<Config>)
    | Settled(outcome: Option<Config>)

  /** `signed`: the owner's signature arrived, whether or not the flight still listens. */
  datatype Flight = Flight(waiters: nat, aborted: bool, signed: bool, asked: bool, work: Work)

  datatype Core = Core(enrolled: Option<Config>, pending: Option<FlightId>, flights: map<FlightId, Flight>)

  predicate IsPending(c: Core, f: FlightId) { c.pending == Some(f) }

  predicate Serves(c: Core, now: int) { c.enrolled.Some? && Current(c.enrolled.value, now) }

  function Joined(c: Core, unused: FlightId): FlightId {
    if c.pending.Some? then c.pending.value else unused
  }

  // The synchronous sections.

  function Entered(c: Core, now: int, unused: FlightId): Core
    requires c.pending.Some? ==> c.pending.value in c.flights
  {
    if Serves(c, now) then c
    else if c.pending.Some? then
      var f := c.flights[c.pending.value];
      Core(None, c.pending, c.flights[c.pending.value := f.(waiters := f.waiters + 1)])
    else Core(None, Some(unused), c.flights[unused := Flight(1, false, false, false, Listing)])
  }

  function At(c: Core, f: FlightId, work: Work): Core
    requires f in c.flights
  {
    c.(flights := c.flights[f := c.flights[f].(work := work)])
  }

  function Asked(c: Core, f: FlightId): Core
    requires f in c.flights
  {
    c.(flights := c.flights[f := c.flights[f].(work := Signing, asked := true)])
  }

  function Signed(c: Core, f: FlightId): Core
    requires f in c.flights
  {
    c.(flights := c.flights[f := c.flights[f].(signed := true)])
  }

  function Refused(c: Core, f: FlightId): Core
    requires f in c.flights
  {
    c.(flights := c.flights[f := c.flights[f].(work := Ended(None), asked := false)])
  }

  function Published(c: Core, f: FlightId): Core
    requires f in c.flights && c.flights[f].work.Received?
  {
    At(c, f, Ended(Some(c.flights[f].work.config))).(enrolled := Some(c.flights[f].work.config))
  }

  function AfterSettling(c: Core, f: FlightId): Core
    requires f in c.flights && c.flights[f].work.Ended?
  {
    At(c, f, Settled(c.flights[f].work.outcome)).(pending := if IsPending(c, f) then None else c.pending)
  }

  function AfterLeaving(c: Core, f: FlightId): Core
    requires f in c.flights && c.flights[f].waiters > 0
  {
    var flight := c.flights[f];
    var last := flight.waiters == 1 && IsPending(c, f) && !flight.signed;
    Core(c.enrolled,
         if last then None else c.pending,
         c.flights[f := flight.(waiters := flight.waiters - 1, aborted := flight.aborted || last)])
  }

  function Expired(c: Core, config: Config): Core {
    if c.enrolled == Some(config) then c.(enrolled := None) else c
  }

  /** A Turnkey session: the public key it signs with and whose it is, by number. */
  datatype Session = Session(publicKey: nat, organization: nat)

  /** The closure of `sessionKey` as the client runs it. */
  class SessionKey {
    const session: Session
    var enrolled: Option<Config>
    var pending: Option<FlightId>
    var flights: map<FlightId, Flight>

    ghost function View(): Core
      reads this
    {
      Core(enrolled, pending, flights)
    }

    constructor (session: Session)
      ensures this.session == session && View() == Core(None, None, map[])
    {
      this.session := session;
      enrolled, pending, flights := None, None, map[];
    }

    /** The start of `operations`: the configuration served, or the enrollment joined. */
    method Enter(now: int, unused: FlightId) returns (served: Option<Config>, flight: Option<FlightId>)
      requires pending.Some? ==> pending.value in flights
      requires unused !in flights
      modifies this
      ensures View() == Entered(old(View()), now, unused)
      ensures served == if Serves(old(View()), now) then old(enrolled) else None
      ensures flight == if Serves(old(View()), now) then None else Some(Joined(old(View()), unused))
    {
      if enrolled.Some? && Current(enrolled.value, now) {
        return enrolled, None;
      }
      enrolled := None;
      if pending.None? {
        flights := flights[unused := Flight(0, false, false, false, Listing)];
        pending := Some(unused);
      }
      var joined := pending.value;
      flights := flights[joined := flights[joined].(waiters := flights[joined].waiters + 1)];
      return None, Some(joined);
    }

    /** `onSigned`. */
    method OnSigned(f: FlightId)
      requires f in flights
      modifies this`flights
      ensures View() == Signed(old(View()), f)
    {
      flights := flights[f := flights[f].(signed := true)];
    }

    /** The enrollment's `then`. */
    method Publish(f: FlightId)
      requires f in flights && flights[f].work.Received?
      modifies this`enrolled, this`flights
      ensures View() == Published(old(View()), f)
    {
      enrolled := Some(flights[f].work.config);
      flights := flights[f := flights[f].(work := Ended(enrolled))];
    }

    /** The enrollment's `finally`. */
    method Settle(f: FlightId)
      requires f in flights && flights[f].work.Ended?
      modifies this`pending, this`flights
      ensures View() == AfterSettling(old(View()), f)
    {
      if pending == Some(f) {
        pending := None;
      }
      flights := flights[f := flights[f].(work := Settled(flights[f].work.outcome))];
    }

    /** A caller's `finally`. */
    method Leave(f: FlightId)
      requires f in flights && flights[f].waiters > 0
      modifies this`pending, this`flights
      ensures View() == AfterLeaving(old(View()), f)
    {
      flights := flights[f := flights[f].(waiters := flights[f].waiters - 1)];
      if flights[f].waiters == 0 && pending == Some(f) && !flights[f].signed {
        pending := None;
        flights := flights[f := flights[f].(aborted := true)];
      }
    }

    method Expire(config: Config)
      modifies this`enrolled
      ensures View() == Expired(old(View()), config)
    {
      if enrolled == Some(config) {
        enrolled := None;
      }
    }
  }

  /** `keys`: a session's public key has one closure, so its callers share one enrollment. */
  class SessionKeys {
    var keys: map<nat, SessionKey>

    ghost predicate Valid()
      reads this
    {
      forall k :: k in keys ==> keys[k].session.publicKey == k
    }

    constructor ()
      ensures Valid() && keys == map[]
    {
      keys := map[];
    }

    /**
     The provider's `current`: none without a session, else the public key's closure, made at
     its first call and never replaced. It keeps the organization of that first call.
     */
    method Current(session: Option<Session>) returns (key: Option<SessionKey>)
      requires Valid()
      modifies this
      ensures Valid() && (key.Some? <==> session.Some?)
      ensures forall k :: k in old(keys) ==> k in keys && keys[k] == old(keys[k])
      ensures session.None? ==> keys == old(keys)
      ensures session.Some? ==>
        var k := session.value.publicKey;
        && keys.Keys == old(keys).Keys + {k} && key == Some(keys[k])
        && (k !in old(keys) ==> fresh(keys[k]) && keys[k].session == session.value && keys[k].View() == Core(None, None, map[]))
    {
      if session.None? {
        return None;
      }
      var k := session.value.publicKey;
      if k !in keys {
        var made := new SessionKey(session.value);
        keys := keys[k := made];
      }
      return Some(keys[k]);
    }
  }

  // The step machine.

  datatype Caller =
    | Waiting(flight: FlightId)
    | Served(config: Config)
    | Answered(flight: FlightId, config: Config)
    | Failed

  datatype State = State(core: Core, callers: map<Id, Caller>)

  datatype Event =
    | Enters(id: Id, now: int, unused: FlightId)
    | Lists(flight: FlightId, found: bool)
    | Asks(flight: FlightId)
    | OwnerSigns(flight: FlightId)
    | OwnerRefuses(flight: FlightId)
    | Resumes(flight: FlightId)
    | Answers(flight: FlightId, answer: Option<Config>)
    | Publishes(flight: FlightId)
    | Settles(flight: FlightId)
    | Leaves(id: Id, cancelled: bool)
    | Expires(config: Config)

  predicate Enabled(s: State, e: Event) {
    match e
    case Enters(id, _, unused) =>
      id !in s.callers && unused !in s.core.flights && (s.core.pending.Some? ==> s.core.pending.value in s.core.flights)
    case Lists(f, _) => f in s.core.flights && s.core.flights[f].work.Listing?
    case Asks(f) => f in s.core.flights && s.core.flights[f].work.Listed?
    case OwnerSigns(f) => f in s.core.flights && s.core.flights[f].asked && !s.core.flights[f].signed
    case OwnerRefuses(f) => f in s.core.flights && s.core.flights[f].work.Signing? && !s.core.flights[f].signed
    case Resumes(f) =>
      && f in s.core.flights && s.core.flights[f].work.Signing?
      && (s.core.flights[f].signed || s.core.flights[f].aborted)
    case Answers(f, _) => f in s.core.flights && s.core.flights[f].work.Posting?
    case Publishes(f) => f in s.core.flights && s.core.flights[f].work.Received?
    case Settles(f) => f in s.core.flights && s.core.flights[f].work.Ended?
    case Leaves(id, cancelled) =>
      && id in s.callers && s.callers[id].Waiting? && s.callers[id].flight in s.core.flights
      && s.core.flights[s.callers[id].flight].waiters > 0
      && (cancelled || s.core.flights[s.callers[id].flight].work.Settled?)
    case Expires(_) => true
  }

  function Result(f: FlightId, work: Work, cancelled: bool): Caller {
    if !cancelled && work.Settled? && work.outcome.Some? then Answered(f, work.outcome.value) else Failed
  }

  function Next(s: State, e: Event): State
    requires Enabled(s, e)
  {
    match e
    case Enters(id, now, unused) =>
      var caller := if Serves(s.core, now) then Served(s.core.enrolled.value) else Waiting(Joined(s.core, unused));
      State(Entered(s.core, now, unused), s.callers[id := caller])
    case Lists(f, found) =>
      s.(core := At(s.core, f, if found && !s.core.flights[f].aborted then Listed else Ended(None)))
    case Asks(f) => s.(core := Asked(s.core, f))
    case OwnerSigns(f) => s.(core := Signed(s.core, f))
    case OwnerRefuses(f) => s.(core := Refused(s.core, f))
    case Resumes(f) => s.(core := At(s.core, f, if s.core.flights[f].aborted then Ended(None) else Posting))
    case Answers(f, answer) => s.(core := At(s.core, f, if answer.Some? then Received(answer.value) else Ended(None)))
    case Publishes(f) => s.(core := Published(s.core, f))
    case Settles(f) => s.(core := AfterSettling(s.core, f))
    case Leaves(id, cancelled) =>
      var f := s.callers[id].flight;
      State(AfterLeaving(s.core, f), s.callers[id := Result(f, s.core.flights[f].work, cancelled)])
    case Expires(config) => s.(core := Expired(s.core, config))
  }

  const INIT := State(Core(None, None, map[]), map[])

  ghost predicate IsRun(s: State, es: seq<Event>)
    decreases |es|
  {
    es == [] || (Enabled(s, es[0]) && IsRun(Next(s, es[0]), es[1..]))
  }

  function Run(s: State, es: seq<Event>): State
    requires IsRun(s, es)
    decreases |es|
  {
    if es == [] then s else Run(Next(s, es[0]), es[1..])
  }

  // The invariant.

  function Waiters(s: State, f: FlightId): set<Id> {
    set id | id in s.callers && s.callers[id] == Waiting(f)
  }

  predicate Live(flight: Flight) { !flight.aborted && !flight.work.Settled? }

  /** An enrollment is pending exactly until it settles or is aborted. */
  ghost predicate PendingIsLive(s: State) {
    && (s.core.pending.Some? ==> s.core.pending.value in s.core.flights)
    && forall f :: f in s.core.flights ==> (IsPending(s.core, f) <==> Live(s.core.flights[f]))
  }

  ghost predicate WaitersWait(s: State) {
    && (forall f :: f in s.core.flights ==> s.core.flights[f].waiters == |Waiters(s, f)|)
    && (forall id :: id in s.callers && s.callers[id].Waiting? ==> s.callers[id].flight in s.core.flights)
  }

  /** Nobody waits on an aborted enrollment, and somebody waits on an unsigned pending one. */
  predicate Attended(c: Core, f: FlightId)
    requires f in c.flights
  {
    && (c.flights[f].aborted ==> c.flights[f].waiters == 0)
    && (IsPending(c, f) && !c.flights[f].signed ==> c.flights[f].waiters > 0)
  }

  /** Only a signed, unaborted enrollment gets past its signature. */
  predicate InOrder(flight: Flight) {
    match flight.work
    case Listing => !flight.asked && !flight.signed
    case Listed => !flight.asked && !flight.signed
    case Signing => flight.asked
    case Posting => flight.signed && !flight.aborted
    case Received(_) => flight.signed && !flight.aborted
    case Ended(outcome) => outcome.Some? ==> flight.signed && !flight.aborted
    case Settled(outcome) => outcome.Some? ==> flight.signed && !flight.aborted
  }

  ghost predicate FlightsInOrder(s: State) {
    forall f :: f in s.core.flights ==> Attended(s.core, f) && InOrder(s.core.flights[f])
  }

  /** The descriptor the gateway answered an enrollment with, once it was kept. */
  predicate Made(s: State, f: FlightId, config: Config) {
    && f in s.core.flights
    && (s.core.flights[f].work == Ended(Some(config)) || s.core.flights[f].work == Settled(Some(config)))
  }

  ghost predicate ConfigsWereMade(s: State) {
    && (s.core.enrolled.Some? ==> exists f :: Made(s, f, s.core.enrolled.value))
    && (forall id :: id in s.callers && s.callers[id].Answered? ==> Made(s, s.callers[id].flight, s.callers[id].config))
  }

  ghost predicate Inv(s: State) {
    PendingIsLive(s) && WaitersWait(s) && FlightsInOrder(s) && ConfigsWereMade(s)
  }

  lemma StepKeepsPending(s: State, e: Event)
    requires PendingIsLive(s) && Enabled(s, e)
    ensures PendingIsLive(Next(s, e))
  {
  }

  /** A flight made by the step is in order. */
  lemma NewFlightInOrder(s: State, e: Event, f: FlightId)
    requires PendingIsLive(s) && Enabled(s, e) && f in Next(s, e).core.flights && f !in s.core.flights
    ensures Attended(Next(s, e).core, f) && InOrder(Next(s, e).core.flights[f])
  {
  }

  lemma StepKeepsInOrder(s: State, e: Event, f: FlightId)
    requires PendingIsLive(s) && Enabled(s, e) && f in s.core.flights
    requires Attended(s.core, f) && InOrder(s.core.flights[f])
    ensures f in Next(s, e).core.flights && InOrder(Next(s, e).core.flights[f])
  {
  }

  lemma StepKeepsAttended(s: State, e: Event, f: FlightId)
    requires PendingIsLive(s) && Enabled(s, e) && f in s.core.flights
    requires Attended(s.core, f) && InOrder(s.core.flights[f])
    ensures f in Next(s, e).core.flights && Attended(Next(s, e).core, f)
  {
  }

  lemma StepKeepsOrder(s: State, e: Event)
    requires PendingIsLive(s) && FlightsInOrder(s) && Enabled(s, e)
    ensures FlightsInOrder(Next(s, e))
  {
    forall f | f in Next(s, e).core.flights
      ensures Attended(Next(s, e).core, f) && InOrder(Next(s, e).core.flights[f])
    {
      if f in s.core.flights {
        StepKeepsInOrder(s, e, f);
        StepKeepsAttended(s, e, f);
      } else {
        NewFlightInOrder(s, e, f);
      }
    }
  }

  lemma StepKeepsMade(s: State, e: Event, f: FlightId, config: Config)
    requires Made(s, f, config) && Enabled(s, e) && FlightsInOrder(s)
    ensures Made(Next(s, e), f, config)
  {
  }

  lemma StepKeepsConfigs(s: State, e: Event)
    requires ConfigsWereMade(s) && Enabled(s, e) && FlightsInOrder(s)
    ensures ConfigsWereMade(Next(s, e))
  {
    var s' := Next(s, e);
    forall f, c | Made(s, f, c) ensures Made(s', f, c) { StepKeepsMade(s, e, f, c); }
    if e.Publishes? {
      assert Made(s', e.flight, s'.core.enrolled.value);
    } else if s'.core.enrolled.Some? {
      var f :| Made(s, f, s.core.enrolled.value);
      assert Made(s', f, s'.core.enrolled.value);
    }
  }

  predicate JoinsAt(s: State, e: Event, f: FlightId)
    requires Enabled(s, e)
  {
    e.Enters? && !Serves(s.core, e.now) && Joined(s.core, e.unused) == f
  }

  predicate LeavesFrom(s: State, e: Event, f: FlightId)
    requires Enabled(s, e)
  {
    e.Leaves? && s.callers[e.id].flight == f
  }

  /** The waiting callers of `f` change only by the one that joins or leaves it, */
  lemma StepMovesWaiters(s: State, e: Event, f: FlightId)
    requires Enabled(s, e)
    ensures Waiters(Next(s, e), f) ==
      if JoinsAt(s, e, f) then Waiters(s, f) + {e.id}
      else if LeavesFrom(s, e, f) then Waiters(s, f) - {e.id}
      else Waiters(s, f)
    ensures JoinsAt(s, e, f) ==> e.id !in Waiters(s, f)
    ensures LeavesFrom(s, e, f) ==> e.id in Waiters(s, f)
  {
  }

  function Count(c: Core, f: FlightId): nat { if f in c.flights then c.flights[f].waiters else 0 }

  /** and so does the count. */
  lemma StepMovesCount(s: State, e: Event, f: FlightId)
    requires Enabled(s, e)
    ensures Count(Next(s, e).core, f) ==
      Count(s.core, f) + (if JoinsAt(s, e, f) then 1 else 0) - (if LeavesFrom(s, e, f) then 1 else 0)
  {
  }

  lemma UnmadeHasNoWaiters(s: State, f: FlightId)
    requires WaitersWait(s)
    ensures Count(s.core, f) == |Waiters(s, f)|
  {
    if f !in s.core.flights { assert Waiters(s, f) == {}; }
  }

  lemma StepKeepsWaiters(s: State, e: Event)
    requires WaitersWait(s) && Enabled(s, e)
    ensures WaitersWait(Next(s, e))
  {
    forall f | f in Next(s, e).core.flights
      ensures Next(s, e).core.flights[f].waiters == |Waiters(Next(s, e), f)|
    {
      StepMovesCount(s, e, f);
      StepMovesWaiters(s, e, f);
      UnmadeHasNoWaiters(s, f);
    }
  }

  lemma StepKeepsInv(s: State, e: Event)
    requires Inv(s) && Enabled(s, e)
    ensures Inv(Next(s, e))
  {
    StepKeepsPending(s, e);
    StepKeepsOrder(s, e);
    StepKeepsConfigs(s, e);
    StepKeepsWaiters(s, e);
  }

  lemma {:induction false} RunKeepsInv(s: State, es: seq<Event>)
    requires Inv(s) && IsRun(s, es)
    ensures Inv(Run(s, es))
    decreases |es|
  {
    if es != [] {
      StepKeepsInv(s, es[0]);
      RunKeepsInv(Next(s, es[0]), es[1..]);
    }
  }

  // What every interleaving keeps.

  /** At most one enrollment is under way and not aborted, and it is the pending one, which later callers join. */
  lemma OneEnrollmentIsLive(es: seq<Event>, f: FlightId, g: FlightId)
    requires IsRun(INIT, es) && f in Run(INIT, es).core.flights && g in Run(INIT, es).core.flights
    requires Live(Run(INIT, es).core.flights[f]) && Live(Run(INIT, es).core.flights[g])
    ensures f == g && IsPending(Run(INIT, es).core, f)
    ensures forall unused :: Joined(Run(INIT, es).core, unused) == f
  {
    RunKeepsInv(INIT, es);
  }

  /** `waiters` is the number of callers waiting, and nobody waits on an aborted enrollment. */
  lemma WaitersAreCounted(es: seq<Event>, f: FlightId)
    requires IsRun(INIT, es) && f in Run(INIT, es).core.flights
    ensures Run(INIT, es).core.flights[f].waiters == |Waiters(Run(INIT, es), f)|
    ensures Waiters(Run(INIT, es), f) != {} ==> !Run(INIT, es).core.flights[f].aborted
  {
    RunKeepsInv(INIT, es);
  }

  /** An enrollment is aborted exactly when its last waiter leaves before the owner signed. */
  lemma AbortedExactlyUnsigned(es: seq<Event>, e: Event, f: FlightId)
    requires IsRun(INIT, es) && Enabled(Run(INIT, es), e)
    requires f in Run(INIT, es).core.flights && !Run(INIT, es).core.flights[f].aborted
    ensures Next(Run(INIT, es), e).core.flights[f].aborted
       <==> && e.Leaves? && Waiters(Run(INIT, es), f) == {e.id}
            && IsPending(Run(INIT, es).core, f) && !Run(INIT, es).core.flights[f].signed
  {
    var s := Run(INIT, es);
    RunKeepsInv(INIT, es);
    if e.Leaves? && s.callers[e.id] == Waiting(f) {
      assert e.id in Waiters(s, f);
      if s.core.flights[f].waiters == 1 { OnlyElement(Waiters(s, f), e.id); }
    }
    if e.Leaves? && Waiters(s, f) == {e.id} {
      assert e.id in Waiters(s, f);
    }
  }

  predicate Bound(s: State, f: FlightId) {
    f in s.core.flights && s.core.flights[f].signed && !s.core.flights[f].aborted
  }

  /** Once the owner's signature arrived in time, nothing aborts the enrollment, and callers join it until it settles. */
  lemma {:induction false} SignedRunsToItsEnd(s: State, es: seq<Event>, f: FlightId)
    requires Inv(s) && IsRun(s, es) && Bound(s, f)
    ensures Bound(Run(s, es), f)
    ensures Run(s, es).core.flights[f].work.Settled? || IsPending(Run(s, es).core, f)
    decreases |es|
  {
    if es != [] {
      StepKeepsInv(s, es[0]);
      SignedRunsToItsEnd(Next(s, es[0]), es[1..], f);
    }
  }

  /** A signed enrollment's next step is its own, whoever waits: one that is not settled always has one enabled. */
  lemma SignedNeedsNobody(es: seq<Event>, f: FlightId, config: Config)
    requires IsRun(INIT, es) && Bound(Run(INIT, es), f) && !Run(INIT, es).core.flights[f].work.Settled?
    ensures var s := Run(INIT, es);
            || Enabled(s, Resumes(f)) || Enabled(s, Answers(f, Some(config)))
            || Enabled(s, Publishes(f)) || Enabled(s, Settles(f))
  {
    RunKeepsInv(INIT, es);
  }

  /** The flight's checked descriptor, from the moment it was received. */
  predicate Has(s: State, f: FlightId, config: Config) {
    f in s.core.flights && (s.core.flights[f].work == Received(config) || Made(s, f, config))
  }

  /** The step at `i` is the flight's publication, and leaves its descriptor the enrolled one. */
  ghost predicate PublishedAt(s: State, es: seq<Event>, i: nat, f: FlightId, config: Config) {
    && i < |es| && es[i] == Publishes(f)
    && IsRun(s, es[..i + 1]) && Run(s, es[..i + 1]).core.enrolled == Some(config)
  }

  lemma PublishedLater(s: State, es: seq<Event>, i: nat, f: FlightId, config: Config)
    requires IsRun(s, es) && es != [] && PublishedAt(Next(s, es[0]), es[1..], i, f, config)
    ensures PublishedAt(s, es, i + 1, f, config)
  {
    assert es[..i + 2][1..] == es[1..][..i + 1];
  }

  lemma PublishedNow(s: State, es: seq<Event>, f: FlightId, config: Config)
    requires IsRun(s, es) && es != [] && es[0] == Publishes(f) && s.core.flights[f].work == Received(config)
    ensures PublishedAt(s, es, 0, f, config)
  {
    assert es[..1] == [es[0]] && es[..1][1..] == [];
    assert Run(s, es[..1]) == Next(s, es[0]);
  }

  /**
   A valid descriptor is kept even if all waiters left: the flight settles only after
   its publication, which leaves that descriptor the enrolled one.
   */
  lemma {:induction false} ReceivedIsKept(s: State, es: seq<Event>, f: FlightId, config: Config)
    requires IsRun(s, es) && f in s.core.flights && s.core.flights[f].work == Received(config)
    ensures Has(Run(s, es), f, config)
    ensures Made(Run(s, es), f, config) <==> exists i :: 0 <= i < |es| && es[i] == Publishes(f)
    ensures Made(Run(s, es), f, config) <==> exists i: nat :: PublishedAt(s, es, i, f, config)
    decreases |es|
  {
    if es != [] {
      var s' := Next(s, es[0]);
      if es[0] == Publishes(f) {
        assert Made(s', f, config);
        MadeIsKept(s', es[1..], f, config);
        PublishedNow(s, es, f, config);
      } else {
        ReceivedIsKept(s', es[1..], f, config);
        if i :| 0 <= i < |es| && es[i] == Publishes(f) { assert es[1..][i - 1] == es[i]; }
        if i: nat :| PublishedAt(s', es[1..], i, f, config) { PublishedLater(s, es, i, f, config); }
      }
    }
  }

  lemma {:induction false} MadeIsKept(s: State, es: seq<Event>, f: FlightId, config: Config)
    requires IsRun(s, es) && Made(s, f, config)
    ensures Made(Run(s, es), f, config)
    decreases |es|
  {
    if es != [] { MadeIsKept(Next(s, es[0]), es[1..], f, config); }
  }

  /** Nothing but a publication, an expiry or a call that finds too little time left changes the kept descriptor. */
  predicate Replaces(e: Event, config: Config) {
    || e.Publishes?
    || e == Expires(config)
    || (e.Enters? && !Current(config, e.now))
  }

  lemma {:induction false} KeptIsServed(s: State, es: seq<Event>, config: Config, e: Event)
    requires s.core.enrolled == Some(config) && IsRun(s, es)
    requires forall i :: 0 <= i < |es| ==> !Replaces(es[i], config)
    requires Enabled(Run(s, es), e) && e.Enters? && Current(config, e.now)
    ensures Run(s, es).core.enrolled == Some(config)
    ensures Next(Run(s, es), e).callers[e.id] == Served(config)
    decreases |es|
  {
    if es != [] {
      assert !Replaces(es[0], config);
      KeptIsServed(Next(s, es[0]), es[1..], config, e);
    }
  }

  /** An enrollment aborted before the owner signed never publishes, even if the signature arrives later. */
  lemma {:induction false} AbortedNeverPublishes(s: State, es: seq<Event>, f: FlightId)
    requires Inv(s) && IsRun(s, es) && f in s.core.flights && s.core.flights[f].aborted
    ensures f in Run(s, es).core.flights && Run(s, es).core.flights[f].aborted
    ensures !Enabled(Run(s, es), Publishes(f)) && forall a :: !Enabled(Run(s, es), Answers(f, a))
    decreases |es|
  {
    if es != [] {
      StepKeepsInv(s, es[0]);
      AbortedNeverPublishes(Next(s, es[0]), es[1..], f);
    }
  }

  /** A descriptor is published only by the pending enrollment, signed and not aborted. */
  lemma OnlyTheSignedPendingPublishes(es: seq<Event>, f: FlightId)
    requires IsRun(INIT, es) && Enabled(Run(INIT, es), Publishes(f))
    ensures IsPending(Run(INIT, es).core, f) && Bound(Run(INIT, es), f)
  {
    RunKeepsInv(INIT, es);
  }

  /** A cached descriptor is returned exactly with more than the renewal margin left, and some enrollment made it. */
  lemma CachedHasItsMargin(es: seq<Event>, id: Id, now: int, unused: FlightId)
    requires IsRun(INIT, es) && Enabled(Run(INIT, es), Enters(id, now, unused))
    ensures var s, s' := Run(INIT, es), Next(Run(INIT, es), Enters(id, now, unused));
            && (s'.callers[id].Served? <==> s.core.enrolled.Some? && Current(s.core.enrolled.value, now))
            && (s'.callers[id].Served? ==>
                  && s.core.enrolled == Some(s'.callers[id].config)
                  && exists f :: Made(s, f, s'.callers[id].config))
            && (!s'.callers[id].Served? ==> s'.callers[id].Waiting? && IsPending(s'.core, s'.callers[id].flight))
  {
    RunKeepsInv(INIT, es);
  }

  lemma WaitersGetTheirOwnEnrollment(es: seq<Event>, id: Id)
    requires IsRun(INIT, es) && id in Run(INIT, es).callers && Run(INIT, es).callers[id].Answered?
    ensures Made(Run(INIT, es), Run(INIT, es).callers[id].flight, Run(INIT, es).callers[id].config)
  {
    RunKeepsInv(INIT, es);
  }
}
