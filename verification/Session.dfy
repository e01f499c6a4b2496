/** The client's verified session: one connection, made once and shared. */
module Session {
  import opened Basics

  // A step is one synchronous section: a call entering, the connector answering, a
  // promise settling, a waiter leaving. Steps of any callers and flights interleave.

  type Id = nat

  type FlightId = nat

  /** A verified connection and the window its release policy is in force. */
  datatype Connection = Connection(identity: nat, validFromMs: int, expiresAtMs: int)

  predicate Holds(c: Connection, now: int) { c.validFromMs <= now <= c.expiresAtMs }

  /** How far a flight's own work is; `None` for a rejection. */
  datatype Work =
    | Queued
    | Connecting
    | Ended(outcome: Option<Connection>)     // its `finally` is still to run
    | Settled(outcome: Option<Connection>)

  /** `reset`: taken out of `pending` by `reset`; a history variable. */
  datatype Flight = Flight(users: nat, aborted: bool, reset: bool, work: Work)

  /** The closure's variables, and every flight ever made. */
  datatype Core = Core(active: Option<Connection>, pending: Option<FlightId>, flights: map<FlightId, Flight>)

  predicate IsPending(c: Core, f: FlightId) { c.pending == Some(f) }

  // The synchronous sections.

  function Serves(c: Core, now: int): bool { c.active.Some? && Holds(c.active.value, now) }

  /** The flight a call that is not served waits on. */
  function Joined(c: Core, unused: FlightId): FlightId {
    if c.pending.Some? then c.pending.value else unused
  }

  function Entered(c: Core, now: int, unused: FlightId): Core
    requires c.pending.Some? ==> c.pending.value in c.flights
  {
    if Serves(c, now) then c
    else if c.pending.Some? then
      var f := c.flights[c.pending.value];
      Core(None, c.pending, c.flights[c.pending.value := f.(users := f.users + 1)])
    else Core(None, Some(unused), c.flights[unused := Flight(1, false, false, Queued)])
  }

  function Started(c: Core, f: FlightId): Core
    requires f in c.flights
  {
    var flight := c.flights[f];
    c.(flights := c.flights[f := flight.(work := if flight.aborted then Ended(None) else Connecting)])
  }

  /** The connector's answer publishes only for a flight that is pending and unaborted now. */
  function Connected(c: Core, f: FlightId, answer: Option<Connection>): Core
    requires f in c.flights
  {
    var flight := c.flights[f];
    var outcome := if flight.aborted then None else answer;
    Core(if outcome.Some? && IsPending(c, f) then outcome else c.active,
         c.pending,
         c.flights[f := flight.(work := Ended(outcome))])
  }

  function AfterSettling(c: Core, f: FlightId): Core
    requires f in c.flights && c.flights[f].work.Ended?
  {
    Core(c.active,
         if IsPending(c, f) then None else c.pending,
         c.flights[f := c.flights[f].(work := Settled(c.flights[f].work.outcome))])
  }

  function AfterLeaving(c: Core, f: FlightId): Core
    requires f in c.flights && c.flights[f].users > 0
  {
    var flight := c.flights[f];
    var last := flight.users == 1 && IsPending(c, f);
    Core(c.active,
         if last then None else c.pending,
         c.flights[f := flight.(users := flight.users - 1, aborted := flight.aborted || last)])
  }

  function Forgotten(c: Core, connection: Connection): Core {
    if c.active == Some(connection) then c.(active := None) else c
  }

  function AfterReset(c: Core): Core {
    Core(None, None,
         if c.pending.Some? && c.pending.value in c.flights
         then c.flights[c.pending.value := c.flights[c.pending.value].(reset := true)] else c.flights)
  }

  /** The session as the client runs it. */
  class Session {
    var active: Option<Connection>
    var pending: Option<FlightId>
    var flights: map<FlightId, Flight>

    ghost function View(): Core
      reads this
    {
      Core(active, pending, flights)
    }

    constructor ()
      ensures View() == Core(None, None, map[])
    {
      active, pending, flights := None, None, map[];
    }

    /** The start of `context`: the connection served, or the flight joined. */
    method Enter(now: int, unused: FlightId) returns (served: Option<Connection>, flight: Option<FlightId>)
      requires pending.Some? ==> pending.value in flights
      requires unused !in flights
      modifies this
      ensures View() == Entered(old(View()), now, unused)
      ensures served == if Serves(old(View()), now) then old(active) else None
      ensures flight == if Serves(old(View()), now) then None else Some(Joined(old(View()), unused))
    {
      if active.Some? && Holds(active.value, now) {
        return active, None;
      }
      active := None;
      if pending.None? {
        flights := flights[unused := Flight(0, false, false, Queued)];
        pending := Some(unused);
      }
      var joined := pending.value;
      flights := flights[joined := flights[joined].(users := flights[joined].users + 1)];
      return None, Some(joined);
    }

    /** The flight's first microtask. */
    method Start(f: FlightId)
      requires f in flights
      modifies this`flights
      ensures View() == Started(old(View()), f)
    {
      var work := if flights[f].aborted then Ended(None) else Connecting;
      flights := flights[f := flights[f].(work := work)];
    }

    /** The rest of the flight's body once the connector answered. */
    method Connect(f: FlightId, answer: Option<Connection>)
      requires f in flights
      modifies this`flights, this`active
      ensures View() == Connected(old(View()), f, answer)
    {
      var outcome := answer;
      if flights[f].aborted {
        outcome := None;
      } else if answer.Some? && pending == Some(f) {
        active := answer;
      }
      flights := flights[f := flights[f].(work := Ended(outcome))];
    }

    /** The flight's `finally`. */
    method Settle(f: FlightId)
      requires f in flights && flights[f].work.Ended?
      modifies this`flights, this`pending
      ensures View() == AfterSettling(old(View()), f)
    {
      if pending == Some(f) {
        pending := None;
      }
      flights := flights[f := flights[f].(work := Settled(flights[f].work.outcome))];
    }

    /** A caller's `finally`. */
    method Leave(f: FlightId)
      requires f in flights && flights[f].users > 0
      modifies this`flights, this`pending
      ensures View() == AfterLeaving(old(View()), f)
    {
      flights := flights[f := flights[f].(users := flights[f].users - 1)];
      if flights[f].users == 0 && pending == Some(f) {
        pending := None;
        flights := flights[f := flights[f].(aborted := true)];
      }
    }

    method Forget(connection: Connection)
      modifies this`active
      ensures View() == Forgotten(old(View()), connection)
    {
      if active == Some(connection) {
        active := None;
      }
    }

    method Reset()
      modifies this
      ensures View() == AfterReset(old(View()))
    {
      if pending.Some? && pending.value in flights {
        flights := flights[pending.value := flights[pending.value].(reset := true)];
      }
      active := None;
      pending := None;
    }
  }

  // The step machine.

  datatype Caller =
    | Waiting(flight: FlightId)
    | Served(connection: Connection)      // from the active connection
    | Answered(flight: FlightId, connection: Connection)
    | Failed

  datatype State = State(core: Core, callers: map<Id, Caller>)

  datatype Event =
    | Enters(id: Id, now: int, unused: FlightId)
    | Starts(flight: FlightId)
    | Connects(flight: FlightId, answer: Option<Connection>)
    | Settles(flight: FlightId)
    | Leaves(id: Id, cancelled: bool)
    | Forgets(connection: Connection)
    | Resets

  predicate Enabled(s: State, e: Event) {
    match e
    case Enters(id, _, unused) =>
      id !in s.callers && unused !in s.core.flights && (s.core.pending.Some? ==> s.core.pending.value in s.core.flights)
    case Starts(f) => f in s.core.flights && s.core.flights[f].work.Queued?
    case Connects(f, _) => f in s.core.flights && s.core.flights[f].work.Connecting?
    case Settles(f) => f in s.core.flights && s.core.flights[f].work.Ended?
    case Leaves(id, cancelled) =>
      && id in s.callers && s.callers[id].Waiting? && s.callers[id].flight in s.core.flights
      && s.core.flights[s.callers[id].flight].users > 0
      && (cancelled || s.core.flights[s.callers[id].flight].work.Settled?)
    case _ => true
  }

  /** What a leaving waiter takes with it; a cancelled one throws even if its flight settled. */
  function Result(f: FlightId, work: Work, cancelled: bool): Caller {
    if !cancelled && work.Settled? && work.outcome.Some? then Answered(f, work.outcome.value) else Failed
  }

  function Next(s: State, e: Event): State
    requires Enabled(s, e)
  {
    match e
    case Enters(id, now, unused) =>
      var caller := if Serves(s.core, now) then Served(s.core.active.value) else Waiting(Joined(s.core, unused));
      State(Entered(s.core, now, unused), s.callers[id := caller])
    case Starts(f) => s.(core := Started(s.core, f))
    case Connects(f, answer) => s.(core := Connected(s.core, f, answer))
    case Settles(f) => s.(core := AfterSettling(s.core, f))
    case Leaves(id, cancelled) =>
      var f := s.callers[id].flight;
      State(AfterLeaving(s.core, f), s.callers[id := Result(f, s.core.flights[f].work, cancelled)])
    case Forgets(connection) => s.(core := Forgotten(s.core, connection))
    case Resets => s.(core := AfterReset(s.core))
  }

  const INIT := State(Core(None, None, map[]), map[])

  ghost predicate IsRun(s: State, es: seq<Event>)
    decreases |es|
  {
    es == [] || (Enabled(s, es[0]) && IsRun(Next(s, es[0]), es[1..]))
  }

  function Run(s: State, es: seq<Event>): State
    requires IsRun(s, es)
    decreases |es|
  {
    if es == [] then s else Run(Next(s, es[0]), es[1..])
  }

  // The invariant.

  function Waiters(s: State, f: FlightId): set<Id> {
    set id | id in s.callers && s.callers[id] == Waiting(f)
  }

  predicate Unsettled(flight: Flight) { !flight.aborted && !flight.reset && !flight.work.Settled? }

  /** A flight is pending exactly until it settles, is reset or is aborted. */
  ghost predicate PendingIsUnsettled(s: State) {
    && (s.core.pending.Some? ==> s.core.pending.value in s.core.flights)
    && forall f :: f in s.core.flights ==> (IsPending(s.core, f) <==> Unsettled(s.core.flights[f]))
  }

  ghost predicate UsersWait(s: State) {
    && (forall f :: f in s.core.flights ==> s.core.flights[f].users == |Waiters(s, f)|)
    && (forall id :: id in s.callers && s.callers[id].Waiting? ==> s.callers[id].flight in s.core.flights)
  }

  ghost predicate AbortedAreAlone(s: State) {
    && (forall f :: f in s.core.flights && s.core.flights[f].aborted ==> s.core.flights[f].users == 0)
    && (forall f :: f in s.core.flights && IsPending(s.core, f) ==> s.core.flights[f].users > 0)
  }

  /** The connection a flight's connector answered, while nothing aborted it. */
  ghost predicate Made(s: State, f: FlightId, c: Connection) {
    && f in s.core.flights
    && (s.core.flights[f].work == Ended(Some(c)) || s.core.flights[f].work == Settled(Some(c)))
  }

  ghost predicate ConnectionsWereMade(s: State) {
    && (s.core.active.Some? ==> exists f :: Made(s, f, s.core.active.value))
    && (forall id :: id in s.callers && s.callers[id].Answered? ==> Made(s, s.callers[id].flight, s.callers[id].connection))
  }

  ghost predicate Inv(s: State) {
    PendingIsUnsettled(s) && UsersWait(s) && AbortedAreAlone(s) && ConnectionsWereMade(s)
  }

  lemma StepKeepsPending(s: State, e: Event)
    requires PendingIsUnsettled(s) && AbortedAreAlone(s) && Enabled(s, e)
    ensures PendingIsUnsettled(Next(s, e)) && AbortedAreAlone(Next(s, e))
  {
  }

  lemma StepKeepsMade(s: State, e: Event, f: FlightId, c: Connection)
    requires Made(s, f, c) && Enabled(s, e)
    ensures Made(Next(s, e), f, c)
  {
  }

  lemma StepKeepsConnections(s: State, e: Event)
    requires ConnectionsWereMade(s) && Enabled(s, e)
    ensures ConnectionsWereMade(Next(s, e))
  {
    var s' := Next(s, e);
    forall f, c | Made(s, f, c) ensures Made(s', f, c) { StepKeepsMade(s, e, f, c); }
    if e.Connects? && s'.core.active != s.core.active {
      assert Made(s', e.flight, s'.core.active.value);
    } else if s'.core.active.Some? {
      var f :| Made(s, f, s.core.active.value);
      assert Made(s', f, s'.core.active.value);
    }
  }

  predicate JoinsAt(s: State, e: Event, f: FlightId)
    requires Enabled(s, e)
  {
    e.Enters? && !Serves(s.core, e.now) && Joined(s.core, e.unused) == f
  }

  predicate LeavesFrom(s: State, e: Event, f: FlightId)
    requires Enabled(s, e)
  {
    e.Leaves? && s.callers[e.id].flight == f
  }

  /** The waiters of `f` change only by the caller that joins or leaves it, */
  lemma StepMovesWaiters(s: State, e: Event, f: FlightId)
    requires Enabled(s, e)
    ensures Waiters(Next(s, e), f) ==
      if JoinsAt(s, e, f) then Waiters(s, f) + {e.id}
      else if LeavesFrom(s, e, f) then Waiters(s, f) - {e.id}
      else Waiters(s, f)
    ensures JoinsAt(s, e, f) ==> e.id !in Waiters(s, f)
    ensures LeavesFrom(s, e, f) ==> e.id in Waiters(s, f)
  {
  }

  function UsersOf(c: Core, f: FlightId): nat { if f in c.flights then c.flights[f].users else 0 }

  /** and so do its users. */
  lemma StepMovesUsers(s: State, e: Event, f: FlightId)
    requires Enabled(s, e)
    ensures UsersOf(Next(s, e).core, f) ==
      UsersOf(s.core, f) + (if JoinsAt(s, e, f) then 1 else 0) - (if LeavesFrom(s, e, f) then 1 else 0)
  {
  }

  lemma UnmadeHasNoWaiters(s: State, f: FlightId)
    requires UsersWait(s)
    ensures UsersOf(s.core, f) == |Waiters(s, f)|
  {
    if f !in s.core.flights { assert Waiters(s, f) == {}; }
  }

  lemma StepKeepsUsers(s: State, e: Event)
    requires UsersWait(s) && Enabled(s, e)
    ensures UsersWait(Next(s, e))
  {
    forall f | f in Next(s, e).core.flights
      ensures Next(s, e).core.flights[f].users == |Waiters(Next(s, e), f)|
    {
      StepMovesUsers(s, e, f);
      StepMovesWaiters(s, e, f);
      UnmadeHasNoWaiters(s, f);
    }
  }

  lemma StepKeepsInv(s: State, e: Event)
    requires Inv(s) && Enabled(s, e)
    ensures Inv(Next(s, e))
  {
    StepKeepsPending(s, e);
    StepKeepsConnections(s, e);
    StepKeepsUsers(s, e);
  }

  lemma {:induction false} RunKeepsInv(s: State, es: seq<Event>)
    requires Inv(s) && IsRun(s, es)
    ensures Inv(Run(s, es))
    decreases |es|
  {
    if es != [] {
      StepKeepsInv(s, es[0]);
      RunKeepsInv(Next(s, es[0]), es[1..]);
    }
  }

  // What every interleaving keeps.

  /** `users` is the number of callers waiting, and a flight somebody waits on is not aborted. */
  lemma UsersAreTheWaiters(es: seq<Event>, f: FlightId)
    requires IsRun(INIT, es) && f in Run(INIT, es).core.flights
    ensures Run(INIT, es).core.flights[f].users == |Waiters(Run(INIT, es), f)|
    ensures Waiters(Run(INIT, es), f) != {} ==> !Run(INIT, es).core.flights[f].aborted
  {
    RunKeepsInv(INIT, es);
  }

  /** A connection becomes active only as the answer to the flight pending and unaborted at that step. */
  lemma OnlyThePendingFlightBecomesActive(es: seq<Event>, e: Event)
    requires IsRun(INIT, es) && Enabled(Run(INIT, es), e)
    requires Next(Run(INIT, es), e).core.active.Some?
    requires Next(Run(INIT, es), e).core.active != Run(INIT, es).core.active
    ensures e.Connects? && e.answer == Next(Run(INIT, es), e).core.active
    ensures IsPending(Run(INIT, es).core, e.flight) && Unsettled(Run(INIT, es).core.flights[e.flight])
  {
    RunKeepsInv(INIT, es);
  }

  /** And the answer to that flight always becomes active. */
  lemma ThePendingFlightBecomesActive(es: seq<Event>, f: FlightId, c: Connection)
    requires IsRun(INIT, es) && Enabled(Run(INIT, es), Connects(f, Some(c)))
    ensures IsPending(Run(INIT, es).core, f) ==> Next(Run(INIT, es), Connects(f, Some(c))).core.active == Some(c)
  {
    RunKeepsInv(INIT, es);
  }

  /** A flight is aborted exactly by its last waiter leaving while it is pending. */
  lemma AbortedExactlyByTheLastWaiter(es: seq<Event>, e: Event, f: FlightId)
    requires IsRun(INIT, es) && Enabled(Run(INIT, es), e)
    requires f in Run(INIT, es).core.flights && !Run(INIT, es).core.flights[f].aborted
    ensures Next(Run(INIT, es), e).core.flights[f].aborted
       <==> e.Leaves? && Waiters(Run(INIT, es), f) == {e.id} && IsPending(Run(INIT, es).core, f)
  {
    var s := Run(INIT, es);
    RunKeepsInv(INIT, es);
    if e.Leaves? && s.callers[e.id] == Waiting(f) {
      assert e.id in Waiters(s, f);
      if s.core.flights[f].users == 1 { OnlyElement(Waiters(s, f), e.id); }
    }
    if e.Leaves? && Waiters(s, f) == {e.id} {
      assert e.id in Waiters(s, f);
    }
  }

  // A flight out of `pending` stays out.

  /** Reset, abandoned or settled: `f` was made and is not pending. */
  predicate Retired(s: State, f: FlightId) { f in s.core.flights && !IsPending(s.core, f) }

  lemma RetiredStays(s: State, e: Event, f: FlightId)
    requires Retired(s, f) && Enabled(s, e)
    ensures Retired(Next(s, e), f)
    ensures e.Connects? && e.flight == f ==> Next(s, e).core.active == s.core.active
  {
  }

  /** A reset or abandoned flight never becomes active later: whatever its connector answers changes nothing. */
  lemma {:induction false} RetiredFlightsNeverBecomeActive(s: State, es: seq<Event>, f: FlightId, e: Event)
    requires Retired(s, f) && IsRun(s, es) && Enabled(Run(s, es), e)
    ensures Retired(Run(s, es), f)
    ensures e.Connects? && e.flight == f ==> Next(Run(s, es), e).core.active == Run(s, es).core.active
    decreases |es|
  {
    if es == [] {
      RetiredStays(s, e, f);
    } else {
      RetiredStays(s, es[0], f);
      RetiredFlightsNeverBecomeActive(Next(s, es[0]), es[1..], f, e);
    }
  }

  /** Resetting, and the last waiter leaving, retire the pending flight. */
  lemma ResetAndAbandonmentRetire(es: seq<Event>, f: FlightId, e: Event)
    requires IsRun(INIT, es) && Enabled(Run(INIT, es), e) && IsPending(Run(INIT, es).core, f)
    requires e.Resets? || (e.Leaves? && Waiters(Run(INIT, es), f) == {e.id})
    ensures Retired(Next(Run(INIT, es), e), f)
  {
    RunKeepsInv(INIT, es);
    if e.Leaves? { assert e.id in Waiters(Run(INIT, es), f); }
  }

  // What callers get.

  /** A caller served at once gets the active connection while it holds; one that waited gets its own flight's. */
  lemma CallersGetVerifiedConnections(es: seq<Event>, id: Id, now: int, unused: FlightId)
    requires IsRun(INIT, es) && Enabled(Run(INIT, es), Enters(id, now, unused))
    ensures var s, s' := Run(INIT, es), Next(Run(INIT, es), Enters(id, now, unused));
            && (s'.callers[id].Served? <==> s.core.active.Some? && Holds(s.core.active.value, now))
            && (s'.callers[id].Served? ==>
                  && s.core.active == Some(s'.callers[id].connection)
                  && exists f :: Made(s, f, s'.callers[id].connection))
            && (!s'.callers[id].Served? ==>
                  && s'.callers[id].Waiting? && IsPending(s'.core, s'.callers[id].flight)
                  && (s.core.pending.Some? ==> s.core.pending == Some(s'.callers[id].flight)))
  {
    RunKeepsInv(INIT, es);
  }

  lemma WaitersGetTheirOwnFlights(es: seq<Event>, id: Id)
    requires IsRun(INIT, es) && id in Run(INIT, es).callers && Run(INIT, es).callers[id].Answered?
    ensures Made(Run(INIT, es), Run(INIT, es).callers[id].flight, Run(INIT, es).callers[id].connection)
  {
    RunKeepsInv(INIT, es);
  }
}
