/** `signingAlone`: a client's `signWithApiKey` calls run one by one. */
module SigningAlone {
  import opened Basics

  // Each call sets the stamper's key for itself and puts back the key it found. A call
  // is chained on the one made just before it and on nothing else; that no two calls
  // overlap follows from the chain.

  type PublicKey = nat

  datatype Call =
    | Queued(key: PublicKey)
    | Running(key: PublicKey, found: PublicKey)
    | Over

  /**
   `base`: the key the application last set between calls; `during`: the key it last
   set while the call that runs now did. Both are history variables.
   */
  datatype State = State(calls: seq<Call>, stamper: PublicKey, base: PublicKey, during: Option<PublicKey>)

  datatype Event =
    | Calls(key: PublicKey)
    | Begins(call: nat)
    | Ends(call: nat)                 // with a signature or an error
    | Chooses(key: PublicKey)         // the application sets its own key, at any time

  predicate AllOver(calls: seq<Call>) { forall i :: 0 <= i < |calls| ==> calls[i].Over? }

  predicate NoneRuns(calls: seq<Call>) { forall i :: 0 <= i < |calls| ==> !calls[i].Running? }

  // What one call does to the stamper.

  function Begun(s: State, i: nat): State
    requires i < |s.calls| && s.calls[i].Queued?
  {
    s.(calls := s.calls[i := Running(s.calls[i].key, s.stamper)], stamper := s.calls[i].key, during := None)
  }

  function Finished(s: State, i: nat): State
    requires i < |s.calls| && s.calls[i].Running?
  {
    s.(calls := s.calls[i := Over], stamper := s.calls[i].found, during := None)
  }

  /** The application's own write, which no call guards against. */
  function Chosen(s: State, key: PublicKey): State {
    if NoneRuns(s.calls) then s.(stamper := key, base := key) else s.(stamper := key, during := Some(key))
  }

  /** A call begins once the tail it was chained on has settled: the call before it is over. */
  predicate Enabled(s: State, e: Event) {
    match e
    case Calls(_) => true
    case Begins(i) => i < |s.calls| && s.calls[i].Queued? && (i == 0 || s.calls[i - 1].Over?)
    case Ends(i) => i < |s.calls| && s.calls[i].Running?
    case Chooses(_) => true
  }

  function Next(s: State, e: Event): State
    requires Enabled(s, e)
  {
    match e
    case Calls(key) => s.(calls := s.calls + [Queued(key)])
    case Begins(i) => Begun(s, i)
    case Ends(i) => Finished(s, i)
    case Chooses(key) => Chosen(s, key)
  }

  function Start(key: PublicKey): State { State([], key, key, None) }

  ghost predicate IsRun(s: State, es: seq<Event>)
    decreases |es|
  {
    es == [] || (Enabled(s, es[0]) && IsRun(Next(s, es[0]), es[1..]))
  }

  function Run(s: State, es: seq<Event>): State
    requires IsRun(s, es)
    decreases |es|
  {
    if es == [] then s else Run(Next(s, es[0]), es[1..])
  }

  /** Calls end in the order they were made: before one that began, all are over. */
  ghost predicate InOrder(calls: seq<Call>) {
    forall i, j :: 0 <= i < j < |calls| && !calls[j].Queued? ==> calls[i].Over?
  }

  /** The running call found the application's key; nobody but the application wrote over its own. */
  ghost predicate KeyIsBack(s: State) {
    && (forall i :: 0 <= i < |s.calls| && s.calls[i].Running? ==>
          && s.calls[i].found == s.base
          && s.stamper == if s.during.Some? then s.during.value else s.calls[i].key)
    && (NoneRuns(s.calls) ==> s.stamper == s.base && s.during.None?)
  }

  ghost predicate Inv(s: State) { InOrder(s.calls) && KeyIsBack(s) }

  /** The one link of the chain serializes everything before it. */
  lemma ChainReachesBack(calls: seq<Call>, i: nat)
    requires InOrder(calls) && i < |calls| && (i == 0 || calls[i - 1].Over?)
    ensures AllOver(calls[..i])
  {
    forall j | 0 <= j < i ensures calls[j].Over? { if j < i - 1 { assert !calls[i - 1].Queued?; } }
  }

  lemma BeginKeepsInv(s: State, i: nat)
    requires Inv(s) && Enabled(s, Begins(i))
    ensures Inv(Next(s, Begins(i))) && NoneRuns(s.calls)
  {
    ChainReachesBack(s.calls, i);
    forall j | 0 <= j < |s.calls| ensures !s.calls[j].Running? {
      if j < i { assert s.calls[..i][j].Over?; }
    }
    var s' := Next(s, Begins(i));
    assert s'.calls[i].Running?;
    forall a, b | 0 <= a < b < |s'.calls| && !s'.calls[b].Queued? ensures s'.calls[a].Over? {
      if b == i { assert s.calls[..i][a].Over?; }
    }
  }

  lemma StepKeepsInv(s: State, e: Event)
    requires Inv(s) && Enabled(s, e)
    ensures Inv(Next(s, e))
  {
    var s' := Next(s, e);
    match e
    case Calls(_) =>
      if NoneRuns(s'.calls) { assert forall i :: 0 <= i < |s.calls| ==> s'.calls[i] == s.calls[i]; }
    case Begins(i) => BeginKeepsInv(s, i);
    case Ends(_) =>
    case Chooses(_) =>
  }

  lemma {:induction false} RunKeepsInv(s: State, es: seq<Event>)
    requires Inv(s) && IsRun(s, es)
    ensures Inv(Run(s, es))
    decreases |es|
  {
    if es != [] {
      StepKeepsInv(s, es[0]);
      RunKeepsInv(Next(s, es[0]), es[1..]);
    }
  }

  /**
   In every run at most one call is running, everything made before it is over, and it
   found the application's key. It has its own key in the stamper exactly if the
   application set no other since it began; between calls the application's is back.
   */
  lemma CallsNeverOverlap(key: PublicKey, es: seq<Event>, i: nat, j: nat)
    requires IsRun(Start(key), es)
    requires i < |Run(Start(key), es).calls| && Run(Start(key), es).calls[i].Running?
    ensures var s := Run(Start(key), es);
            && AllOver(s.calls[..i]) && s.calls[i].found == s.base
            && (j < |s.calls| && s.calls[j].Running? ==> i == j)
            && (s.stamper == s.calls[i].key <==> s.during.None? || s.during == Some(s.calls[i].key))
  {
    RunKeepsInv(Start(key), es);
    var s := Run(Start(key), es);
    forall m | 0 <= m < i ensures s.calls[m].Over? { assert !s.calls[i].Queued?; }
  }

  /** Calls begin in the order they were made: one that began has every earlier one over. */
  lemma CallsEndInOrder(key: PublicKey, es: seq<Event>, i: nat, j: nat)
    requires IsRun(Start(key), es) && i < j < |Run(Start(key), es).calls|
    requires !Run(Start(key), es).calls[j].Queued?
    ensures Run(Start(key), es).calls[i].Over?
  {
    RunKeepsInv(Start(key), es);
  }

  lemma BaseIsBackBetweenCalls(key: PublicKey, es: seq<Event>)
    requires IsRun(Start(key), es) && NoneRuns(Run(Start(key), es).calls)
    ensures Run(Start(key), es).stamper == Run(Start(key), es).base
  {
    RunKeepsInv(Start(key), es);
  }

  // A key the application sets while a call runs.

  lemma {:induction false} BaseStays(s: State, es: seq<Event>)
    requires Inv(s) && IsRun(s, es) && forall i :: 0 <= i < |es| ==> !es[i].Chooses?
    ensures Run(s, es).base == s.base
    decreases |es|
  {
    if es != [] {
      StepKeepsInv(s, es[0]);
      BaseStays(Next(s, es[0]), es[1..]);
    }
  }

  /**
   The key the application sets last is in the stamper once no call runs if and only
   if it set it between calls, or set the very key the running call was to put back.
   */
  lemma ChosenKeyStaysExactly(key: PublicKey, before: seq<Event>, chosen: PublicKey, after: seq<Event>)
    requires IsRun(Start(key), before)
    requires IsRun(Next(Run(Start(key), before), Chooses(chosen)), after)
    requires forall i :: 0 <= i < |after| ==> !after[i].Chooses?
    requires NoneRuns(Run(Next(Run(Start(key), before), Chooses(chosen)), after).calls)
    ensures var s := Run(Start(key), before);
            Run(Next(s, Chooses(chosen)), after).stamper == chosen <==> NoneRuns(s.calls) || chosen == s.base
  {
    var s := Run(Start(key), before);
    RunKeepsInv(Start(key), before);
    StepKeepsInv(s, Chooses(chosen));
    RunKeepsInv(Next(s, Chooses(chosen)), after);
    BaseStays(Next(s, Chooses(chosen)), after);
  }

  /** Two overlapping calls would leave the stamper on the first call's key. */
  lemma OverlappingCallsPinTheKey(app: PublicKey, a: PublicKey, b: PublicKey)
    ensures var s := State([Queued(a), Queued(b)], app, app, None);
            var s' := Finished(Finished(Begun(Begun(s, 0), 1), 0), 1);
            AllOver(s'.calls) && s'.stamper == a
  {
  }
}
