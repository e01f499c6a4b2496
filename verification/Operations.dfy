/** The `/operations` handler as a step machine over any number of requests. */
module Operations {
  import opened Basics
  import opened Ledger

  // Requests claim, check ownership and issue a grant, call the enclave and record,
  // interleaved in any way and dropped at any await. A step is one atomic effect: a
  // ledger command landing, the enclave call going out, its answer coming in. A
  // request whose command is still on its way stays in its phase, so a command that
  // lands after its caller stopped waiting is the same run.

  type Id = nat

  datatype Reply =
    | Fresh(outcome: Outcome)
    | Replayed(outcome: Outcome)
    | Refusal(error: ApiError)

  datatype Phase =
    | Holding(key: Key)                      // claimed; ownership check and grant pending
    | Releasing(key: Key, error: ApiError)   // refused; its release is on its way
    | Calling(key: Key)                      // the enclave has the request
    | Settling(key: Key, outcome: Outcome)   // the enclave answered; its record is on its way
    | Replied(reply: Reply)
    | Dropped
  {
    /** The request holds its key's claim. */
    predicate Holds(k: Key) {
      (Holding? || Releasing? || Calling? || Settling?) && key == k
    }
  }

  /** `executed`: keys whose current entry's request went to the enclave; a history variable. */
  datatype State = State(ledger: View, requests: map<Id, Phase>, executed: set<Key>)

  datatype Event =
    | Misses(id: Id, key: Key)               // the claim never reached the ledger
    | Claims(id: Id, key: Key, heard: bool)
    | Refuses(id: Id, key: Key, error: ApiError)
    | Releases(id: Id, key: Key, landed: bool)
    | Sends(id: Id, key: Key)
    | Answers(id: Id, key: Key, outcome: Outcome)
    | Settles(id: Id, key: Key, outcome: Outcome, landed: bool)
    | Drops(id: Id)
    | Forgets(keys: set<Key>)

  predicate In(s: State, id: Id, phase: Phase) { id in s.requests && s.requests[id] == phase }

  predicate Enabled(s: State, e: Event) {
    match e
    case Misses(id, _) => id !in s.requests
    case Claims(id, _, _) => id !in s.requests
    case Refuses(id, k, _) => In(s, id, Holding(k))
    case Releases(id, k, _) => id in s.requests && s.requests[id].Releasing? && s.requests[id].key == k
    case Sends(id, k) => In(s, id, Holding(k))
    case Answers(id, k, _) => In(s, id, Calling(k))
    case Settles(id, k, outcome, _) => In(s, id, Settling(k, outcome))
    case Drops(id) => id in s.requests && !s.requests[id].Replied?
    case Forgets(_) => true
  }

  function ReplyTo(claim: Claim): Reply {
    match claim
    case New => Refusal(ReplayGuardUnavailable)
    case Replay(outcome) => Replayed(outcome)
    case Refused(error) => Refusal(error)
  }

  /** A claimer that hears `New` holds the key; one that hears nothing is refused. */
  function AfterClaim(k: Key, claim: Claim, heard: bool): Phase {
    if !heard then Replied(Refusal(ReplayGuardUnavailable))
    else if claim.New? then Holding(k)
    else Replied(ReplyTo(claim))
  }

  function Next(s: State, e: Event): State
    requires Enabled(s, e)
  {
    match e
    case Misses(id, _) => s.(requests := s.requests[id := Replied(Refusal(ReplayGuardUnavailable))])
    case Claims(id, k, heard) =>
      var (ledger, claim) := ClaimEntry(s.ledger, k);
      s.(ledger := ledger, requests := s.requests[id := AfterClaim(k, claim, heard)])
    case Refuses(id, k, error) => s.(requests := s.requests[id := Releasing(k, error)])
    case Releases(id, k, landed) =>
      var ledger := if landed then ReleaseEntry(s.ledger, k) else s.ledger;
      State(ledger, s.requests[id := Replied(Refusal(s.requests[id].error))], s.executed * ledger.Keys)
    case Sends(id, k) => s.(requests := s.requests[id := Calling(k)], executed := s.executed + {k})
    case Answers(id, k, outcome) => s.(requests := s.requests[id := Settling(k, outcome)])
    case Settles(id, k, outcome, landed) =>
      var ledger := if landed then Settle(s.ledger, k, outcome) else s.ledger;
      State(ledger, s.requests[id := Replied(Fresh(outcome))], s.executed * ledger.Keys)
    case Drops(id) => s.(requests := s.requests[id := Dropped])
    case Forgets(keys) => s.(ledger := s.ledger - keys, executed := s.executed - keys)
  }

  /** The assumption: nothing is forgotten while its holder still runs. */
  predicate Safe(s: State, e: Event) {
    e.Forgets? ==> forall id, k :: id in s.requests && k in e.keys ==> !s.requests[id].Holds(k)
  }

  const INIT := State(map[], map[], {})

  ghost predicate IsRun(s: State, es: seq<Event>)
    decreases |es|
  {
    es == [] || (Enabled(s, es[0]) && Safe(s, es[0]) && IsRun(Next(s, es[0]), es[1..]))
  }

  function Run(s: State, es: seq<Event>): State
    requires IsRun(s, es)
    decreases |es|
  {
    if es == [] then s else Run(Next(s, es[0]), es[1..])
  }

  // The invariant.

  /** A holder's entry is there and running, and it went to the enclave exactly when its holder did. */
  ghost predicate HoldersRun(s: State) {
    forall id, k :: id in s.requests && s.requests[id].Holds(k) ==>
      && k in s.ledger && s.ledger[k].Running?
      && (s.requests[id].Holding? || s.requests[id].Releasing? ==> k !in s.executed)
  }

  /** At most one holder per key. */
  ghost predicate OneHolder(s: State) {
    forall a, b, k :: a in s.requests && b in s.requests && s.requests[a].Holds(k) && s.requests[b].Holds(k) ==> a == b
  }

  ghost predicate Inv(s: State) {
    HoldersRun(s) && OneHolder(s) && s.executed <= s.ledger.Keys
  }

  lemma StepKeepsInv(s: State, e: Event)
    requires Inv(s) && Enabled(s, e) && Safe(s, e)
    ensures Inv(Next(s, e))
  {
    var s' := Next(s, e);
    match e
    case Claims(id, k, heard) =>
      ClaimKeepsInv(s, id, k, heard);
    case Settles(id, k, outcome, landed) => SettleKeepsInv(s, id, k, outcome, landed);
    case Releases(id, k, landed) => ReleaseKeepsInv(s, id, k, landed);
    case _ =>
  }

  lemma ClaimKeepsInv(s: State, id: Id, k: Key, heard: bool)
    requires Inv(s) && id !in s.requests
    ensures Inv(Next(s, Claims(id, k, heard)))
  {
  }

  lemma SettleKeepsInv(s: State, id: Id, k: Key, outcome: Outcome, landed: bool)
    requires Inv(s) && In(s, id, Settling(k, outcome))
    ensures Inv(Next(s, Settles(id, k, outcome, landed)))
  {
    assert s.requests[id].Holds(k);
  }

  lemma ReleaseKeepsInv(s: State, id: Id, k: Key, landed: bool)
    requires Inv(s) && Enabled(s, Releases(id, k, landed))
    ensures Inv(Next(s, Releases(id, k, landed)))
  {
    assert s.requests[id].Holds(k);
  }

  lemma {:induction false} RunKeepsInv(s: State, es: seq<Event>)
    requires Inv(s) && IsRun(s, es)
    ensures Inv(Run(s, es))
    decreases |es|
  {
    if es != [] {
      StepKeepsInv(s, es[0]);
      RunKeepsInv(Next(s, es[0]), es[1..]);
    }
  }

  /** In every interleaving, a project's ciphertext has at most one holder at a time. */
  lemma AtMostOneHolder(es: seq<Event>, a: Id, b: Id, k: Key)
    requires IsRun(INIT, es)
    requires a in Run(INIT, es).requests && b in Run(INIT, es).requests
    requires Run(INIT, es).requests[a].Holds(k) && Run(INIT, es).requests[b].Holds(k)
    ensures a == b
  {
    RunKeepsInv(INIT, es);
  }

  // Forgetting is the one step the code leaves to its configuration.

  /** No safe run from here ever has two holders of one key. */
  ghost predicate NeverTwoHolders(s: State) {
    forall es :: IsRun(s, es) ==> OneHolder(Run(s, es))
  }

  lemma SafeRunsKeepOneHolder(s: State)
    requires Inv(s)
    ensures NeverTwoHolders(s)
  {
    forall es | IsRun(s, es) ensures OneHolder(Run(s, es)) { RunKeepsInv(s, es); }
  }

  lemma {:induction false} FreshId(ids: set<Id>) returns (id: Id)
    ensures forall i :: i in ids ==> i < id
  {
    if ids == {} {
      id := 0;
    } else {
      var i :| i in ids;
      var rest := FreshId(ids - {i});
      id := if rest > i then rest else i + 1;
      assert forall j :: j in ids ==> j == i || j in ids - {i};
    }
  }

  lemma ForgottenHolderIsJoined(s: State, keys: set<Key>, id: Id, k: Key, b: Id)
    requires id in s.requests && s.requests[id].Holds(k) && k in keys && b !in s.requests
    ensures var s1 := Next(s, Forgets(keys));
            && IsRun(s1, [Claims(b, k, true)])
            && Run(s1, [Claims(b, k, true)]) == Next(s1, Claims(b, k, true))
            && !OneHolder(Next(s1, Claims(b, k, true)))
  {
    var s1 := Next(s, Forgets(keys));
    var e := Claims(b, k, true);
    var es := [e];
    assert es[1..] == [];
    var s2 := Next(s1, e);
    assert s2.requests[id].Holds(k) && s2.requests[b].Holds(k) && id != b;
  }

  /**
   Two requests can come to hold one key after a forgetting if and only if it takes a
   running holder's entry, in any phase: then one claim is enough.
   */
  lemma ForgettingIsSafeExactly(s: State, keys: set<Key>)
    requires Inv(s)
    ensures Safe(s, Forgets(keys)) <==> NeverTwoHolders(Next(s, Forgets(keys)))
  {
    var s1 := Next(s, Forgets(keys));
    if Safe(s, Forgets(keys)) {
      StepKeepsInv(s, Forgets(keys));
      SafeRunsKeepOneHolder(s1);
    } else {
      var id, k :| id in s.requests && k in keys && s.requests[id].Holds(k);
      var b := FreshId(s.requests.Keys);
      ForgottenHolderIsJoined(s, keys, id, k, b);
      assert !OneHolder(Run(s1, [Claims(b, k, true)]));
    }
  }

  /**
   Records and releases name the key alone, so once a running holder's entry is
   forgotten the next claim makes a second holder: unless the first is giving up, the
   enclave gets both; if it is, its release frees the key under the second.
   */
  lemma ForgottenHolderRunsTwice(s: State, a: Id, b: Id, c: Id, k: Key)
    requires a in s.requests && s.requests[a].Holds(k) && b !in s.requests && c !in s.requests && b != c
    ensures var s2 := Next(Next(s, Forgets({k})), Claims(b, k, true));
            && s2.requests[a].Holds(k) && In(s2, b, Holding(k)) && Enabled(s2, Sends(b, k))
            && (s.requests[a].Holding? ==> Enabled(Next(s2, Sends(b, k)), Sends(a, k)))
            && (s.requests[a].Releasing? ==>
                  var s4 := Next(Next(s2, Releases(a, k, true)), Claims(c, k, true));
                  In(s4, b, Holding(k)) && In(s4, c, Holding(k)) && Enabled(Next(s4, Sends(b, k)), Sends(c, k)))
  {
  }

  // Over whole runs.

  lemma {:induction false} SplitRun(s: State, es: seq<Event>, n: nat)
    requires IsRun(s, es) && n <= |es|
    ensures IsRun(s, es[..n]) && IsRun(Run(s, es[..n]), es[n..])
    ensures Run(s, es) == Run(Run(s, es[..n]), es[n..])
    decreases n
  {
    if n == 0 {
      assert es[..0] == [] && es[0..] == es;
    } else {
      SplitRun(Next(s, es[0]), es[1..], n - 1);
      assert es[..n][1..] == es[1..][..n - 1] && es[1..][n - 1..] == es[n..];
    }
  }

  /** The entry of `k` goes away after its request went to the enclave: forgotten, or too large to keep. */
  predicate Ends(e: Event, k: Key) {
    || (e.Forgets? && k in e.keys)
    || (e.Settles? && e.key == k && e.landed && !Keeps(e.outcome))
  }

  lemma ExecutedStays(s: State, e: Event, k: Key)
    requires Inv(s) && Enabled(s, e) && Safe(s, e)
    requires k in s.executed && !Ends(e, k)
    ensures k in Next(s, e).executed && !(e.Sends? && e.key == k)
  {
    if e.Sends? || e.Releases? || e.Settles? { assert s.requests[e.id].Holds(e.key); }
  }

  lemma {:induction false} NoSecondSend(s: State, es: seq<Event>, k: Key, n: nat)
    requires Inv(s) && IsRun(s, es) && k in s.executed && n < |es|
    requires forall i :: 0 <= i < n ==> !Ends(es[i], k)
    ensures !(es[n].Sends? && es[n].key == k)
    decreases |es|
  {
    if es[0].Sends? { assert s.requests[es[0].id].Holds(es[0].key); }
    if n > 0 {
      ExecutedStays(s, es[0], k);
      StepKeepsInv(s, es[0]);
      NoSecondSend(Next(s, es[0]), es[1..], k, n - 1);
    }
  }

  /** After a request went to the enclave, no other does until the entry ends. */
  lemma NoSendAfterSend(s: State, es: seq<Event>, k: Key, n: nat)
    requires Inv(s) && IsRun(s, es) && 0 < n < |es| && es[0].Sends? && es[0].key == k
    requires forall i :: 0 < i < n ==> !Ends(es[i], k)
    ensures !(es[n].Sends? && es[n].key == k)
  {
    StepKeepsInv(s, es[0]);
    var s', rest := Next(s, es[0]), es[1..];
    forall i | 0 <= i < n - 1 ensures !Ends(rest[i], k) { assert rest[i] == es[i + 1]; }
    NoSecondSend(s', rest, k, n - 1);
  }

  lemma NoSendFrom(s: State, es: seq<Event>, i: nat, j: nat, k: Key)
    requires i < j < |es| && Inv(s) && IsRun(s, es[i..]) && es[i].Sends? && es[i].key == k
    requires forall m :: i < m < j ==> !Ends(es[m], k)
    ensures !(es[j].Sends? && es[j].key == k)
  {
    var rest := es[i..];
    assert rest[0] == es[i] && rest[j - i] == es[j];
    forall m | 0 < m < j - i ensures !Ends(rest[m], k) { assert rest[m] == es[i + m]; }
    NoSendAfterSend(s, rest, k, j - i);
  }

  /** Between two enclave calls for one key, its entry was forgotten or its answer was too large to keep. */
  lemma EnclaveRunsOncePerEntry(es: seq<Event>, i: nat, j: nat, k: Key)
    requires IsRun(INIT, es) && i < j < |es|
    requires es[i].Sends? && es[i].key == k && es[j].Sends? && es[j].key == k
    ensures exists m :: i < m < j && Ends(es[m], k)
  {
    if forall m :: i < m < j ==> !Ends(es[m], k) {
      SplitRun(INIT, es, i);
      RunKeepsInv(INIT, es[..i]);
      NoSendFrom(Run(INIT, es[..i]), es, i, j, k);
    }
  }

  // Who ends an entry.

  /** The entry of `k` is the claim of `id`, or of nobody who is still there. */
  ghost predicate ClaimedBy(s: State, k: Key, id: Id) {
    && k in s.ledger && id in s.requests
    && forall b :: b in s.requests && s.requests[b].Holds(k) ==> b == id
  }

  /** The entry of `k` goes away: forgotten, released, or too large to keep. */
  predicate Removes(e: Event, k: Key) {
    Ends(e, k) || (e.Releases? && e.key == k && e.landed)
  }

  lemma ClaimStays(s: State, e: Event, k: Key, id: Id)
    requires ClaimedBy(s, k, id) && Enabled(s, e)
    ensures Removes(e, k) ==> e.Forgets? || e.id == id
    ensures !Removes(e, k) ==> ClaimedBy(Next(s, e), k, id)
  {
    if e.Releases? || e.Settles? || e.Sends? || e.Answers? || e.Refuses? { assert s.requests[e.id].Holds(e.key); }
  }

  /** Until the entry of `k` is removed, every claim of `k` finds it; only its claimant removes it, or a forgetting. */
  lemma {:induction false} ClaimedOverRun(s: State, es: seq<Event>, k: Key, id: Id) returns (m: nat)
    requires ClaimedBy(s, k, id) && IsRun(s, es) && k !in Run(s, es).ledger
    ensures m < |es| && Removes(es[m], k) && (es[m].Forgets? || es[m].id == id)
    decreases |es|
  {
    ClaimStays(s, es[0], k, id);
    if Removes(es[0], k) {
      m := 0;
    } else {
      var n := ClaimedOverRun(Next(s, es[0]), es[1..], k, id);
      m := n + 1;
    }
  }

  lemma NewClaimIsClaimed(s: State, e: Event, k: Key)
    requires Inv(s) && Enabled(s, e) && e.Claims? && e.key == k && k !in s.ledger
    ensures ClaimedBy(Next(s, e), k, e.id)
  {
  }

  /**
   `Claim::New` goes to one request per entry: between two claims that find no entry of
   `k`, the first claimant's own release or unkept answer, or a forgetting, ended it.
   */
  lemma NewOncePerEntry(es: seq<Event>, i: nat, j: nat, k: Key)
    requires IsRun(INIT, es) && i < j < |es| && IsRun(INIT, es[..i]) && IsRun(INIT, es[..j])
    requires es[i].Claims? && es[i].key == k && k !in Run(INIT, es[..i]).ledger
    requires es[j].Claims? && es[j].key == k && k !in Run(INIT, es[..j]).ledger
    ensures exists m :: i < m < j && Removes(es[m], k) && (es[m].Forgets? || es[m].id == es[i].id)
  {
    var upTo := es[..j];
    SplitRun(INIT, upTo, i);
    assert upTo[..i] == es[..i] && upTo[i..][0] == es[i];
    var s := Run(INIT, es[..i]);
    RunKeepsInv(INIT, es[..i]);
    NewClaimIsClaimed(s, es[i], k);
    var n := ClaimedOverRun(Next(s, es[i]), upTo[i..][1..], k, es[i].id);
    assert upTo[i..][1..][n] == es[i + 1 + n];
  }

  predicate AnsweredWith(s: State, k: Key, outcome: Outcome) {
    k in s.ledger && s.ledger[k] == Answered(outcome)
  }

  lemma AnswerStays(s: State, e: Event, k: Key, outcome: Outcome)
    requires Inv(s) && Enabled(s, e) && Safe(s, e) && AnsweredWith(s, k, outcome)
    requires !(e.Forgets? && k in e.keys)
    ensures AnsweredWith(Next(s, e), k, outcome)
  {
    if e.Releases? || e.Settles? { assert s.requests[e.id].Holds(e.key); }
  }

  lemma {:induction false} AnswerStaysOverRun(s: State, es: seq<Event>, k: Key, outcome: Outcome)
    requires Inv(s) && IsRun(s, es) && AnsweredWith(s, k, outcome)
    requires forall i :: 0 <= i < |es| ==> !(es[i].Forgets? && k in es[i].keys)
    ensures AnsweredWith(Run(s, es), k, outcome)
    decreases |es|
  {
    if es != [] {
      AnswerStays(s, es[0], k, outcome);
      StepKeepsInv(s, es[0]);
      AnswerStaysOverRun(Next(s, es[0]), es[1..], k, outcome);
    }
  }

  lemma {:induction false} ClaimReplays(s: State, es: seq<Event>, k: Key, outcome: Outcome)
    requires Inv(s) && IsRun(s, es) && AnsweredWith(s, k, outcome) && es != []
    requires es[|es| - 1].Claims? && es[|es| - 1].key == k && es[|es| - 1].heard
    requires forall m :: 0 <= m < |es| - 1 ==> !(es[m].Forgets? && k in es[m].keys)
    ensures In(Run(s, es), es[|es| - 1].id, Replied(Replayed(outcome)))
    decreases |es|
  {
    if |es| == 1 {
      assert Run(s, es) == Next(s, es[0]);
    } else {
      AnswerStays(s, es[0], k, outcome);
      StepKeepsInv(s, es[0]);
      ClaimReplays(Next(s, es[0]), es[1..], k, outcome);
    }
  }

  lemma SettledReplays(s: State, es: seq<Event>, k: Key, outcome: Outcome)
    requires Inv(s) && IsRun(s, es) && |es| > 1
    requires es[0].Settles? && es[0].key == k && es[0].landed && es[0].outcome == outcome && Keeps(outcome)
    requires es[|es| - 1].Claims? && es[|es| - 1].key == k && es[|es| - 1].heard
    requires forall m :: 0 < m < |es| - 1 ==> !(es[m].Forgets? && k in es[m].keys)
    ensures In(Run(s, es), es[|es| - 1].id, Replied(Replayed(outcome)))
  {
    assert s.requests[es[0].id].Holds(k);
    StepKeepsInv(s, es[0]);
    ClaimReplays(Next(s, es[0]), es[1..], k, outcome);
  }

  /** Once a keepable outcome is recorded, every later claim replays it until it is forgotten. */
  lemma ResendReplaysFirstOutcome(es: seq<Event>, i: nat, j: nat, k: Key, outcome: Outcome)
    requires IsRun(INIT, es) && i < j < |es|
    requires es[i].Settles? && es[i].key == k && es[i].landed && es[i].outcome == outcome && Keeps(outcome)
    requires es[j].Claims? && es[j].key == k && es[j].heard
    requires forall m :: i < m < j ==> !(es[m].Forgets? && k in es[m].keys)
    ensures IsRun(INIT, es[..j + 1])
    ensures In(Run(INIT, es[..j + 1]), es[j].id, Replied(Replayed(outcome)))
  {
    var upTo := es[..j + 1];
    SplitRun(INIT, es, j + 1);
    SplitRun(INIT, upTo, i);
    RunKeepsInv(INIT, upTo[..i]);
    var rest := upTo[i..];
    assert rest[0] == es[i] && rest[|rest| - 1] == es[j];
    forall m | 0 < m < |rest| - 1 ensures !(rest[m].Forgets? && k in rest[m].keys) { assert rest[m] == es[i + m]; }
    SettledReplays(Run(INIT, upTo[..i]), rest, k, outcome);
  }

  // Where replays come from.

  ghost predicate EnclaveAnswered(es: seq<Event>, k: Key, outcome: Outcome) {
    exists a :: Answers(a, k, outcome) in es
  }

  ghost predicate Claimed(es: seq<Event>, id: Id, k: Key) {
    exists heard :: Claims(id, k, heard) in es
  }

  ghost predicate ReplayExplained(es: seq<Event>, id: Id, outcome: Outcome) {
    exists k :: Claimed(es, id, k) && EnclaveAnswered(es, k, outcome)
  }

  /** Every outcome the state holds is one the enclave answered a request for that key with. */
  ghost predicate Explained(es: seq<Event>, s: State) {
    && (forall k :: k in s.ledger && s.ledger[k].Answered? ==> EnclaveAnswered(es, k, s.ledger[k].outcome))
    && (forall id :: id in s.requests && s.requests[id].Settling? ==>
          EnclaveAnswered(es, s.requests[id].key, s.requests[id].outcome))
    && (forall id :: id in s.requests && s.requests[id].Replied? && s.requests[id].reply.Replayed? ==>
          ReplayExplained(es, id, s.requests[id].reply.outcome))
  }

  lemma ExplainedGrows(es: seq<Event>, e: Event, s: State)
    requires Explained(es, s)
    ensures Explained(es + [e], s)
  {
    forall k, o | EnclaveAnswered(es, k, o) ensures EnclaveAnswered(es + [e], k, o) {
      var a :| Answers(a, k, o) in es;
      assert Answers(a, k, o) in es + [e];
    }
    forall id, k | Claimed(es, id, k) ensures Claimed(es + [e], id, k) {
      var heard :| Claims(id, k, heard) in es;
      assert Claims(id, k, heard) in es + [e];
    }
    forall id, o | ReplayExplained(es, id, o) ensures ReplayExplained(es + [e], id, o) {
      var k :| Claimed(es, id, k) && EnclaveAnswered(es, k, o);
      assert Claimed(es + [e], id, k) && EnclaveAnswered(es + [e], k, o);
    }
  }

  lemma StepExplained(es: seq<Event>, e: Event, s: State)
    requires Explained(es, s) && Enabled(s, e)
    ensures Explained(es + [e], Next(s, e))
  {
    ExplainedGrows(es, e, s);
    assert e in es + [e];
    match e
    case Answers(id, k, outcome) => assert EnclaveAnswered(es + [e], k, outcome);
    case Claims(id, k, heard) =>
      assert Claimed(es + [e], id, k);
      if k in s.ledger && s.ledger[k].Answered? {
        assert ReplayExplained(es + [e], id, s.ledger[k].outcome);
      }
    case _ =>
  }

  lemma {:induction false} RunExplained(past: seq<Event>, s: State, es: seq<Event>)
    requires Explained(past, s) && IsRun(s, es)
    ensures Explained(past + es, Run(s, es))
    decreases |es|
  {
    if es == [] {
      assert past + es == past;
    } else {
      StepExplained(past, es[0], s);
      RunExplained(past + [es[0]], Next(s, es[0]), es[1..]);
      assert past + [es[0]] + es[1..] == past + es;
    }
  }

  /** A replayed answer is what the enclave answered to an earlier request with the same key. */
  lemma ReplaysAreEnclaveAnswers(es: seq<Event>, id: Id, outcome: Outcome)
    requires IsRun(INIT, es) && In(Run(INIT, es), id, Replied(Replayed(outcome)))
    ensures exists k, a, heard :: Claims(id, k, heard) in es && Answers(a, k, outcome) in es
  {
    RunExplained([], INIT, es);
    assert [] + es == es;
    var k :| Claimed(es, id, k) && EnclaveAnswered(es, k, outcome);
    var heard :| Claims(id, k, heard) in es;
    var a :| Answers(a, k, outcome) in es;
  }
}
