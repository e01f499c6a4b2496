/** The Boot Proof lookup: callers for one key share one Turnkey call. */
module BootProof {
  import opened Basics
  import opened Unicode
  import opened Ledger

  // A step is one section under a lock, one await that ended, or one value dropped;
  // any number of callers interleave, and a caller waiting or fetching can be
  // cancelled.

  type Id = nat

  type Chan = nat

  type EphemeralKey = Text

  const EPHEMERAL_KEY_HEX_LEN := 260

  const BOOT_PROOF_CACHE_CAPACITY := 256

  /** `is_lower_hex` at the length of an ephemeral key. */
  predicate IsEphemeralKey(key: EphemeralKey) {
    |key| == EPHEMERAL_KEY_HEX_LEN && forall i :: 0 <= i < |key| ==> 48 <= key[i] <= 57 || 97 <= key[i] <= 102
  }

  datatype Answer = Body(body: Bytes) | Error(error: ApiError)

  /** `turnkey_status` for a Boot Proof call, and a response that does not parse. */
  predicate FetchAnswers(a: Answer) {
    a.Error? ==> a.error in {TurnkeyUnauthorized, TurnkeyRateLimited, TurnkeyUnavailable, BootProofUnavailable}
  }

  // The sections under the locks.

  function Cached(cache: map<EphemeralKey, Bytes>, key: EphemeralKey, body: Bytes): map<EphemeralKey, Bytes> {
    (if |cache| >= BOOT_PROOF_CACHE_CAPACITY then map[] else cache)[key := body]
  }

  function Boarded(flights: map<EphemeralKey, Chan>, key: EphemeralKey, chan: Chan): map<EphemeralKey, Chan> {
    if key in flights then flights else flights[key := chan]
  }

  function Landed(flights: map<EphemeralKey, Chan>, key: EphemeralKey, chan: Chan): map<EphemeralKey, Chan> {
    if key in flights && flights[key] == chan then flights - {key} else flights
  }

  lemma CacheStaysSmall(cache: map<EphemeralKey, Bytes>, key: EphemeralKey, body: Bytes)
    requires |cache| <= BOOT_PROOF_CACHE_CAPACITY
    ensures |Cached(cache, key, body)| <= BOOT_PROOF_CACHE_CAPACITY
  {
    var before := if |cache| >= BOOT_PROOF_CACHE_CAPACITY then map[] else cache;
    assert before[key := body].Keys == before.Keys + {key};
  }

  /** The fields of `Turnkey` a lookup changes, each method one section under a lock. */
  class Turnkey {
    var cache: map<EphemeralKey, Bytes>
    var flights: map<EphemeralKey, Chan>
    /** The channels boarded and not landed, by the key they are for. */
    ghost var underway: map<Chan, EphemeralKey>
    /** Every proof ever fetched, by key. */
    ghost var fetched: set<(EphemeralKey, Bytes)>

    ghost predicate Valid()
      reads this
    {
      && (forall k :: k in flights ==> flights[k] in underway && underway[flights[k]] == k)
      && (forall c :: c in underway ==> underway[c] in flights && flights[underway[c]] == c)
      && (forall k :: k in cache ==> (k, cache[k]) in fetched)
      && |cache| <= BOOT_PROOF_CACHE_CAPACITY
    }

    constructor ()
      ensures Valid() && cache == map[] && flights == map[] && underway == map[] && fetched == {}
    {
      cache, flights, underway, fetched := map[], map[], map[], {};
    }

    /** A proof found was fetched for the very key asked for. */
    method CachedBootProof(key: EphemeralKey) returns (r: Option<Bytes>)
      requires Valid()
      ensures r.Some? ==> (key, r.value) in fetched && key in cache && cache[key] == r.value
      ensures r.None? ==> key !in cache
    {
      r := if key in cache then Some(cache[key]) else None;
    }

    /** A channel found is that of the one lookup under way for the key; none is found only if there is none. */
    method BootProofFlight(key: EphemeralKey) returns (r: Option<Chan>)
      requires Valid()
      ensures r.Some? ==> r.value in underway && underway[r.value] == key
      ensures r.Some? ==> forall c :: c in underway && underway[c] == key ==> c == r.value
      ensures r.None? ==> forall c :: c in underway ==> underway[c] != key
    {
      r := if key in flights then Some(flights[key]) else None;
    }

    /** Inserts the caller's channel unless a lookup for the key is under way. */
    method Board(key: EphemeralKey, chan: Chan) returns (boarded: bool)
      requires Valid() && chan !in underway
      modifies this`flights, this`underway
      ensures Valid()
      ensures boarded <==> forall c :: c in old(underway) ==> old(underway)[c] != key
      ensures flights == Boarded(old(flights), key, chan)
      ensures underway == if boarded then old(underway)[chan := key] else old(underway)
    {
      if key in flights {
        assert flights[key] in underway;
        return false;
      }
      flights := flights[key := chan];
      underway := underway[chan := key];
      return true;
    }

    /** `FlightLanding::drop`: a lookup takes its own channel off the map, and no other. */
    method Land(key: EphemeralKey, chan: Chan)
      requires Valid()
      modifies this`flights, this`underway
      ensures Valid()
      ensures flights == Landed(old(flights), key, chan)
      ensures chan in old(underway) && old(underway)[chan] == key ==> underway == old(underway) - {chan}
      ensures !(chan in old(underway) && old(underway)[chan] == key) ==> underway == old(underway)
    {
      if key in flights && flights[key] == chan {
        flights := flights - {key};
        underway := underway - {chan};
      }
    }

    /** Caches a proof just fetched, clearing the cache first at capacity. */
    method CacheBootProof(key: EphemeralKey, body: Bytes)
      requires Valid()
      modifies this`cache, this`fetched
      ensures Valid()
      ensures cache == Cached(old(cache), key, body) && fetched == old(fetched) + {(key, body)}
    {
      CacheStaysSmall(cache, key, body);
      if |cache| >= BOOT_PROOF_CACHE_CAPACITY {
        cache := map[];
      }
      cache := cache[key := body];
      fetched := fetched + {(key, body)};
    }
  }

  // The step machine.

  /** How a caller came by its answer. */
  datatype Via = BadKey | FromCache | OwnRefusal | OwnFetch(chan: Chan) | Shared(chan: Chan)

  datatype Phase =
    | Looking(key: EphemeralKey)                                    // about to read the cache
    | Joining(key: EphemeralKey)                                    // about to read the flights
    | Waiting(key: EphemeralKey, chan: Chan)
    | Asking(key: EphemeralKey)                                     // about to take its slots
    | Boarding(key: EphemeralKey)                                   // has its slots and a channel
    | Fetching(key: EphemeralKey, chan: Chan)
    | Caching(key: EphemeralKey, chan: Chan, answer: Answer)
    | Sending(key: EphemeralKey, chan: Chan, answer: Answer)
    | Landing(key: EphemeralKey, chan: Chan, told: Option<Answer>)  // `None`: cancelled
    | Closing(key: EphemeralKey, chan: Chan, told: Option<Answer>)
    | Replied(key: EphemeralKey, answer: Answer, via: Via)
    | Gone
  {
    predicate Flies() { Fetching? || Caching? || Sending? || Landing? }
    predicate Owns() { Flies() || Closing? }
  }

  /** A watch channel: its one sender's caller, what was sent, and whether the sender still is. */
  datatype Channel = Channel(key: EphemeralKey, owner: Id, sent: Option<Answer>, open: bool)

  /** `fetched`: every answer Turnkey gave, by key; a history variable. */
  datatype State = State(
    cache: map<EphemeralKey, Bytes>,
    flights: map<EphemeralKey, Chan>,
    channels: map<Chan, Channel>,
    callers: map<Id, Phase>,
    fetched: set<(EphemeralKey, Answer)>)

  datatype Event =
    | Asks(id: Id, key: EphemeralKey)
    | Looks(id: Id)
    | Joins(id: Id)
    | Wakes(id: Id)
    | TakesSlots(id: Id, granted: bool)
    | Boards(id: Id, chan: Chan)
    | Fetches(id: Id, answer: Answer)
    | Caches(id: Id)
    | Sends(id: Id)
    | Lands(id: Id)
    | Closes(id: Id)
    | Cancels(id: Id)

  predicate Woken(c: Channel) { c.sent.Some? || !c.open }

  predicate Enabled(s: State, e: Event) {
    if e.Asks? then e.id !in s.callers
    else
      && e.id in s.callers
      && var p := s.callers[e.id];
         match e
         case Looks(_) => p.Looking?
         case Joins(_) => p.Joining?
         case Wakes(_) => p.Waiting? && p.chan in s.channels && Woken(s.channels[p.chan])
         case TakesSlots(_, _) => p.Asking?
         case Boards(_, chan) => p.Boarding? && chan !in s.channels
         case Fetches(_, answer) => p.Fetching? && FetchAnswers(answer)
         case Caches(_) => p.Caching?
         case Sends(_) => p.Sending? && p.chan in s.channels
         case Lands(_) => p.Landing?
         case Closes(_) => p.Closing? && p.chan in s.channels
         case _ => p.Waiting? || p.Fetching?
  }

  function Move(s: State, id: Id, p: Phase): State { s.(callers := s.callers[id := p]) }

  function Next(s: State, e: Event): State
    requires Enabled(s, e)
  {
    match e
    case Asks(id, key) =>
      Move(s, id, if IsEphemeralKey(key) then Looking(key) else Replied(key, Error(InvalidEnclaveAnswer), BadKey))
    case Looks(id) =>
      var k := s.callers[id].key;
      Move(s, id, if k in s.cache then Replied(k, Body(s.cache[k]), FromCache) else Joining(k))
    case Joins(id) =>
      var k := s.callers[id].key;
      Move(s, id, if k in s.flights then Waiting(k, s.flights[k]) else Asking(k))
    case Wakes(id) =>
      var p := s.callers[id];
      var sent := s.channels[p.chan].sent;
      Move(s, id, if sent.Some? then Replied(p.key, sent.value, Shared(p.chan)) else Looking(p.key))
    case TakesSlots(id, granted) =>
      var k := s.callers[id].key;
      Move(s, id, if granted then Boarding(k) else Replied(k, Error(TooManyInFlight), OwnRefusal))
    case Boards(id, chan) =>
      var k := s.callers[id].key;
      if k in s.flights then Move(s, id, Looking(k))
      else
        Move(s, id, Fetching(k, chan)).(
          flights := Boarded(s.flights, k, chan),
          channels := s.channels[chan := Channel(k, id, None, true)])
    case Fetches(id, answer) =>
      var p := s.callers[id];
      Move(s, id, Caching(p.key, p.chan, answer)).(fetched := s.fetched + {(p.key, answer)})
    case Caches(id) =>
      var p := s.callers[id];
      Move(s, id, Sending(p.key, p.chan, p.answer)).(
        cache := if p.answer.Body? then Cached(s.cache, p.key, p.answer.body) else s.cache)
    case Sends(id) =>
      var p := s.callers[id];
      Move(s, id, Landing(p.key, p.chan, Some(p.answer))).(
        channels := s.channels[p.chan := s.channels[p.chan].(sent := Some(p.answer))])
    case Lands(id) =>
      var p := s.callers[id];
      Move(s, id, Closing(p.key, p.chan, p.told)).(flights := Landed(s.flights, p.key, p.chan))
    case Closes(id) =>
      var p := s.callers[id];
      Move(s, id, if p.told.Some? then Replied(p.key, p.told.value, OwnFetch(p.chan)) else Gone).(
        channels := s.channels[p.chan := s.channels[p.chan].(open := false)])
    case Cancels(id) =>
      var p := s.callers[id];
      Move(s, id, if p.Waiting? then Gone else Landing(p.key, p.chan, None))
  }

  const INIT := State(map[], map[], map[], map[], {})

  ghost predicate IsRun(s: State, es: seq<Event>)
    decreases |es|
  {
    es == [] || (Enabled(s, es[0]) && IsRun(Next(s, es[0]), es[1..]))
  }

  function Run(s: State, es: seq<Event>): State
    requires IsRun(s, es)
    decreases |es|
  {
    if es == [] then s else Run(Next(s, es[0]), es[1..])
  }

  // The invariant, one clause per piece of state.

  /** Every flight on the map is a lookup still under way, on that key and channel. */
  ghost predicate FlightsFly(s: State) {
    forall k :: k in s.flights ==>
      var c := s.flights[k];
      c in s.channels && s.channels[c].owner in s.callers &&
      var p := s.callers[s.channels[c].owner];
      p.Flies() && p.chan == c && p.key == k
  }

  /** Every lookup under way is on the map, under its own key. */
  ghost predicate FlyersAreOnTheMap(s: State) {
    forall id :: id in s.callers && s.callers[id].Flies() ==>
      s.callers[id].key in s.flights && s.flights[s.callers[id].key] == s.callers[id].chan
  }

  /** What a lookup's owner has sent so far. */
  function SentBy(p: Phase): Option<Answer>
    requires p.Owns()
  {
    if p.Landing? || p.Closing? then p.told else None
  }

  /** An owner's channel is open and holds what the owner sent. */
  ghost predicate OwnersHaveChannels(s: State) {
    forall id :: id in s.callers && s.callers[id].Owns() ==>
      var p := s.callers[id];
      p.chan in s.channels && s.channels[p.chan] == Channel(p.key, id, SentBy(p), true)
  }

  /** An open channel's owner is still there. */
  ghost predicate OpenChannelsHaveOwners(s: State) {
    forall c :: c in s.channels && s.channels[c].open ==>
      var id := s.channels[c].owner;
      id in s.callers && s.callers[id].Owns() && s.callers[id].chan == c
  }

  /** A waiter waits on a channel of its own key. */
  ghost predicate WaitersHaveChannels(s: State) {
    forall id :: id in s.callers && s.callers[id].Waiting? ==>
      s.callers[id].chan in s.channels && s.channels[s.callers[id].chan].key == s.callers[id].key
  }

  /** A finished lookup's channel is closed. */
  ghost predicate OwnFetchesAreClosed(s: State) {
    forall id :: id in s.callers && s.callers[id].Replied? && s.callers[id].via.OwnFetch? ==>
      s.callers[id].via.chan in s.channels && !s.channels[s.callers[id].via.chan].open
  }

  predicate Fetched(s: State, k: EphemeralKey, a: Answer) { (k, a) in s.fetched }

  /** A replied answer is explained by the way it came. */
  predicate Explained(s: State, p: Phase)
    requires p.Replied?
  {
    match p.via
    case BadKey => !IsEphemeralKey(p.key) && p.answer == Error(InvalidEnclaveAnswer)
    case OwnRefusal => p.answer == Error(TooManyInFlight)
    case FromCache => p.answer.Body? && Fetched(s, p.key, p.answer)
    case _ => Fetched(s, p.key, p.answer)
  }

  /** Every answer cached, sent, about to be sent or replied came from a fetch for its key. */
  ghost predicate AnswersWereFetched(s: State) {
    && (forall k :: k in s.cache ==> Fetched(s, k, Body(s.cache[k])))
    && (forall c :: c in s.channels && s.channels[c].sent.Some? ==> Fetched(s, s.channels[c].key, s.channels[c].sent.value))
    && (forall id :: id in s.callers && (s.callers[id].Caching? || s.callers[id].Sending?) ==>
          Fetched(s, s.callers[id].key, s.callers[id].answer))
    && (forall id :: id in s.callers && s.callers[id].Replied? ==> Explained(s, s.callers[id]))
  }

  ghost predicate FlightInv(s: State) { FlightsFly(s) && FlyersAreOnTheMap(s) }

  ghost predicate ChannelInv(s: State) {
    OwnersHaveChannels(s) && OpenChannelsHaveOwners(s) && WaitersHaveChannels(s) && OwnFetchesAreClosed(s)
  }

  ghost predicate AnswerInv(s: State) {
    && AnswersWereFetched(s)
    && (forall a :: a in s.fetched ==> FetchAnswers(a.1))
    && |s.cache| <= BOOT_PROOF_CACHE_CAPACITY
  }

  ghost predicate Inv(s: State) { FlightInv(s) && ChannelInv(s) && AnswerInv(s) }

  /** A caller that owns no lookup before or after changes nothing else. */
  lemma QuietMoveKeepsInv(s: State, id: Id, p: Phase)
    requires Inv(s) && !p.Owns() && (id in s.callers ==> !s.callers[id].Owns())
    requires p.Waiting? ==> p.chan in s.channels && s.channels[p.chan].key == p.key
    requires p.Replied? ==> Explained(s, p) && !p.via.OwnFetch?
    ensures Inv(Move(s, id, p))
  {
  }

  lemma BoardingKeepsFlights(s: State, id: Id, chan: Chan)
    requires FlightInv(s) && ChannelInv(s) && Enabled(s, Boards(id, chan)) && s.callers[id].key !in s.flights
    ensures FlightInv(Next(s, Boards(id, chan)))
  {
  }

  lemma BoardingKeepsChannels(s: State, id: Id, chan: Chan)
    requires FlightInv(s) && ChannelInv(s) && Enabled(s, Boards(id, chan)) && s.callers[id].key !in s.flights
    ensures ChannelInv(Next(s, Boards(id, chan)))
  {
  }

  lemma BoardingKeepsAnswers(s: State, id: Id, chan: Chan)
    requires AnswerInv(s) && ChannelInv(s) && Enabled(s, Boards(id, chan)) && s.callers[id].key !in s.flights
    ensures AnswerInv(Next(s, Boards(id, chan)))
  {
  }

  lemma FetchKeepsFlights(s: State, id: Id, answer: Answer)
    requires FlightInv(s) && ChannelInv(s) && Enabled(s, Fetches(id, answer))
    ensures FlightInv(Next(s, Fetches(id, answer)))
  {
  }

  lemma FetchKeepsChannels(s: State, id: Id, answer: Answer)
    requires FlightInv(s) && ChannelInv(s) && Enabled(s, Fetches(id, answer))
    ensures ChannelInv(Next(s, Fetches(id, answer)))
  {
  }

  lemma FetchKeepsAnswers(s: State, id: Id, answer: Answer)
    requires AnswerInv(s) && ChannelInv(s) && Enabled(s, Fetches(id, answer))
    ensures AnswerInv(Next(s, Fetches(id, answer)))
  {
  }

  lemma CachingKeepsFlights(s: State, id: Id)
    requires FlightInv(s) && ChannelInv(s) && Enabled(s, Caches(id))
    ensures FlightInv(Next(s, Caches(id)))
  {
  }

  lemma CachingKeepsChannels(s: State, id: Id)
    requires FlightInv(s) && ChannelInv(s) && Enabled(s, Caches(id))
    ensures ChannelInv(Next(s, Caches(id)))
  {
  }

  lemma CachingKeepsAnswers(s: State, id: Id)
    requires AnswerInv(s) && ChannelInv(s) && Enabled(s, Caches(id))
    ensures AnswerInv(Next(s, Caches(id)))
  {
    if s.callers[id].answer.Body? {
      CacheStaysSmall(s.cache, s.callers[id].key, s.callers[id].answer.body);
    }
  }

  lemma SendKeepsFlights(s: State, id: Id)
    requires FlightInv(s) && ChannelInv(s) && Enabled(s, Sends(id))
    ensures FlightInv(Next(s, Sends(id)))
  {
  }

  lemma SendKeepsChannels(s: State, id: Id)
    requires FlightInv(s) && ChannelInv(s) && Enabled(s, Sends(id))
    ensures ChannelInv(Next(s, Sends(id)))
  {
  }

  lemma SendKeepsAnswers(s: State, id: Id)
    requires AnswerInv(s) && ChannelInv(s) && Enabled(s, Sends(id))
    ensures AnswerInv(Next(s, Sends(id)))
  {
  }

  lemma LandingKeepsFlights(s: State, id: Id)
    requires FlightInv(s) && ChannelInv(s) && Enabled(s, Lands(id))
    ensures FlightInv(Next(s, Lands(id)))
  {
  }

  lemma LandingKeepsChannels(s: State, id: Id)
    requires FlightInv(s) && ChannelInv(s) && Enabled(s, Lands(id))
    ensures ChannelInv(Next(s, Lands(id)))
  {
  }

  lemma LandingKeepsAnswers(s: State, id: Id)
    requires AnswerInv(s) && ChannelInv(s) && Enabled(s, Lands(id))
    ensures AnswerInv(Next(s, Lands(id)))
  {
  }

  lemma ClosingKeepsFlights(s: State, id: Id)
    requires FlightInv(s) && ChannelInv(s) && Enabled(s, Closes(id))
    ensures FlightInv(Next(s, Closes(id)))
  {
  }

  lemma ClosingKeepsChannels(s: State, id: Id)
    requires FlightInv(s) && ChannelInv(s) && Enabled(s, Closes(id))
    ensures ChannelInv(Next(s, Closes(id)))
  {
  }

  lemma ClosingKeepsAnswers(s: State, id: Id)
    requires AnswerInv(s) && ChannelInv(s) && Enabled(s, Closes(id))
    ensures AnswerInv(Next(s, Closes(id)))
  {
  }

  lemma CancelKeepsFlights(s: State, id: Id)
    requires FlightInv(s) && ChannelInv(s) && Enabled(s, Cancels(id)) && s.callers[id].Fetching?
    ensures FlightInv(Next(s, Cancels(id)))
  {
  }

  lemma CancelKeepsChannels(s: State, id: Id)
    requires FlightInv(s) && ChannelInv(s) && Enabled(s, Cancels(id)) && s.callers[id].Fetching?
    ensures ChannelInv(Next(s, Cancels(id)))
  {
  }

  lemma CancelKeepsAnswers(s: State, id: Id)
    requires AnswerInv(s) && ChannelInv(s) && Enabled(s, Cancels(id)) && s.callers[id].Fetching?
    ensures AnswerInv(Next(s, Cancels(id)))
  {
  }

  lemma BoardingKeepsInv(s: State, id: Id, chan: Chan)
    requires Inv(s) && Enabled(s, Boards(id, chan)) && s.callers[id].key !in s.flights
    ensures Inv(Next(s, Boards(id, chan)))
  {
    BoardingKeepsFlights(s, id, chan);
    BoardingKeepsChannels(s, id, chan);
    BoardingKeepsAnswers(s, id, chan);
  }

  lemma FetchKeepsInv(s: State, id: Id, answer: Answer)
    requires Inv(s) && Enabled(s, Fetches(id, answer))
    ensures Inv(Next(s, Fetches(id, answer)))
  {
    FetchKeepsFlights(s, id, answer);
    FetchKeepsChannels(s, id, answer);
    FetchKeepsAnswers(s, id, answer);
  }

  lemma CachingKeepsInv(s: State, id: Id)
    requires Inv(s) && Enabled(s, Caches(id))
    ensures Inv(Next(s, Caches(id)))
  {
    CachingKeepsFlights(s, id);
    CachingKeepsChannels(s, id);
    CachingKeepsAnswers(s, id);
  }

  lemma SendKeepsInv(s: State, id: Id)
    requires Inv(s) && Enabled(s, Sends(id))
    ensures Inv(Next(s, Sends(id)))
  {
    SendKeepsFlights(s, id);
    SendKeepsChannels(s, id);
    SendKeepsAnswers(s, id);
  }

  lemma LandingKeepsInv(s: State, id: Id)
    requires Inv(s) && Enabled(s, Lands(id))
    ensures Inv(Next(s, Lands(id)))
  {
    LandingKeepsFlights(s, id);
    LandingKeepsChannels(s, id);
    LandingKeepsAnswers(s, id);
  }

  lemma ClosingKeepsInv(s: State, id: Id)
    requires Inv(s) && Enabled(s, Closes(id))
    ensures Inv(Next(s, Closes(id)))
  {
    ClosingKeepsFlights(s, id);
    ClosingKeepsChannels(s, id);
    ClosingKeepsAnswers(s, id);
  }

  lemma CancelKeepsInv(s: State, id: Id)
    requires Inv(s) && Enabled(s, Cancels(id)) && s.callers[id].Fetching?
    ensures Inv(Next(s, Cancels(id)))
  {
    CancelKeepsFlights(s, id);
    CancelKeepsChannels(s, id);
    CancelKeepsAnswers(s, id);
  }

  lemma AskKeepsInv(s: State, id: Id, key: EphemeralKey)
    requires Inv(s) && Enabled(s, Asks(id, key))
    ensures Inv(Next(s, Asks(id, key)))
  {
    QuietMoveKeepsInv(s, id,
      if IsEphemeralKey(key) then Looking(key) else Replied(key, Error(InvalidEnclaveAnswer), BadKey));
  }

  lemma LookKeepsInv(s: State, id: Id)
    requires Inv(s) && Enabled(s, Looks(id))
    ensures Inv(Next(s, Looks(id)))
  {
    var k := s.callers[id].key;
    QuietMoveKeepsInv(s, id, if k in s.cache then Replied(k, Body(s.cache[k]), FromCache) else Joining(k));
  }

  lemma JoinKeepsInv(s: State, id: Id)
    requires Inv(s) && Enabled(s, Joins(id))
    ensures Inv(Next(s, Joins(id)))
  {
    var k := s.callers[id].key;
    if k in s.flights {
      assert s.channels[s.flights[k]].key == k;
      QuietMoveKeepsInv(s, id, Waiting(k, s.flights[k]));
    } else {
      QuietMoveKeepsInv(s, id, Asking(k));
    }
  }

  lemma WakeKeepsInv(s: State, id: Id)
    requires Inv(s) && Enabled(s, Wakes(id))
    ensures Inv(Next(s, Wakes(id)))
  {
    var p := s.callers[id];
    var sent := s.channels[p.chan].sent;
    QuietMoveKeepsInv(s, id, if sent.Some? then Replied(p.key, sent.value, Shared(p.chan)) else Looking(p.key));
  }

  lemma TakeSlotsKeepsInv(s: State, id: Id, granted: bool)
    requires Inv(s) && Enabled(s, TakesSlots(id, granted))
    ensures Inv(Next(s, TakesSlots(id, granted)))
  {
    var k := s.callers[id].key;
    QuietMoveKeepsInv(s, id, if granted then Boarding(k) else Replied(k, Error(TooManyInFlight), OwnRefusal));
  }

  predicate IsLookupStep(e: Event) {
    e.Fetches? || e.Caches? || e.Sends? || e.Lands? || e.Closes?
  }

  lemma LookupStepKeepsInv(s: State, e: Event)
    requires Inv(s) && Enabled(s, e) && IsLookupStep(e)
    ensures Inv(Next(s, e))
  {
    match e
    case Fetches(id, answer) => FetchKeepsInv(s, id, answer);
    case Caches(id) => CachingKeepsInv(s, id);
    case Sends(id) => SendKeepsInv(s, id);
    case Lands(id) => LandingKeepsInv(s, id);
    case Closes(id) => ClosingKeepsInv(s, id);
  }

  lemma CallerStepKeepsInv(s: State, e: Event)
    requires Inv(s) && Enabled(s, e) && !IsLookupStep(e)
    ensures Inv(Next(s, e))
  {
    match e
    case Asks(id, key) => AskKeepsInv(s, id, key);
    case Looks(id) => LookKeepsInv(s, id);
    case Joins(id) => JoinKeepsInv(s, id);
    case Wakes(id) => WakeKeepsInv(s, id);
    case TakesSlots(id, granted) => TakeSlotsKeepsInv(s, id, granted);
    case Boards(id, chan) =>
      if s.callers[id].key in s.flights {
        QuietMoveKeepsInv(s, id, Looking(s.callers[id].key));
      } else {
        BoardingKeepsInv(s, id, chan);
      }
    case Cancels(id) =>
      if s.callers[id].Waiting? { QuietMoveKeepsInv(s, id, Gone); } else { CancelKeepsInv(s, id); }
  }

  lemma StepKeepsInv(s: State, e: Event)
    requires Inv(s) && Enabled(s, e)
    ensures Inv(Next(s, e))
  {
    if IsLookupStep(e) { LookupStepKeepsInv(s, e); } else { CallerStepKeepsInv(s, e); }
  }

  lemma {:induction false} RunKeepsInv(s: State, es: seq<Event>)
    requires Inv(s) && IsRun(s, es)
    ensures Inv(Run(s, es))
    decreases |es|
  {
    if es != [] {
      StepKeepsInv(s, es[0]);
      RunKeepsInv(Next(s, es[0]), es[1..]);
    }
  }

  // What every interleaving keeps.

  /** A key has at most one lookup under way, and it is the one whose channel is on the map. */
  lemma OneLookupPerKey(es: seq<Event>, a: Id, b: Id)
    requires IsRun(INIT, es)
    requires a in Run(INIT, es).callers && b in Run(INIT, es).callers
    requires Run(INIT, es).callers[a].Flies() && Run(INIT, es).callers[b].Flies()
    requires Run(INIT, es).callers[a].key == Run(INIT, es).callers[b].key
    ensures a == b
    ensures var s := Run(INIT, es);
            s.callers[a].key in s.flights && s.flights[s.callers[a].key] == s.callers[a].chan
  {
    RunKeepsInv(INIT, es);
  }

  /** A flight on the map has its owner still at work, on an open channel of that key. */
  lemma FlightsAreUnderWay(es: seq<Event>, k: EphemeralKey)
    requires IsRun(INIT, es) && k in Run(INIT, es).flights
    ensures var s := Run(INIT, es);
            var c := s.flights[k];
            && c in s.channels && s.channels[c].open && s.channels[c].key == k
            && s.channels[c].owner in s.callers && s.callers[s.channels[c].owner].Flies()
  {
    RunKeepsInv(INIT, es);
  }

  /** A finished lookup, successful or not, is off the map, so nobody joins it later. */
  lemma FinishedLookupsAreNotJoined(es: seq<Event>, id: Id, k: EphemeralKey)
    requires IsRun(INIT, es) && id in Run(INIT, es).callers && k in Run(INIT, es).flights
    requires Run(INIT, es).callers[id].Replied? && Run(INIT, es).callers[id].via.OwnFetch?
    ensures Run(INIT, es).flights[k] != Run(INIT, es).callers[id].via.chan
  {
    RunKeepsInv(INIT, es);
  }

  /** A waiter can always be woken, or the owner it waits for is still at work. */
  lemma NoWaiterIsStranded(es: seq<Event>, id: Id)
    requires IsRun(INIT, es) && id in Run(INIT, es).callers && Run(INIT, es).callers[id].Waiting?
    ensures var s := Run(INIT, es);
            var c := s.callers[id].chan;
            || Enabled(s, Wakes(id))
            || (c in s.channels && s.channels[c].owner in s.callers && s.callers[s.channels[c].owner].Owns())
  {
    RunKeepsInv(INIT, es);
  }

  /**
   A woken waiter takes exactly what was sent on its channel, which was fetched for
   its key; if the sender left without sending, it looks again from the start.
   */
  lemma WokenWaitersShareOrRetry(es: seq<Event>, id: Id)
    requires IsRun(INIT, es) && Enabled(Run(INIT, es), Wakes(id))
    ensures var s, p := Run(INIT, es), Next(Run(INIT, es), Wakes(id)).callers[id];
            var waiting := s.callers[id];
            var channel := s.channels[waiting.chan];
            && channel.key == waiting.key
            && (channel.sent.Some? ==>
                  p == Replied(waiting.key, channel.sent.value, Shared(waiting.chan)) && (waiting.key, p.answer) in s.fetched)
            && (channel.sent.None? ==> !channel.open && p == Looking(waiting.key))
  {
    RunKeepsInv(INIT, es);
  }

  // Where answers come from.

  ghost predicate FetchedFor(es: seq<Event>, k: EphemeralKey, a: Answer) {
    exists i: nat, id: Id :: FetchAt(es, i, id, k, a)
  }

  /** The step at `i` is the answer to a fetch under way for `k`. */
  ghost predicate FetchAt(es: seq<Event>, i: nat, id: Id, k: EphemeralKey, a: Answer) {
    && i < |es| && es[i] == Fetches(id, a)
    && IsRun(INIT, es[..i])
    && id in Run(INIT, es[..i]).callers
    && Run(INIT, es[..i]).callers[id].Fetching? && Run(INIT, es[..i]).callers[id].key == k
  }

  lemma {:induction false} RunOfOneMore(s: State, es: seq<Event>, e: Event)
    requires IsRun(s, es) && Enabled(Run(s, es), e)
    ensures IsRun(s, es + [e]) && Run(s, es + [e]) == Next(Run(s, es), e)
    decreases |es|
  {
    if es == [] {
      assert es + [e] == [e];
    } else {
      RunOfOneMore(Next(s, es[0]), es[1..], e);
      assert (es + [e])[1..] == es[1..] + [e];
    }
  }

  lemma {:induction false} DropLast(s: State, es: seq<Event>)
    requires IsRun(s, es) && es != []
    ensures IsRun(s, es[..|es| - 1]) && Enabled(Run(s, es[..|es| - 1]), es[|es| - 1])
    ensures Run(s, es) == Next(Run(s, es[..|es| - 1]), es[|es| - 1])
    decreases |es|
  {
    if |es| > 1 {
      DropLast(Next(s, es[0]), es[1..]);
      assert es[..|es| - 1][1..] == es[1..][..|es| - 2];
    } else {
      assert es[..0] == [];
    }
  }

  lemma {:induction false} FetchedMeansFetchedFor(es: seq<Event>, k: EphemeralKey, a: Answer)
    requires IsRun(INIT, es) && (k, a) in Run(INIT, es).fetched
    ensures FetchedFor(es, k, a)
    decreases |es|
  {
    if es != [] {
      var n := |es| - 1;
      DropLast(INIT, es);
      var before := es[..n];
      if (k, a) in Run(INIT, before).fetched {
        FetchedMeansFetchedFor(before, k, a);
        var i: nat, id: Id :| FetchAt(before, i, id, k, a);
        assert before[..i] == es[..i];
        assert FetchAt(es, i, id, k, a);
      } else {
        assert FetchAt(es, n, es[n].id, k, a);
      }
    }
  }

  /** Every success replied was fetched for that very key; every error is the caller's own or a fetch's for its key. */
  lemma RepliesAreExplained(es: seq<Event>, id: Id)
    requires IsRun(INIT, es) && id in Run(INIT, es).callers && Run(INIT, es).callers[id].Replied?
    ensures var p := Run(INIT, es).callers[id];
            || FetchedFor(es, p.key, p.answer)
            || (p.via == OwnRefusal && p.answer == Error(TooManyInFlight))
            || (p.via == BadKey && p.answer == Error(InvalidEnclaveAnswer) && !IsEphemeralKey(p.key))
  {
    RunKeepsInv(INIT, es);
    var p := Run(INIT, es).callers[id];
    if !p.via.OwnRefusal? && !p.via.BadKey? {
      FetchedMeansFetchedFor(es, p.key, p.answer);
    }
  }

  /** A refused slot is the refused caller's own answer, never one it shared. */
  lemma RefusalsAreNeverShared(es: seq<Event>, id: Id)
    requires IsRun(INIT, es) && id in Run(INIT, es).callers && Run(INIT, es).callers[id].Replied?
    requires Run(INIT, es).callers[id].answer == Error(TooManyInFlight)
    ensures Run(INIT, es).callers[id].via == OwnRefusal
  {
    RunKeepsInv(INIT, es);
  }

  /** What the cache holds was fetched, successfully, for its key. */
  lemma ErrorsAreNeverCached(es: seq<Event>, k: EphemeralKey)
    requires IsRun(INIT, es) && k in Run(INIT, es).cache
    ensures FetchedFor(es, k, Body(Run(INIT, es).cache[k])) && |Run(INIT, es).cache| <= BOOT_PROOF_CACHE_CAPACITY
  {
    RunKeepsInv(INIT, es);
    FetchedMeansFetchedFor(es, k, Body(Run(INIT, es).cache[k]));
  }

  // Successes are cached before they are told.

  /** The step at `i` puts `body` in the cache under `k`. */
  ghost predicate CacheAt(es: seq<Event>, i: nat, k: EphemeralKey, body: Bytes) {
    && i < |es| && es[i].Caches? && IsRun(INIT, es[..i + 1])
    && k in Run(INIT, es[..i + 1]).cache && Run(INIT, es[..i + 1]).cache[k] == body
  }

  ghost predicate CachedIn(es: seq<Event>, k: EphemeralKey, body: Bytes) {
    exists i: nat :: CacheAt(es, i, k, body)
  }

  ghost predicate SendersCached(es: seq<Event>, s: State) {
    forall id :: id in s.callers && s.callers[id].Sending? && s.callers[id].answer.Body? ==>
      CachedIn(es, s.callers[id].key, s.callers[id].answer.body)
  }

  ghost predicate SentCached(es: seq<Event>, s: State) {
    forall c :: c in s.channels && s.channels[c].sent.Some? && s.channels[c].sent.value.Body? ==>
      CachedIn(es, s.channels[c].key, s.channels[c].sent.value.body)
  }

  lemma CachedInGrows(es: seq<Event>, e: Event, k: EphemeralKey, body: Bytes)
    requires CachedIn(es, k, body)
    ensures CachedIn(es + [e], k, body)
  {
    var i: nat :| CacheAt(es, i, k, body);
    assert (es + [e])[..i + 1] == es[..i + 1];
    assert CacheAt(es + [e], i, k, body);
  }

  lemma SendersCachedGrows(es: seq<Event>, e: Event)
    requires IsRun(INIT, es) && Enabled(Run(INIT, es), e) && SendersCached(es, Run(INIT, es))
    ensures SendersCached(es + [e], Next(Run(INIT, es), e))
  {
    var s, s' := Run(INIT, es), Next(Run(INIT, es), e);
    forall id | id in s'.callers && s'.callers[id].Sending? && s'.callers[id].answer.Body?
      ensures CachedIn(es + [e], s'.callers[id].key, s'.callers[id].answer.body)
    {
      if e.Caches? && e.id == id {
        RunOfOneMore(INIT, es, e);
        assert (es + [e])[..|es| + 1] == es + [e];
        assert CacheAt(es + [e], |es|, s'.callers[id].key, s'.callers[id].answer.body);
      } else {
        assert id in s.callers && s.callers[id] == s'.callers[id];
        CachedInGrows(es, e, s.callers[id].key, s.callers[id].answer.body);
      }
    }
  }

  lemma SentCachedGrows(es: seq<Event>, e: Event)
    requires IsRun(INIT, es) && Enabled(Run(INIT, es), e) && OwnersHaveChannels(Run(INIT, es))
    requires SendersCached(es, Run(INIT, es)) && SentCached(es, Run(INIT, es))
    ensures SentCached(es + [e], Next(Run(INIT, es), e))
  {
    var s, s' := Run(INIT, es), Next(Run(INIT, es), e);
    forall c | c in s'.channels && s'.channels[c].sent.Some? && s'.channels[c].sent.value.Body?
      ensures CachedIn(es + [e], s'.channels[c].key, s'.channels[c].sent.value.body)
    {
      assert c in s.channels && s'.channels[c].key == s.channels[c].key;
      CachedInGrows(es, e, s.channels[c].key, s'.channels[c].sent.value.body);
    }
  }

  /** What the run has told or is about to tell was cached by then. */
  ghost predicate ToldWasCached(es: seq<Event>)
    requires IsRun(INIT, es)
  {
    SendersCached(es, Run(INIT, es)) && SentCached(es, Run(INIT, es))
  }

  lemma StepKeepsToldCached(es: seq<Event>, e: Event)
    requires IsRun(INIT, es) && Enabled(Run(INIT, es), e) && ToldWasCached(es)
    ensures IsRun(INIT, es + [e]) && ToldWasCached(es + [e])
  {
    RunKeepsInv(INIT, es);
    RunOfOneMore(INIT, es, e);
    SendersCachedGrows(es, e);
    SentCachedGrows(es, e);
  }

  lemma {:induction false} EverythingToldWasCached(es: seq<Event>)
    requires IsRun(INIT, es)
    ensures ToldWasCached(es)
    decreases |es|
  {
    if es != [] {
      var before, e := es[..|es| - 1], es[|es| - 1];
      DropLast(INIT, es);
      EverythingToldWasCached(before);
      StepKeepsToldCached(before, e);
      assert before + [e] == es;
    }
  }

  /** In every run, a success sent on a key's channel was put in the cache under that key by an earlier step. */
  lemma SuccessesAreCachedFirst(es: seq<Event>, c: Chan, body: Bytes)
    requires IsRun(INIT, es) && c in Run(INIT, es).channels && Run(INIT, es).channels[c].sent == Some(Body(body))
    ensures exists i: nat :: CacheAt(es, i, Run(INIT, es).channels[c].key, body)
  {
    EverythingToldWasCached(es);
  }
}
