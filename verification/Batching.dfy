/** Batched enclave calls, halved whenever a request would be too large. */
module Batching {
  import opened Basics

  // Chunks hold at most `MAX_ITEMS_PER_BATCH` items. The backend is any function of
  // how many calls came before and of the batch.

  const MAX_ITEMS_PER_BATCH := 256

  datatype Error = RequestTooLarge | BatchMismatch | Other(code: nat)

  datatype Reply<A> = Answers(answers: seq<A>) | Throws(error: Error)

  /** One call made, and what it returned. */
  datatype Call<T, A> = Call(batch: seq<T>, reply: Reply<A>)

  type Backend<!T, A> = (nat, seq<T>) -> Reply<A>

  // What a log of calls says.

  /** Every call was answered by the backend, in order. */
  ghost predicate Logged<T, A>(backend: Backend<T, A>, log: seq<Call<T, A>>) {
    forall i :: 0 <= i < |log| ==> log[i].reply == backend(i, log[i].batch)
  }

  predicate Bounded<T, A>(log: seq<Call<T, A>>) {
    forall i :: 0 <= i < |log| ==> 1 <= |log[i].batch| <= MAX_ITEMS_PER_BATCH
  }

  /** An answered call answered one answer an item. */
  predicate Matched<T, A>(call: Call<T, A>) {
    call.reply.Answers? ==> |call.reply.answers| == |call.batch|
  }

  /** The items answered, in the order they were. */
  function Served<T, A>(log: seq<Call<T, A>>): seq<T> {
    if log == [] then []
    else (if log[0].reply.Answers? then log[0].batch else []) + Served(log[1..])
  }

  function Answered<T, A>(log: seq<Call<T, A>>): seq<A> {
    if log == [] then []
    else (if log[0].reply.Answers? then log[0].reply.answers else []) + Answered(log[1..])
  }

  lemma {:induction false} OneMore<T, A>(log: seq<Call<T, A>>, call: Call<T, A>)
    ensures Served(log + [call]) == Served(log) + if call.reply.Answers? then call.batch else []
    ensures Answered(log + [call]) == Answered(log) + if call.reply.Answers? then call.reply.answers else []
  {
    if log == [] {
      assert log + [call] == [call];
    } else {
      var first, rest := log[0], log[1..];
      assert (log + [call])[1..] == rest + [call];
      OneMore(rest, call);
      Regroup(if first.reply.Answers? then first.batch else [], Served(rest), if call.reply.Answers? then call.batch else []);
      Regroup(
        if first.reply.Answers? then first.reply.answers else [], Answered(rest),
        if call.reply.Answers? then call.reply.answers else []);
    }
  }

  lemma Regroup<T>(a: seq<T>, b: seq<T>, c: seq<T>)
    ensures a + (b + c) == a + b + c
  {
  }

  /** How a failed batching ended: with the last call's own failure. */
  predicate FailedLast<T, A>(log: seq<Call<T, A>>, error: Error) {
    && log != []
    && var last := log[|log| - 1];
       match error
       case RequestTooLarge => last.reply == Throws(RequestTooLarge) && |last.batch| == 1
       case BatchMismatch => last.reply == Throws(BatchMismatch) || !Matched(last)
       case Other(_) => last.reply == Throws(error)
  }

  lemma Halves<T>(before: seq<T>, batch: seq<T>, middle: nat)
    requires middle <= |batch|
    ensures before + batch[..middle] + batch[middle..] == before + batch
  {
    assert batch == batch[..middle] + batch[middle..];
  }

  // The code.

  /** One call, logged. */
  method CallBackend<T, A>(backend: Backend<T, A>, batch: seq<T>, log: seq<Call<T, A>>)
    returns (log': seq<Call<T, A>>, reply: Reply<A>)
    requires 1 <= |batch| <= MAX_ITEMS_PER_BATCH && Logged(backend, log) && Bounded(log)
    ensures Logged(backend, log') && Bounded(log')
    ensures log' == log + [Call(batch, reply)]
    ensures Served(log') == Served(log) + if reply.Answers? then batch else []
    ensures Answered(log') == Answered(log) + if reply.Answers? then reply.answers else []
  {
    reply := backend(|log|, batch);
    log' := log + [Call(batch, reply)];
    OneMore(log, Call(batch, reply));
  }

  /** `send`: appends the batch's answers, splitting it while it is too large. */
  method Send<T, A>(
    backend: Backend<T, A>, batch: seq<T>, log: seq<Call<T, A>>, answers: seq<A>)
    returns (log': seq<Call<T, A>>, answers': seq<A>, error: Option<Error>)
    requires 1 <= |batch| <= MAX_ITEMS_PER_BATCH
    requires Logged(backend, log) && Bounded(log) && answers == Answered(log)
    ensures Logged(backend, log') && Bounded(log') && answers' == Answered(log')
    ensures log <= log' && |log'| < |log| + 2 * |batch|
    ensures error.None? ==> Served(log') == Served(log) + batch && |answers'| == |answers| + |batch|
    ensures error.Some? ==> FailedLast(log', error.value)
    decreases |batch|, 1
  {
    var reply;
    log', reply := CallBackend(backend, batch, log);
    answers' := answers;
    if reply.Throws? {
      if reply.error != RequestTooLarge || |batch| < 2 {
        return log', answers', Some(reply.error);
      }
      log', answers', error := SendHalves(backend, batch, log', answers');
    } else {
      answers' := answers + reply.answers;
      error := if |reply.answers| != |batch| then Some(BatchMismatch) else None;
    }
  }

  method SendHalves<T, A>(
    backend: Backend<T, A>, batch: seq<T>, log: seq<Call<T, A>>, answers: seq<A>)
    returns (log': seq<Call<T, A>>, answers': seq<A>, error: Option<Error>)
    requires 2 <= |batch| <= MAX_ITEMS_PER_BATCH
    requires Logged(backend, log) && Bounded(log) && answers == Answered(log)
    ensures Logged(backend, log') && Bounded(log') && answers' == Answered(log')
    ensures log <= log' && |log'| < |log| + 2 * |batch| - 1
    ensures error.None? ==> Served(log') == Served(log) + batch && |answers'| == |answers| + |batch|
    ensures error.Some? ==> FailedLast(log', error.value)
    decreases |batch|, 0
  {
    var middle := |batch| / 2;
    log', answers', error := Send(backend, batch[..middle], log, answers);
    if error.Some? {
      return;
    }
    log', answers', error := Send(backend, batch[middle..], log', answers');
    Halves(Served(log), batch, middle);
  }

  /** `#batched`. */
  method Batched<T, A>(backend: Backend<T, A>, items: seq<T>)
    returns (answers: seq<A>, error: Option<Error>, log: seq<Call<T, A>>)
    ensures Logged(backend, log) && Bounded(log) && |log| <= 2 * |items|
    ensures error.None? ==> Served(log) == items && answers == Answered(log) && |answers| == |items|
    ensures error.Some? ==> FailedLast(log, error.value)
  {
    answers, error, log := [], None, [];
    var start := 0;
    while start < |items|
      invariant 0 <= start <= |items|
      invariant Logged(backend, log) && Bounded(log) && |log| <= 2 * start
      invariant Served(log) == items[..start] && answers == Answered(log) && |answers| == start
    {
      var end := if start + MAX_ITEMS_PER_BATCH < |items| then start + MAX_ITEMS_PER_BATCH else |items|;
      log, answers, error := Send(backend, items[start..end], log, answers);
      if error.Some? {
        return;
      }
      assert items[..start] + items[start..end] == items[..end];
      start := end;
    }
    assert items[..start] == items;
    error := None;
  }

  // What it gives.

  function Map<T, A>(f: T -> A, items: seq<T>): (r: seq<A>)
    ensures |r| == |items| && forall i :: 0 <= i < |items| ==> r[i] == f(items[i])
  {
    seq(|items|, i requires 0 <= i < |items| => f(items[i]))
  }

  /** The backend answers item by item, or says the request is too large, or fails. */
  ghost predicate ItemWise<T(!new), A(!new)>(backend: Backend<T, A>, f: T -> A) {
    forall n: nat, batch: seq<T> :: backend(n, batch).Answers? ==> backend(n, batch).answers == Map(f, batch)
  }

  /** Batching that returns gives exactly the item-wise map, in order. */
  lemma {:induction false} BatchingIsItemWise<T, A>(backend: Backend<T, A>, f: T -> A, log: seq<Call<T, A>>)
    requires forall i :: 0 <= i < |log| ==> log[i].reply.Answers? ==> log[i].reply.answers == Map(f, log[i].batch)
    ensures Answered(log) == Map(f, Served(log))
  {
    if log != [] { BatchingIsItemWise(backend, f, log[1..]); }
  }

  /** Every single item fits. */
  ghost predicate SinglesFit<T(!new), A(!new)>(backend: Backend<T, A>) {
    forall n: nat, x: T :: backend(n, [x]) != Throws(RequestTooLarge)
  }

  ghost predicate NeverFails<T(!new), A(!new)>(backend: Backend<T, A>) {
    forall n: nat, batch: seq<T> :: backend(n, batch).Throws? ==> backend(n, batch).error == RequestTooLarge
  }

  /**
   What `Batched` leaves means, with a backend that answers item by item or says
   too large: the item-wise map, and `RequestTooLarge` only from a single item.
   */
  lemma BatchedItems<T(!new), A(!new)>(
    backend: Backend<T, A>, f: T -> A, items: seq<T>, answers: seq<A>, error: Option<Error>, log: seq<Call<T, A>>)
    requires ItemWise(backend, f) && Logged(backend, log)
    requires error.None? ==> Served(log) == items && answers == Answered(log)
    requires error.Some? ==> FailedLast(log, error.value)
    ensures error.None? ==> answers == Map(f, items)
    ensures SinglesFit(backend) ==> error != Some(RequestTooLarge)
    ensures SinglesFit(backend) && NeverFails(backend) ==> error.None?
  {
    if error.None? {
      BatchingIsItemWise(backend, f, log);
    } else {
      var n := |log| - 1;
      var last := log[n];
      if error.value == RequestTooLarge { assert last.batch == [last.batch[0]]; }
      assert last.reply == backend(n, last.batch);
    }
  }
}
