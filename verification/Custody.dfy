/** Bootstrap signing: submit until an activity is named, then only query it. */
module Custody {
  import opened Basics
  import opened Unicode
  import opened Encodings

  // Turnkey's replies are any sequence; a run that asks for one more than there are
  // was dropped at its deadline.

  const MAX_PERMISSION_RETRIES := 10
  const MAX_SUBMISSIONS := MAX_PERMISSION_RETRIES + 1

  datatype Intent = SignRawPayload(signWith: Text, payload: Text) | OtherIntent

  datatype Status = Created | Pending | ConsensusNeeded | Completed | Failed | Rejected | OtherStatus

  datatype Signature = Signature(r: Text, s: Text)

  datatype Activity = Activity(
    id: Text, organizationId: Text, isSignRawPayloadV2: bool, intent: Option<Intent>,
    status: Status, result: Option<Signature>)

  /** A reply to either request: an answer with or without an activity, a 403, or any other failure. */
  datatype Reply = Answer(activity: Option<Activity>) | Denied | Broken

  datatype Request = Submit(timestampMs: nat) | Query(activityId: Text)

  datatype Outcome = Signed(activityId: Text, signature: Signature) | Declined | Unavailable | Dropped

  /** The activity is the one asked for. */
  predicate Matches(a: Activity, id: Text, org: Text, params: Intent) {
    a.id == id && a.organizationId == org && a.isSignRawPayloadV2 && a.intent == Some(params)
  }

  predicate Undecided(a: Activity) { a.status.Pending? || a.status.ConsensusNeeded? }

  /** The submission is answered with this activity. */
  predicate Names(reply: Reply, id: Text) { reply.Answer? && reply.activity.Some? && reply.activity.value.id == id }

  /** A reply after which the client asks again. */
  predicate Waits(reply: Reply, id: Text, org: Text, params: Intent) {
    Names(reply, id) && Matches(reply.activity.value, id, org, params) && Undecided(reply.activity.value)
  }

  /** What an answer ends the protocol with. */
  function Verdict(reply: Reply, id: Text, org: Text, params: Intent): Outcome {
    if !reply.Answer? || reply.activity.None? || !Matches(reply.activity.value, id, org, params) then Unavailable
    else
      var a := reply.activity.value;
      match a.status
      case Completed => if a.result.Some? then Signed(id, a.result.value) else Unavailable
      case Rejected => Declined
      case Failed => Declined
      case _ => Unavailable
  }

  /** `k` submissions, all but the last denied, each with its own timestamp. */
  predicate Submitted(requests: seq<Request>, replies: seq<Reply>, k: nat, timestampMs: nat, clock: nat -> nat) {
    && 1 <= k <= MAX_SUBMISSIONS && k <= |requests| && k <= |replies| + 1
    && (forall i :: 0 <= i < k ==> requests[i] == Submit(if i == 0 then timestampMs else clock(i)))
    && (forall i :: 0 <= i < k - 1 ==> replies[i].Denied?)
  }

  /** Once submission `k` was answered with `id`, every request queries it, while it waits. */
  predicate Polled(requests: seq<Request>, replies: seq<Reply>, k: nat, id: Text, org: Text, params: Intent)
    requires 1 <= k <= |requests| <= |replies| + 1
  {
    && (forall i :: k <= i < |requests| ==> requests[i] == Query(id))
    && (forall i :: k - 1 <= i < |requests| - 1 ==> Waits(replies[i], id, org, params))
    && (k <= |replies| ==> Names(replies[k - 1], id))
  }

  /** The submissions of `sign_with_approval`. */
  method Submissions(replies: seq<Reply>, timestampMs: nat, clock: nat -> nat)
    returns (requests: seq<Request>, answered: Option<Activity>, failed: bool)
    ensures Submitted(requests, replies, |requests|, timestampMs, clock)
    ensures answered.Some? <==>
      |requests| <= |replies| && replies[|requests| - 1].Answer? && replies[|requests| - 1].activity.Some?
    ensures answered.Some? ==> replies[|requests| - 1].activity == answered && !failed
    ensures !failed && answered.None? <==> |requests| == |replies| + 1
    ensures failed && replies[|requests| - 1].Denied? ==> |requests| == MAX_SUBMISSIONS
  {
    requests := [];
    var permissionRetries := 0;
    var stamp := timestampMs;
    while true
      invariant |requests| == permissionRetries <= MAX_PERMISSION_RETRIES && |requests| <= |replies|
      invariant stamp == if permissionRetries == 0 then timestampMs else clock(permissionRetries)
      invariant forall i :: 0 <= i < |requests| ==> requests[i] == Submit(if i == 0 then timestampMs else clock(i))
      invariant forall i :: 0 <= i < |requests| ==> replies[i].Denied?
      decreases |replies| - |requests|
    {
      requests := requests + [Submit(stamp)];
      if |requests| > |replies| {
        return requests, None, false;
      }
      match replies[|requests| - 1]
      case Answer(activity) =>
        return requests, activity, activity.None?;
      case Denied =>
        if permissionRetries >= MAX_PERMISSION_RETRIES {
          return requests, None, true;
        }
        permissionRetries := permissionRetries + 1;
        stamp := clock(permissionRetries);
      case Broken =>
        return requests, None, true;
    }
  }

  /**
   `sign_with_approval`. Its requests are at most eleven submissions, all but the
   last denied, and then queries of the one activity answered; the last reply decides.
   */
  method SignWithApproval(replies: seq<Reply>, org: Text, params: Intent, timestampMs: nat, clock: nat -> nat)
    returns (outcome: Outcome, requests: seq<Request>, k: nat, id: Text)
    ensures Submitted(requests, replies, k, timestampMs, clock) && |requests| <= |replies| + 1
    ensures |requests| > k ==> Polled(requests, replies, k, id, org, params)
    ensures outcome.Dropped? <==> |requests| == |replies| + 1
    ensures |requests| <= |replies| && Names(replies[k - 1], id) ==>
      outcome == Verdict(replies[|requests| - 1], id, org, params)
      && !Waits(replies[|requests| - 1], id, org, params)
    ensures |requests| <= |replies| && !Names(replies[k - 1], id) ==>
      && outcome == Unavailable && |requests| == k
      && (replies[k - 1].Denied? ==> k == MAX_SUBMISSIONS)
      && (replies[k - 1].Answer? ==> replies[k - 1].activity.None?)
  {
    var answered, failed;
    requests, answered, failed := Submissions(replies, timestampMs, clock);
    k, id := |requests|, [];
    if failed {
      return Unavailable, requests, k, id;
    }
    if answered.None? {
      return Dropped, requests, k, id;
    }
    var activity := answered.value;
    id := activity.id;
    while true
      invariant k <= |requests| <= |replies| && Submitted(requests, replies, k, timestampMs, clock)
      invariant replies[|requests| - 1] == Answer(Some(activity)) && Names(replies[k - 1], id)
      invariant Polled(requests, replies, k, id, org, params)
      decreases |replies| - |requests|
    {
      if activity.id != id || activity.organizationId != org || !activity.isSignRawPayloadV2 || activity.intent != Some(params) {
        return Unavailable, requests, k, id;
      }
      match activity.status {
        case Completed =>
          return if activity.result.None? then Unavailable else Signed(id, activity.result.value), requests, k, id;
        case Pending =>
        case ConsensusNeeded =>
        case Rejected =>
          return Declined, requests, k, id;
        case Failed =>
          return Declined, requests, k, id;
        case _ =>
          return Unavailable, requests, k, id;
      }
      requests := requests + [Query(id)];
      if |requests| > |replies| {
        return Dropped, requests, k, id;
      }
      var reply := replies[|requests| - 1];
      if !reply.Answer? || reply.activity.None? {
        return Unavailable, requests, k, id;
      }
      activity := reply.activity.value;
    }
  }

  // Over whole runs.

  /** No run submits after an answer: a submission is followed by another only when it was denied. */
  lemma NoSubmissionAfterAnAnswer(
    requests: seq<Request>, replies: seq<Reply>, k: nat, id: Text, org: Text, params: Intent,
    timestampMs: nat, clock: nat -> nat, i: nat, j: nat)
    requires Submitted(requests, replies, k, timestampMs, clock) && |requests| <= |replies| + 1
    requires |requests| > k ==> Polled(requests, replies, k, id, org, params)
    requires i < j < |requests|
    ensures requests[j].Submit? <==> j < k
    ensures requests[j].Submit? ==> requests[i].Submit? && replies[i].Denied? && j < MAX_SUBMISSIONS
  {
    if j >= k { assert requests[j] == Query(id); }
  }

  /** Success names a completed activity of the submitted id, organization, type and intent. */
  lemma SuccessIsTheSubmittedActivity(reply: Reply, id: Text, org: Text, params: Intent)
    ensures Verdict(reply, id, org, params).Signed? <==>
      && reply.Answer? && reply.activity.Some?
      && reply.activity.value.status.Completed? && reply.activity.value.result.Some?
      && Matches(reply.activity.value, id, org, params)
    ensures Verdict(reply, id, org, params).Signed? ==>
      Verdict(reply, id, org, params) == Signed(reply.activity.value.id, reply.activity.value.result.value)
  {
  }

  // The signature.

  function Strip0x(s: Text): Text { if |s| >= 2 && s[0] == 48 && s[1] == 120 then s[2..] else s }

  /** `decode_hex`. */
  function DecodeHalf(s: Text): Option<Bytes> { DecodeHex(Strip0x(s)) }

  /** `sign_raw` on the protocol's outcome: both halves, of 32 bytes each. */
  method SignRaw(replies: seq<Reply>, org: Text, params: Intent, timestampMs: nat, clock: nat -> nat)
    returns (signature: Option<Bytes>, outcome: Outcome, requests: seq<Request>)
    ensures signature.Some? <==>
      && outcome.Signed?
      && DecodeHalf(outcome.signature.r).Some? && |DecodeHalf(outcome.signature.r).value| == 32
      && DecodeHalf(outcome.signature.s).Some? && |DecodeHalf(outcome.signature.s).value| == 32
    ensures signature.Some? ==> |signature.value| == 64
    ensures signature.Some? ==>
      signature.value == DecodeHalf(outcome.signature.r).value + DecodeHalf(outcome.signature.s).value
    ensures outcome.Signed? ==>
      && 0 < |requests| <= |replies|
      && Verdict(replies[|requests| - 1], outcome.activityId, org, params) == outcome
  {
    var k, id;
    outcome, requests, k, id := SignWithApproval(replies, org, params, timestampMs, clock);
    if !outcome.Signed? {
      return None, outcome, requests;
    }
    assert Verdict(replies[|requests| - 1], id, org, params) == outcome;
    var r, s := DecodeHalf(outcome.signature.r), DecodeHalf(outcome.signature.s);
    if r.None? || s.None? || |r.value| != 32 || |s.value| != 32 {
      return None, outcome, requests;
    }
    signature := Some(r.value + s.value);
  }
}
