/** The idempotency ledger as callers see it, which both real ledgers refine. */
module Ledger {
  import opened Basics
  import opened Hashing

  // One map from a claimed ciphertext's key to what is known of it.

  /** Every failure the gateway answers with; `Code` is its name on the wire. */
  datatype ApiError =
    | InvalidJson | InvalidEnrollmentRequest | StaleEnrollment | InvalidOwnerEnrollmentSignature
    | OriginAuthRequired | ProjectRequired | ApiKeyRequired | ApiKeyInvalid | WaasNotEnabled
    | InvalidDescriptor | DescriptorExpired | ClientKeyRevoked | WalletNotOwned
    | SubOrganizationNotOwned | TurnkeyRejected
    | NotFound | OperationInProgress | RequestTooLarge | TooManyInFlight
    | EnclaveUnavailable | InvalidEnclaveAnswer | UpstreamResponseTooLarge | BootProofUnavailable
    | TurnkeyUnavailable | TurnkeyUnauthorized | TurnkeyRateLimited | ReplayGuardUnavailable
    | ProvisionerUnavailable | WalletGrantUnavailable | ApiKeyLookupUnavailable
    | ClockUnavailable | ReleaseExpired

  /** What the enclave did with an operation: its answer, or the failure that left it unknown. */
  datatype Outcome =
    | Answer(status: nat, contentType: Bytes, body: Bytes)
    | Failure(error: ApiError)

  const MAX_KEPT_ANSWER_BYTES := 64 * 1024

  /** An outcome the ledger keeps; a larger answer releases its claim instead. */
  predicate Keeps(outcome: Outcome) {
    outcome.Answer? ==> |outcome.body| <= MAX_KEPT_ANSWER_BYTES
  }

  datatype Key = Key(digest: Bytes)

  datatype Entry = Running | Answered(outcome: Outcome)

  type View = map<Key, Entry>

  datatype Claim =
    | New
    | Replay(outcome: Outcome)
    | Refused(error: ApiError)

  // The three steps of the one-map ledger, and forgetting.

  function ClaimEntry(m: View, k: Key): (r: (View, Claim))
    ensures k in r.0 && (r.1.New? <==> k !in m)
    ensures forall j :: j != k ==> (j in r.0 <==> j in m) && (j in m ==> r.0[j] == m[j])
  {
    if k !in m then (m[k := Running], New)
    else if m[k].Running? then (m, Refused(OperationInProgress))
    else (m, Replay(m[k].outcome))
  }

  function RecordEntry(m: View, k: Key, outcome: Outcome): View {
    if k in m then m[k := Answered(outcome)] else m
  }

  function ReleaseEntry(m: View, k: Key): View {
    m - {k}
  }

  /** `ReplayLedger::record`: an answer above the cap releases the claim. */
  function Settle(m: View, k: Key, outcome: Outcome): View {
    if Keeps(outcome) then RecordEntry(m, k, outcome) else ReleaseEntry(m, k)
  }

  // Keys.

  /** Project IDs are 1 to 64 ASCII letters, digits and dashes. */
  predicate ProjectId(project: Bytes) {
    && 0 < |project| <= 64
    && forall i :: 0 <= i < |project| ==>
         var c := project[i];
         48 <= c <= 57 || 65 <= c <= 90 || 97 <= c <= 122 || c == 45
  }

  function KeyOf(hash: Bytes -> Bytes, project: Bytes, ciphertext: Bytes): Key {
    Key(hash(project + [0] + ciphertext))
  }

  /** Projects do not share entries: a key names one project and one ciphertext. */
  lemma KeyNamesProjectAndCiphertext(hash: Bytes -> Bytes, p: Bytes, c: Bytes, p': Bytes, c': Bytes)
    requires Injective(hash) && ProjectId(p) && ProjectId(p')
    ensures KeyOf(hash, p, c) == KeyOf(hash, p', c') <==> p == p' && c == c'
  {
    if KeyOf(hash, p, c) == KeyOf(hash, p', c') {
      SplitAtNul(p, c, p', c');
    }
  }
}
