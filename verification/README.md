# Zolana TVC verification model

Zolana TVC is a privacy wallet: a TypeScript client, a gateway that forwards its
encrypted operations, and an enclave that runs them. This Dafny project models the
parts where correctness is hard to see in one body, and proves what they promise.
`dafny verify dfyconfig.toml` checks it.

What is modelled:

- **Idempotency.** The gateway's `/operations` handler as a step machine over any
  number of requests, dropped anywhere (`Operations`), over one abstract ledger
  (`Ledger`). The two real ledgers, two rotating maps in one process (`LocalLedger`)
  and atomic Redis commands with lost replies (`SharedLedger`), are refinements of it,
  and so are whole gateways over them (`LocalGateway`, `SharedGateway`). Records and
  releases name a key and carry no holder, so safety needs holders to finish before
  their entry is forgotten; `Operations.ForgettingIsSafeExactly` says that otherwise two
  holders of one key become reachable, and the gateway modules say what timing avoids it.
- **Shared flights.** The Boot Proof lookup (`BootProof`), the client's verified
  session (`Session`), key enrollment (`Enrollment`) and the signing queue
  (`SigningAlone`): each a class that changes its variables section by section, and a
  step machine over those sections whose invariant survives every interleaving.
- **Canonical encodings.** Canonical JSON (sections 3.2.2 and 3.2.3 of RFC 8785) in
  both languages (`Json`, `Jcs`, `JcsWriters`, `JsWriter`, `SameBytes`), the duplicate-rejecting
  scanner against the grammar of RFC 8259 (`StrictJson`, `JsonScan`, `JsonScanner`,
  `CanonicalScan`), strict CBOR (sections 3 and 4.2.1 of RFC 8949) with the COSE
  signature input (section 4.4 of RFC 9052) (`Cbor`, `CborRoundTrip`, `CborReader`),
  and the digests built on them (`Digest`, `Requests`, `RequestDigests`).
- **Algorithms.** Size prediction before signing (`RequestSize`, `Executor`, `Qos`),
  batch splitting (`Batching`), the proof loop (`ProveRetry`), completion of prover
  requests and the route both sides bind (`Prove`, `ProveSteps`), threshold release
  policies (`ReleasePolicy`) and custody polling (`Custody`).

Code that changes state in place is a class or a method proved against a
specification function; what is promised about it is then proved of that function.
Texts are sequences of code numbers, Unicode scalar values for Rust strings and UTF-16
units for JavaScript ones. Hashes, signatures, AES-GCM and key agreement are functions
with the assumption each result needs written in its `requires`.

Where the code and its comments differ, the model follows the code:

- A comment says the in-process ledger remembers an outcome for one to two windows
  (`apps/tvc-gateway/src/replay.rs:246-247`). Rotation happens only inside a claim, so
  two windows is no upper bound (`LocalLedger.EntryOutlivesTwoWindows`); what ends an
  entry is the second rotating claim (`LocalLedger.ForgottenExactlyByRotations`).
- The TypeScript policy verifier says it mirrors the Rust one check for check
  (`packages/tvc-wallet/src/verify/release-policy.ts:22-26`). The Rust count is a byte,
  so they differ past 255 counted signatures (`ReleasePolicy.VerifiersDifferPast255`),
  and only there (`ReleasePolicy.VerifiersAgreeExactly`).
- A comment on `signingAlone` says why calls must not overlap
  (`packages/tvc-wallet/src/wallet/turnkey.ts:117-122`). Nothing stops the application
  from setting its own key while a call runs, which the call then undoes;
  `SigningAlone.ChosenKeyStaysExactly` says when the key survives.
- Comments on the proof loop say that a prover that moved is attested again under a
  freshly downloaded policy (`packages/tvc-wallet/src/wallet/keys.ts:246-249` and `296`).
  A download that fails keeps the unexpired file held before, so the second turn may seal
  under the very same policy (`ProveRetry.FailedDownloadSealsUnderTheSamePolicy`);
  `ProveRetry.SecondTurnPolicyExactly` says when.
- Text in the CBOR reader is decoded by `TextDecoder`, which drops a leading
  byte-order mark, so decoded strings do not name their bytes
  (`CborReader.MarkedTextHasTwoEncodings`); the round trip is exact on the bytes, and
  exact on strings under the condition `CborReader.RoundTripKeepsTextExactly` gives.
- An owner's signature that arrives after an enrollment was aborted still marks it
  signed; what holds is that it never publishes (`Enrollment.AbortedNeverPublishes`).

## Model

| member | source | states |
|---|---|---|
| `Operations.AtMostOneHolder` | `apps/tvc-gateway/src/app.rs:269-299` | In every interleaving of any number of requests, each dropped at any await, a project's ciphertext has at most one holder at a time |
| `Operations.EnclaveRunsOncePerEntry` | `apps/tvc-gateway/src/app.rs:269-299` | Between two enclave calls for one key, that key's entry was forgotten or its answer was too large to keep; failed, slow and dropped requests included |
| `Operations.ResendReplaysFirstOutcome` | `apps/tvc-gateway/src/app.rs:269-277` | Once an outcome the ledger keeps is recorded, every later claim of the key that hears its reply replays exactly that outcome, until the entry is forgotten |
| `Operations.ReplaysAreEnclaveAnswers` | `apps/tvc-gateway/src/app.rs:269-299` | Every replayed outcome is one the enclave answered to a request that claimed the same key |
| `Operations.ForgettingIsSafeExactly` | `apps/tvc-gateway/src/replay.rs:310-320` | Records and releases name the key alone: after a forgetting, no run ever has two holders of one key if and only if it took no running holder's entry |
| `Operations.ForgottenHolderRunsTwice` | `apps/tvc-gateway/src/replay.rs:292-320` | Whatever phase a holder is in, once its entry is forgotten one claim makes a second holder that can reach the enclave; a first that is giving up frees the key under it for a third |
| `Operations.StepKeepsInv` | `apps/tvc-gateway/src/app.rs:268-299` | Each step keeps: one holder a key, a holder's entry present and running, and marked executed only if its holder's request went out |
| `Operations.RunKeepsInv` | `apps/tvc-gateway/src/app.rs:268-299` | The same over every run |
| `Operations.NoSecondSend` | `apps/tvc-gateway/src/app.rs:269-299` | An executed key is never sent again before its entry ends |
| `Operations.AnswerStaysOverRun` | `apps/tvc-gateway/src/replay.rs:101-121` | A recorded answer is left as it is by every other request's record and release |
| `Operations.StepExplained` | `apps/tvc-gateway/src/app.rs:269-299` | A step keeps every recorded, settling and replayed outcome traceable to an enclave answer for its key |
| `Operations.NewOncePerEntry` | `apps/tvc-gateway/src/replay.rs:48-54` | `New` goes to one request per entry: between two claims of a key that find no entry, the first claimant's own release or unkept answer, or a forgetting, ended it |
| `Operations.ClaimedOverRun` | `apps/tvc-gateway/src/replay.rs:48-54` | An entry that is gone was removed by its own claimant or forgotten, safe or not |
| `Ledger.ClaimEntry` | `apps/tvc-gateway/src/replay.rs:299-307` | A claim holds the key afterwards, says `New` exactly when nothing held it, and touches no other key |
| `Ledger.KeyNamesProjectAndCiphertext` | `apps/tvc-gateway/src/replay.rs:35-42` | Under an injective hash, two keys are equal exactly when project and ciphertext both are |
| `LocalLedger.ClaimRefines` | `apps/tvc-gateway/src/replay.rs:290-308` | A claim drops the older generation exactly when it rotates, then acts as the one-map ledger's claim; both generations stay disjoint and within `max_entries` |
| `LocalLedger.SettleRefines` | `apps/tvc-gateway/src/replay.rs:101-113` | Recording acts as the one-map ledger's step, releasing an answer above 64 KiB, and keeps the generations valid |
| `LocalLedger.ReleaseRefines` | `apps/tvc-gateway/src/replay.rs:316-320` | Releasing removes the key from the one-map view and keeps the generations valid |
| `LocalLedger.NoEntriesStillHoldsOne` | `apps/tvc-gateway/src/replay.rs:290-308` | The entry bound fails for `max_entries` 0, the one value the configuration refuses |
| `LocalLedger.NewEntryIsFoundByEveryClaim` | `apps/tvc-gateway/src/replay.rs:246-308` | After any calls, every claim finds an unreleased entry until `window` has passed or `max_entries` later new claims were made |
| `LocalLedger.RunKeeps` | `apps/tvc-gateway/src/replay.rs:260-321` | Over any calls that stay within those limits, the entry is kept and the generations stay valid |
| `LocalLedger.RunKeepsValid` | `apps/tvc-gateway/src/replay.rs:260-320` | Over any calls at any times the generations stay disjoint and within `max_entries` each, so at most twice that many entries are held |
| `LocalLedger.ForgottenExactlyByRotations` | `apps/tvc-gateway/src/replay.rs:260-308` | Over any calls that neither claim nor release it, an entry of the younger generation is held if and only if fewer than two of them are claims that rotate, one of the older if and only if none is |
| `LocalLedger.EntryOutlivesTwoWindows` | `apps/tvc-gateway/src/replay.rs:246-298` | A concrete run in which an entry of any age above two windows is still found: the one claim in between rotates once |
| `LocalLedger.QuietLedgerForgetsNothing` | `apps/tvc-gateway/src/replay.rs:290-298` | Calls that are not claims never rotate, so they forget nothing |
| `LocalLedger.LocalLedger.Claim` | `apps/tvc-gateway/src/replay.rs:290-308` | The two maps after a claim and its answer are the specification's, from the state before |
| `LocalLedger.LocalLedger.Overwrite` | `apps/tvc-gateway/src/replay.rs:310-314` | The entry of a held key becomes the outcome, in the generation that holds it; nothing else changes |
| `LocalLedger.LocalLedger.Record` | `apps/tvc-gateway/src/replay.rs:101-113` | Recording over this ledger, releasing an answer above the cap, is the one-map ledger's step |
| `LocalLedger.LocalLedger.Release` | `apps/tvc-gateway/src/replay.rs:316-320` | The key leaves both maps; nothing else changes |
| `LocalLedger.LocalLedger.RotateIfDue` | `apps/tvc-gateway/src/replay.rs:291-298` | Rotates exactly when the window is over or the younger generation full |
| `LocalLedger.LocalLedger.InsertRunning` | `apps/tvc-gateway/src/replay.rs:300-303` | A new claim's entry goes into the younger generation |
| `LocalLedger.LocalLedger.Rotate` | `apps/tvc-gateway/src/replay.rs:260-265` | The younger generation becomes the older, the older is dropped, and the clock is stamped |
| `LocalLedger.LocalLedger.Get` | `apps/tvc-gateway/src/replay.rs:267-270` | Finds the entry wherever it is |
| `LocalGateway.LocalGatewayIsSafe` | `apps/tvc-gateway/src/app.rs:268-299` | If every holder finishes within the window and before `max_entries` newer claims, every run over the in-process ledger is a safe run of the step machine and keeps one holder a key |
| `LocalGateway.StepRefines` | `apps/tvc-gateway/src/app.rs:268-299` | One step over the two generations is one safe step, or a forgetting and a claim, of the step machine |
| `LocalGateway.ClaimForgetsNoHolder` | `apps/tvc-gateway/src/replay.rs:292-298` | A timely claim's rotation takes no running holder's entry |
| `SharedLedger.RecordReadsBack` | `apps/tvc-gateway/src/replay.rs:138-165` | Every recordable outcome reads back unchanged from the JSON stored for it |
| `SharedLedger.Recordable` | `apps/tvc-gateway/src/replay.rs:139-150` | An outcome is recordable exactly when it is a failure, or its content type is visible ASCII and its body UTF-8 |
| `SharedLedger.RecordIsNotRunning` | `apps/tvc-gateway/src/replay.rs:18-18` | No stored record is the text that marks a running request |
| `SharedLedger.ParseCodeInvertsCode` | `apps/tvc-gateway/src/error.rs:112-114` | Every failure's name parses back to it, so no two failures share a name |
| `SharedLedger.SharedLedger.SetNxGet` | `apps/tvc-gateway/src/replay.rs:196-204` | The atomic command returns what the key held and writes the marker only where it held nothing |
| `SharedLedger.SharedLedger.Claim` | `apps/tvc-gateway/src/replay.rs:195-218` | The database takes the one-map ledger's claim step if the command landed and none otherwise; only a heard reply from an unheld key says `New` |
| `SharedLedger.SharedLedger.LandClaim` | `apps/tvc-gateway/src/replay.rs:195-218` | A claim's command landing is the one-map claim, and what it returns reads as the claim's answer |
| `SharedLedger.SharedLedger.SetXx` | `apps/tvc-gateway/src/replay.rs:225-231` | Writes only over a key that is there |
| `SharedLedger.SharedLedger.Record` | `apps/tvc-gateway/src/replay.rs:98-113` | The view takes the one-map ledger's step when the outcome is kept and recordable and the command landed; otherwise the claim stands |
| `SharedLedger.SharedLedger.Release` | `apps/tvc-gateway/src/replay.rs:234-238` | Deletes the key if the command landed |
| `SharedLedger.SharedLedger.Expire` | `apps/tvc-gateway/src/replay.rs:196-231` | Redis may drop only keys whose time has come, which is a forgetting of the one-map ledger |
| `SharedLedger.ClaimedView` | `apps/tvc-gateway/src/replay.rs:195-218` | What a claim reads and writes, seen through the stored texts, is the one-map claim |
| `SharedLedger.SettledView` | `apps/tvc-gateway/src/replay.rs:220-232` | What a record leaves, seen through the stored texts, is the one-map ledger's step |
| `SharedGateway.SharedGatewayIsSafe` | `apps/tvc-gateway/src/replay.rs:168-239` | With any command or reply lost, every run of all tasks together in which holders finish within the window is, event for event, a safe run of the step machine |
| `SharedGateway.NewClaimsAreApart` | `apps/tvc-gateway/src/replay.rs:168-239` | With any command or reply lost, two claims of a key that land where Redis stores nothing have an expiry of the key, or the first claimant's own landed release or unkept answer, between them |
| `SharedGateway.StepRefines` | `apps/tvc-gateway/src/replay.rs:168-239` | Each such step is that step of the step machine, and keeps every holder's key from expiring early |
| `SharedGateway.HolderStaysLive` | `apps/tvc-gateway/src/replay.rs:195-238` | After any step a holder's key is still stored and expires no sooner than a window after its claim |
| `BootProof.OneLookupPerKey` | `apps/tvc-gateway/src/turnkey.rs:95-144` | In every interleaving, cancellations included, an ephemeral key has at most one lookup under way, and its channel is the one in the flight map |
| `BootProof.FlightsAreUnderWay` | `apps/tvc-gateway/src/turnkey.rs:297-313` | Every channel in the flight map is open, of that key, and owned by a lookup still at work, so a channel closed without an answer is never there |
| `BootProof.FinishedLookupsAreNotJoined` | `apps/tvc-gateway/src/turnkey.rs:297-313` | A finished lookup, successful or not, is off the map: nobody joins it later |
| `BootProof.NoWaiterIsStranded` | `apps/tvc-gateway/src/turnkey.rs:108-118` | A waiter can always wake, or the lookup it waits for is still at work |
| `BootProof.WokenWaitersShareOrRetry` | `apps/tvc-gateway/src/turnkey.rs:108-118` | A woken waiter takes exactly what was sent on its channel, fetched for its key; if the sender left without sending, it looks again from the start |
| `BootProof.SuccessesAreCachedFirst` | `apps/tvc-gateway/src/turnkey.rs:137-141` | In every run, a success sent on a key's channel was put in the cache under that key by an earlier step |
| `BootProof.RepliesAreExplained` | `apps/tvc-gateway/src/turnkey.rs:95-144` | Every reply is an answer fetched for that very key, the caller's own refused slot, or the refusal of a malformed key |
| `BootProof.RefusalsAreNeverShared` | `apps/tvc-gateway/src/turnkey.rs:119-120` | A refused slot is only ever the refused caller's own answer |
| `BootProof.ErrorsAreNeverCached` | `apps/tvc-gateway/src/turnkey.rs:283-292` | What the cache holds for a key was fetched successfully for it, and the cache holds at most 256 proofs |
| `BootProof.StepKeepsInv` | `apps/tvc-gateway/src/turnkey.rs:95-144` | Each step keeps flights, channels, owners, waiters and answers consistent |
| `BootProof.CacheStaysSmall` | `apps/tvc-gateway/src/turnkey.rs:283-292` | Clearing at capacity keeps the cache within capacity |
| `BootProof.Turnkey.Board` | `apps/tvc-gateway/src/turnkey.rs:121-131` | A caller's channel enters the map exactly when no lookup for its key is under way, and then is the one that is |
| `BootProof.Turnkey.Land` | `apps/tvc-gateway/src/turnkey.rs:303-313` | A lookup takes its own channel off the map and no other; channels on the map and lookups under way stay one to one |
| `BootProof.Turnkey.CacheBootProof` | `apps/tvc-gateway/src/turnkey.rs:283-292` | The cache after an insertion, cleared first at capacity; it still holds only proofs fetched for their keys |
| `BootProof.Turnkey.CachedBootProof` | `apps/tvc-gateway/src/turnkey.rs:275-281` | A proof found was fetched for the very key asked for; none is found only if none is cached |
| `BootProof.Turnkey.BootProofFlight` | `apps/tvc-gateway/src/turnkey.rs:146-152` | A channel found is that of the one lookup under way for the key; none is found only if no lookup for it is under way |
| `Session.OnlyThePendingFlightBecomesActive` | `packages/tvc-wallet/src/client/session.ts:46-54` | In every interleaving, a connection becomes active only as the answer to the flight that is pending, unaborted and not reset at that step |
| `Session.ThePendingFlightBecomesActive` | `packages/tvc-wallet/src/client/session.ts:48-53` | And the answer to that flight always does |
| `Session.RetiredFlightsNeverBecomeActive` | `packages/tvc-wallet/src/client/session.ts:49-54` | A flight out of `pending`, by reset, abandonment or settling, never becomes active later, whatever its connector answers |
| `Session.ResetAndAbandonmentRetire` | `packages/tvc-wallet/src/client/session.ts:60-77` | Reset, and the last waiter leaving, take the pending flight out for good |
| `Session.AbortedExactlyByTheLastWaiter` | `packages/tvc-wallet/src/client/session.ts:60-67` | A flight is aborted exactly when its last waiter leaves while it is pending |
| `Session.UsersAreTheWaiters` | `packages/tvc-wallet/src/client/session.ts:57-63` | `users` is the number of callers waiting, and nobody waits on an aborted flight |
| `Session.CallersGetVerifiedConnections` | `packages/tvc-wallet/src/client/session.ts:41-59` | A call is served at once exactly with the active connection while it holds, which some flight's connector made; otherwise it waits on the pending flight |
| `Session.WaitersGetTheirOwnFlights` | `packages/tvc-wallet/src/client/session.ts:57-59` | What a waiter takes away is what its own flight's connector answered |
| `Session.StepKeepsInv` | `packages/tvc-wallet/src/client/session.ts:28-79` | Each step keeps pending, users, aborts and connections consistent |
| `Session.StepMovesWaiters` | `packages/tvc-wallet/src/client/session.ts:57-63` | The waiters of a flight change only by the caller that joins or leaves it |
| `Session.Session.Enter` | `packages/tvc-wallet/src/client/session.ts:37-59` | The start of `context` against its specification: served, joined or a new flight |
| `Session.Session.Connect` | `packages/tvc-wallet/src/client/session.ts:48-53` | What the connector's answer changes, with both abort checks |
| `Session.Session.Settle` | `packages/tvc-wallet/src/client/session.ts:54-54` | The flight's `finally` |
| `Session.Session.Leave` | `packages/tvc-wallet/src/client/session.ts:60-67` | A caller's `finally` |
| `Session.Session.Start` | `packages/tvc-wallet/src/client/session.ts:46-48` | An aborted flight ends without connecting |
| `Session.Session.Forget` | `packages/tvc-wallet/src/client/session.ts:70-72` | Only the connection named is dropped |
| `Session.Session.Reset` | `packages/tvc-wallet/src/client/session.ts:74-77` | Both the connection and the pending flight are dropped |
| `Enrollment.OneEnrollmentIsLive` | `packages/tvc-wallet/src/wallet/turnkey.ts:278-325` | At most one enrollment of a session key is under way and not aborted; it is the pending one, which every later caller joins |
| `Enrollment.SignedRunsToItsEnd` | `packages/tvc-wallet/src/wallet/turnkey.ts:284-325` | Once the owner's signature arrived, no run aborts the enrollment, and it stays the one callers join until it settles |
| `Enrollment.SignedNeedsNobody` | `packages/tvc-wallet/src/wallet/turnkey.ts:247-303` | A signed enrollment always has a next step that no caller is needed for |
| `Enrollment.ReceivedIsKept` | `packages/tvc-wallet/src/wallet/turnkey.ts:293-300` | Once received, a valid descriptor becomes the enrollment's outcome exactly by its publication, which leaves it the enrolled one, whoever left |
| `Enrollment.KeptIsServed` | `packages/tvc-wallet/src/wallet/turnkey.ts:310-328` | A kept descriptor serves every call that finds the margin, until it expires, runs short or another is published |
| `Enrollment.AbortedExactlyUnsigned` | `packages/tvc-wallet/src/wallet/turnkey.ts:318-324` | An enrollment is aborted exactly when its last waiter leaves while it is pending and unsigned |
| `Enrollment.AbortedNeverPublishes` | `packages/tvc-wallet/src/wallet/turnkey.ts:234-266` | An aborted enrollment never posts or publishes, even if the owner's signature arrives later |
| `Enrollment.OnlyTheSignedPendingPublishes` | `packages/tvc-wallet/src/wallet/turnkey.ts:293-300` | Only the pending enrollment, signed and not aborted, publishes |
| `Enrollment.CachedHasItsMargin` | `packages/tvc-wallet/src/wallet/turnkey.ts:280-315` | A cached descriptor is returned exactly with more than the renewal margin left, and some enrollment made it; otherwise the caller waits on the pending one |
| `Enrollment.WaitersAreCounted` | `packages/tvc-wallet/src/wallet/turnkey.ts:314-319` | `waiters` is the number of callers waiting |
| `Enrollment.WaitersGetTheirOwnEnrollment` | `packages/tvc-wallet/src/wallet/turnkey.ts:314-317` | What a waiter takes away is its own enrollment's descriptor |
| `Enrollment.StepKeepsInv` | `packages/tvc-wallet/src/wallet/turnkey.ts:268-330` | Each step keeps pending, waiters, the order of an enrollment's stages and its outcomes consistent |
| `Enrollment.SessionKey.Enter` | `packages/tvc-wallet/src/wallet/turnkey.ts:310-315` | The start of `operations`: served, joined or a new enrollment |
| `Enrollment.SessionKey.OnSigned` | `packages/tvc-wallet/src/wallet/turnkey.ts:290-292` | The signature's arrival marks the flight and nothing else |
| `Enrollment.SessionKey.Publish` | `packages/tvc-wallet/src/wallet/turnkey.ts:293-297` | The descriptor is kept |
| `Enrollment.SessionKey.Settle` | `packages/tvc-wallet/src/wallet/turnkey.ts:298-300` | The enrollment's `finally` |
| `Enrollment.SessionKey.Leave` | `packages/tvc-wallet/src/wallet/turnkey.ts:318-324` | A caller's `finally` |
| `Enrollment.SessionKeys.Current` | `packages/tvc-wallet/src/wallet/turnkey.ts:334-346` | None without a session; else the public key's one closure, made at its first call for that session's organization and never replaced, so its callers share one enrollment |
| `Enrollment.SessionKey.Expire` | `packages/tvc-wallet/src/wallet/turnkey.ts:326-328` | Only the descriptor named is dropped |
| `SigningAlone.CallsNeverOverlap` | `packages/tvc-wallet/src/wallet/turnkey.ts:123-130` | Each call is chained only on the one before it; in every run at most one is running, every earlier one is over, and it found the application's key; its own key is in the stamper exactly if the application set no other since it began |
| `SigningAlone.ChainReachesBack` | `packages/tvc-wallet/src/wallet/turnkey.ts:126-129` | That the call before is over means that all before are |
| `SigningAlone.CallsEndInOrder` | `packages/tvc-wallet/src/wallet/turnkey.ts:126-129` | A call that began has every earlier one over |
| `SigningAlone.BaseIsBackBetweenCalls` | `packages/tvc-wallet/src/wallet/turnkey.ts:117-122` | Between calls the stamper holds the key the application last set between calls |
| `SigningAlone.ChosenKeyStaysExactly` | `packages/tvc-wallet/src/wallet/turnkey.ts:117-122` | The key the application sets last is in the stamper once no call runs if and only if it was set between calls, or is the very key the running call puts back |
| `SigningAlone.OverlappingCallsPinTheKey` | `packages/tvc-wallet/src/wallet/turnkey.ts:117-122` | Two overlapping calls would leave the stamper on the first call's key |
| `SigningAlone.StepKeepsInv` | `packages/tvc-wallet/src/wallet/turnkey.ts:123-130` | Each step, the application's own writes at any time included, keeps calls in order and the stamper explained |
| `Jcs.CanonicalTextNamesValue` | `crates/protocol/src/encoding.rs:275-341` | Two float-free values have one canonical text exactly when they are equal with objects taken as maps, whatever the member order |
| `Json.PrintInjective` | `crates/protocol/src/encoding.rs:283-341` | Compact text is uniquely readable: no two float-free values print alike |
| `Json.PrintUnique` | `crates/protocol/src/encoding.rs:303-341` | No text begins with two values |
| `Json.StringTailUnique` | `crates/protocol/src/encoding.rs:283-301` | A quoted string ends where it ends: no two strings share an escaped text |
| `Jcs.SortSorted` | `crates/protocol/src/encoding.rs:326-327` | Members come in UTF-16 order of their keys |
| `Jcs.SortedUnique` | `crates/protocol/src/encoding.rs:326-327` | Members of distinct keys have one order |
| `Jcs.CanonFloatFree` | `crates/protocol/src/encoding.rs:303-341` | Ordering members adds no float |
| `JcsWriters.JcsWriter.AppendJsonString` | `crates/protocol/src/encoding.rs:283-301` | The loop appends exactly the quoted form |
| `JcsWriters.JcsWriter.AppendJcs` | `crates/protocol/src/encoding.rs:303-341` | Appends exactly the canonical text, and refuses exactly a value that holds a float |
| `JcsWriters.JcsWriter.AppendItems` | `crates/protocol/src/encoding.rs:315-324` | The array loop |
| `JcsWriters.JcsWriter.AppendMember` | `crates/protocol/src/encoding.rs:330-335` | One member of the object loop, with its separator |
| `JcsWriters.JcsWriter.AppendMembers` | `crates/protocol/src/encoding.rs:325-338` | The object loop over sorted keys |
| `JcsWriters.CanonicalizeJsonValue` | `crates/protocol/src/encoding.rs:343-348` | The whole Rust canonicalizer: text or refusal |
| `JsWriter.CanonicalizeJsValue` | `packages/tvc-wallet/src/protocol/jcs.ts:80-84` | The whole TypeScript canonicalizer: text or refusal, and for a Rust value's JavaScript form the Rust text in UTF-16 |
| `JsWriter.Writer.AppendJsonString` | `packages/tvc-wallet/src/protocol/jcs.ts:3-18` | Pushes exactly the quoted form |
| `JsWriter.Writer.AppendJcs` | `packages/tvc-wallet/src/protocol/jcs.ts:32-78` | Pushes exactly the canonical text, and throws exactly for a value that holds a number that is no integer |
| `JsWriter.Writer.AppendItems` | `packages/tvc-wallet/src/protocol/jcs.ts:56-64` | The array loop |
| `JsWriter.Writer.AppendMember` | `packages/tvc-wallet/src/protocol/jcs.ts:68-73` | One member of the object loop, with its separator |
| `JsWriter.Writer.AppendMembers` | `packages/tvc-wallet/src/protocol/jcs.ts:65-76` | The object loop over sorted keys |
| `JsWriter.SortByKey` | `packages/tvc-wallet/src/protocol/jcs.ts:66-66` | Sorting by `utf16Cmp` gives the members in the one canonical order |
| `JsWriter.InsertByKey` | `packages/tvc-wallet/src/protocol/jcs.ts:20-30` | One comparison at a time, `utf16Cmp` finds a member's place |
| `JsWriter.InUtf16IsJs` | `packages/tvc-wallet/src/protocol/jcs.ts:32-78` | Every Rust value has a JavaScript form the printer takes |
| `JcsWriters.AppendJsonStringUnits` | `packages/tvc-wallet/src/protocol/jcs.ts:3-18` | Walking code points of a JavaScript string, lone surrogates included, appends the same quoted form |
| `JcsWriters.Utf16Cmp` | `packages/tvc-wallet/src/protocol/jcs.ts:20-30` | Negative exactly for an earlier key in UTF-16 order, zero exactly for equal keys |
| `JcsWriters.SortCommutes` | `crates/protocol/src/encoding.rs:326-335` | Printing sorted members equals sorting printed ones |
| `JcsWriters.PrintersAgree` | `packages/tvc-wallet/src/protocol/jcs.ts:32-84` | The Rust canonical text in UTF-16 is the TypeScript canonical text of the same value |
| `JcsWriters.PrintUtf16` | `packages/tvc-wallet/src/protocol/jcs.ts:3-78` | The same for compact text in any member order |
| `Encodings.LowerHexIsCanonical` | `crates/protocol/src/encoding.rs:13-23` | `decode_lower_hex` accepts exactly the encodings, each for its bytes |
| `Encodings.DecimalU64IsCanonical` | `crates/protocol/src/encoding.rs:32-52` | `decode_decimal_u64` accepts exactly the canonical decimals below 2^64 |
| `Encodings.CanonicalTextIsAcceptedExactly` | `crates/protocol/src/encoding.rs:350-368` | `is_rfc8785` accepts a value's canonical text if and only if the parser can hold the value: integers from -2^63 up to 2^64, Rust strings, at most 127 arrays and objects deep |
| `Encodings.Rfc8785AcceptsCanonicalTexts` | `crates/protocol/src/encoding.rs:350-368` | `is_rfc8785` accepts exactly the canonical texts of such values |
| `Encodings.TwoToThe64IsRefused` | `crates/protocol/src/encoding.rs:303-313` | 2^64 has a canonical text, and it is refused: the parser makes a float of it |
| `SameBytes.CanonicalBytesAgree` | `packages/tvc-wallet/src/protocol/jcs.ts:80-84` | Both languages canonicalize one value to the same UTF-8 bytes |
| `SameBytes.DigestsAgree` | `packages/tvc-wallet/src/protocol/digest.ts:18-25` | So their domain-separated digests of it are equal |
| `SameBytes.TextEncodeOfUtf16` | `packages/tvc-wallet/src/protocol/digest.ts:16-25` | `TextEncoder` gives a Rust string's UTF-8 from its JavaScript form |
| `Unicode.FromUtf8OfUtf8` | `apps/tvc-gateway/src/replay.rs:144-161` | Strict UTF-8 decoding inverts encoding |
| `Unicode.Utf16Injective` | `crates/protocol/src/encoding.rs:275-281` | Two Rust strings with one UTF-16 form are equal |
| `Digest.DigestNamesDomainAndPayload` | `crates/protocol/src/digest.rs:14-20` | Under an injective hash, two digests are equal exactly when domain and payload both are |
| `Digest.KindsNeverCoincide` | `crates/protocol/src/constants.rs:15-24` | Digests of two of the nine domains never coincide, whatever they digest |
| `Digest.ClientAuthNamesRequest` | `crates/protocol/src/digest.rs:46-58` | What a client key signs names one request digest, and is never a domain-separated digest |
| `Digest.RecordsAlike` | `crates/protocol/src/digest.rs:27-105` | Structs of one shape print alike exactly when each field does |
| `Digest.RemoveLastField` | `crates/protocol/src/digest.rs:27-105` | Removing the signature leaves every other field in place |
| `RequestDigests.RequestDigestNamesRequest` | `crates/protocol/src/digest.rs:27-44` | Two requests have equal digests exactly when they agree on every field but the signature |
| `RequestDigests.DescriptorDigestNamesDescriptor` | `crates/protocol/src/digest.rs:61-73` | Two descriptors have equal digests exactly when they agree on all but the provisioning signature |
| `RequestDigests.WalletBindingNamesWallet` | `crates/protocol/src/digest.rs:78-91` | Two descriptors have equal wallet bindings exactly when the five wallet fields agree |
| `RequestDigests.GrantDigestNamesGrant` | `crates/protocol/src/digest.rs:94-105` | Two grants have equal digests exactly when they agree on all but the signature |
| `RequestDigests.OperationAlike` | `crates/protocol/src/digest.rs:27-44` | Two operations, of whatever kinds and items, print alike exactly when they are the same |
| `RequestDigests.OnlyFloatsHaveNoDigest` | `crates/protocol/src/digest.rs:27-44` | A request has a digest exactly when no JSON inside its `Prove` holds a float |
| `JsonScan.GrammaticalTextScans` | `packages/tvc-wallet/src/protocol/json.ts:46-105` | Every grammatical JSON text, with any layout and escapes, passes the scan with all of it consumed exactly when no object at any depth repeats an unescaped key; otherwise the error is the duplicate |
| `JsonScan.ParseStringInvertsQuote` | `packages/tvc-wallet/src/protocol/json.ts:8-44` | `parseString` inverts `appendJsonString` for every string, whatever follows |
| `JsonScan.ScanStringText` | `packages/tvc-wallet/src/protocol/json.ts:8-44` | A string in any mix of raw characters and escapes reads back as its unescaped value |
| `JsonScan.ScanDoc` | `packages/tvc-wallet/src/protocol/json.ts:46-94` | The same for one value before anything that ends it |
| `JsonScan.FreshMeansDistinct` | `packages/tvc-wallet/src/protocol/json.ts:52-58` | The set of keys seen so far detects exactly a pairwise repeat |
| `JsonScan.ParseIntOfHex` | `packages/tvc-wallet/src/protocol/json.ts:32-37` | On four hex digits, `parseInt` and `fromCharCode` give the unit they write |
| `CanonicalScan.CompactTextScans` | `packages/tvc-wallet/src/protocol/json.ts:46-105` | The scan of a value's compact text passes exactly when no object in the value repeats a key |
| `CanonicalScan.DocOfRenders` | `packages/tvc-wallet/src/protocol/jcs.ts:32-78` | Compact text is grammatical text |
| `JsonScanner.SkipWhitespace` | `packages/tvc-wallet/src/protocol/json.ts:3-6` | The index loop, against the specification on the rest of the text |
| `JsonScanner.ParseString` | `packages/tvc-wallet/src/protocol/json.ts:8-44` | The index loop with its escapes, which may step past the end, against the specification |
| `JsonScanner.ParseEscape` | `packages/tvc-wallet/src/protocol/json.ts:15-39` | One escape, against the specification |
| `JsonScanner.ParseValue` | `packages/tvc-wallet/src/protocol/json.ts:46-94` | The recursive scan by index, against the specification |
| `JsonScanner.ParseMembers` | `packages/tvc-wallet/src/protocol/json.ts:52-70` | The member loop with its set of seen keys |
| `JsonScanner.ParseItems` | `packages/tvc-wallet/src/protocol/json.ts:76-86` | The item loop |
| `JsonScanner.ParseSeparator` | `packages/tvc-wallet/src/protocol/json.ts:62-69` | What follows a member or an item, against the specification |
| `JsonScanner.CheckExactKeys` | `packages/tvc-wallet/src/protocol/json.ts:107-113` | With distinct keys on both sides, passes exactly when the key sets are equal, and names an unknown field exactly when one is not listed |
| `JsonScanner.ParseStrictJson` | `packages/tvc-wallet/src/protocol/json.ts:101-115` | Accepts exactly when the scan passes, `JSON.parse` accepts, and an object's keys are the exact ones |
| `JsonScanner.DistinctKeysCount` | `packages/tvc-wallet/src/protocol/json.ts:107-113` | Distinct keys number as many as their set |
| `CborRoundTrip.DecodeInvertsEncode` | `packages/tvc-wallet/src/verify/internal/cbor.ts:119-189` | Decoding the encoding of any value within depth 16 gives the value back |
| `CborRoundTrip.OnlyEncodingsDecode` | `packages/tvc-wallet/src/verify/internal/cbor.ts:119-189` | An untagged input is accepted exactly when it is the one encoding of the value it decodes to |
| `CborRoundTrip.TaggedInput` | `packages/tvc-wallet/src/verify/internal/cbor.ts:168-189` | A tagged input is the COSE_Sign1 head before the encoding of its value |
| `CborRoundTrip.IndefiniteRootIsItsDefiniteMap` | `packages/tvc-wallet/src/verify/internal/cbor.ts:79-95` | An indefinite root map is accepted exactly when it frames at most 32 entries, and is the map they make under a definite head |
| `CborRoundTrip.EntryPointsAgree` | `packages/tvc-wallet/src/verify/internal/cbor.ts:184-197` | The two entry points agree on every input not starting with 0xbf |
| `CborRoundTrip.DeclaredItemsNeedBytes` | `packages/tvc-wallet/src/verify/internal/cbor.ts:151-167` | A head that declares more items or entries than there are bytes is refused |
| `Cbor.ReadIsHead` | `packages/tvc-wallet/src/verify/internal/cbor.ts:98-117` | Only the shortest form of a head is read |
| `CborRoundTrip.ReadIsEncoding` | `packages/tvc-wallet/src/verify/internal/cbor.ts:119-180` | Whatever is read from the front of an input is the encoding of what was read |
| `CborReader.Reader.Take` | `packages/tvc-wallet/src/verify/internal/cbor.ts:59-66` | Takes exactly the bytes asked for, or fails without reading past the end |
| `CborReader.Reader.TakeByte` | `packages/tvc-wallet/src/verify/internal/cbor.ts:68-73` | Takes the next byte, or fails at the end |
| `CborReader.Reader.NextIsBreak` | `packages/tvc-wallet/src/verify/internal/cbor.ts:75-77` | Looks without reading past the end |
| `CborReader.Reader.ReadArgument` | `packages/tvc-wallet/src/verify/internal/cbor.ts:98-117` | The argument loop against the specification |
| `CborReader.Reader.ReadValue` | `packages/tvc-wallet/src/verify/internal/cbor.ts:119-180` | The reader's offset and value after a read are the specification's, so it terminates within the input |
| `CborReader.Reader.ReadArray` | `packages/tvc-wallet/src/verify/internal/cbor.ts:151-155` | The array loop |
| `CborReader.Reader.ReadMap` | `packages/tvc-wallet/src/verify/internal/cbor.ts:156-167` | The map loop, refusing a key already there |
| `CborReader.Reader.IndefiniteRootMap` | `packages/tvc-wallet/src/verify/internal/cbor.ts:79-95` | The loop to the break byte |
| `CborReader.Decode` | `packages/tvc-wallet/src/verify/internal/cbor.ts:184-197` | Both entry points, refusing trailing bytes |
| `CborReader.EncodeHeadIsHead` | `packages/tvc-wallet/src/verify/internal/cbor.ts:199-217` | The shifts and masks write exactly the head the reader accepts |
| `CborReader.EncodeCoseSigStructure` | `packages/tvc-wallet/src/verify/internal/cbor.ts:223-234` | Its bytes are the encoding of the four-part array |
| `CborReader.SigStructureNamesItsParts` | `packages/tvc-wallet/src/verify/internal/cbor.ts:219-234` | They decode to those four parts, and two triples of arguments share them exactly when equal |
| `CborReader.RoundTripKeepsTextExactly` | `packages/tvc-wallet/src/verify/internal/cbor.ts:149-150` | Seen as JavaScript strings, the round trip keeps a value exactly when no text in it begins with a byte-order mark |
| `CborReader.MarkedTextHasTwoEncodings` | `packages/tvc-wallet/src/verify/internal/cbor.ts:149-150` | Two inputs whose decoded text JavaScript cannot tell apart |
| `RequestSize.CanonicalSize` | `packages/tvc-wallet/src/client/operation-executor.ts:183-186` | The bytes of a canonical text add up member by member, in whatever order members came, lone surrogates included |
| `RequestSize.SizeIsWire` | `packages/tvc-wallet/src/client/operation-executor.ts:183-186` | The same for compact text |
| `RequestSize.TextEncodeConcat` | `packages/tvc-wallet/src/client/operation-executor.ts:183-186` | Encoding text piece by piece is encoding it whole, unless a surrogate pair straddles the cut |
| `Executor.PredictionIsExact` | `packages/tvc-wallet/src/client/operation-executor.ts:242-252` | For every request, descriptor, grant, backend, key, nonce and signature, the size predicted before signing is the size of the real encrypted, hex-encoded, canonicalized envelope |
| `Executor.GatewayGrantFits` | `packages/tvc-wallet/src/client/backend.ts:82-83` | Any grant a gateway issues for a project id of at most 64 plain characters fits the room left for it |
| `Executor.SignatureSize` | `packages/tvc-wallet/src/client/operation-executor.ts:242-247` | A signature's width alone decides the signed request's size |
| `Executor.EnvelopeSize` | `packages/tvc-wallet/src/client/operation-executor.ts:169-186` | The envelope grows by exactly the ciphertext's hex |
| `Executor.PrepareRequest` | `packages/tvc-wallet/src/client/operation-executor.ts:195-272` | The signer is asked exactly when nothing refuses and the request is built; the answer, checked, decides unless the signal aborts the wait; every failure after the secret was drawn wipes it |
| `Executor.BuildRequest` | `packages/tvc-wallet/src/client/operation-executor.ts:221-252` | A request is built only if it fits once signed, with the sealed seed's canonical hex and no signature |
| `Executor.TooLargeExactly` | `packages/tvc-wallet/src/client/operation-executor.ts:242-252` | For every signature, ephemeral key and nonce: the size check before signing refuses exactly an otherwise well-formed request whose real envelope, so signed and sealed, is over the limit |
| `Executor.AskSigner` | `packages/tvc-wallet/src/client/operation-executor.ts:253-267` | A signed request carries a signature its grant's key verifies, and nothing else changed |
| `Executor.SealSigned` | `packages/tvc-wallet/src/client/operation-executor.ts:336-342` | A request that was checked to fit seals to an envelope that fits, unless the quorum key does not parse |
| `Executor.SealRequest` | `packages/tvc-wallet/src/client/operation-executor.ts:322-342` | `RequestTooLarge` comes exactly from the check before signing, never after it; what is sealed fits; the secret is wiped at the end |
| `Executor.Wipe` | `packages/tvc-wallet/src/client/operation-executor.ts:268-271` | Every byte is zero afterwards |
| `Qos.DecodeInvertsEncodeExactly` | `packages/tvc-wallet/src/crypto/qos.ts:92-124` | An envelope decodes to its parts exactly when its message holds a tag and its length fits 32 bits |
| `Qos.OnlyEncodingsDecode` | `packages/tvc-wallet/src/crypto/qos.ts:108-124` | What decodes is the one encoding of its parts |
| `Qos.AadNamesBothKeys` | `packages/tvc-wallet/src/crypto/qos.ts:56-68` | The associated data names both keys |
| `Qos.DecryptInvertsEncryptExactly` | `packages/tvc-wallet/src/crypto/qos.ts:126-174` | The receiver decrypts what was encrypted for it, exactly while the sealed length fits 32 bits |
| `Qos.U32LeReadsBack` | `packages/tvc-wallet/src/crypto/qos.ts:70-90` | A length reads back modulo 2^32 |
| `Qos.EncodeEnvelope` | `packages/tvc-wallet/src/crypto/qos.ts:92-106` | Writing at offsets gives the layout |
| `Qos.EncodeAad` | `packages/tvc-wallet/src/crypto/qos.ts:56-68` | Writing at offsets gives the associated data |
| `Qos.Set` | `packages/tvc-wallet/src/crypto/qos.ts:100-105` | Copies the part to its offset and leaves every other byte |
| `Batching.Batched` | `packages/tvc-wallet/src/wallet/keys.ts:303-330` | Whatever the backend answers: items are served once, in order, in calls of 1 to 256 items, at most twice as many calls as items; a failure is the last call's own |
| `Batching.Send` | `packages/tvc-wallet/src/wallet/keys.ts:308-325` | One chunk, halved while it is too large |
| `Batching.BatchedItems` | `packages/tvc-wallet/src/wallet/keys.ts:303-330` | With a backend that answers item by item, the result is the item-wise map; `RequestTooLarge` escapes only if some single item does not fit, and nothing fails if the backend never does |
| `Batching.BatchingIsItemWise` | `packages/tvc-wallet/src/wallet/keys.ts:308-325` | The answers of the calls, in order, are the map of the items they served |
| `ProveRetry.WalletKeys.SealAndProve` | `packages/tvc-wallet/src/wallet/keys.ts:251-276` | At most two turns, whatever download, sealing or submission fails; the second comes exactly when the first was stale; its attestation is its own, and its policy is the one it downloads, or the first turn's if that download fails before that policy expires; it has neither exactly when the caller aborts, the fetch fails, or no file is read and the first turn's has expired; the last turn decides what is held |
| `ProveRetry.SecondTurnPolicyExactly` | `packages/tvc-wallet/src/wallet/prover-policy.ts:72-119` | After a stale turn the next has a policy if and only if its caller stays and a file is read or the first turn's has not expired at that time, and it is the file read if there is one, the first turn's otherwise |
| `ProveRetry.FailedDownloadSealsUnderTheSamePolicy` | `packages/tvc-wallet/src/wallet/prover-policy.ts:90-118` | A concrete stale turn and second turn whose download fails: both seal under the policy held since before, and the proof succeeds |
| `ProveRetry.HeldIsTheLastRead` | `packages/tvc-wallet/src/wallet/prover-policy.ts:72-119` | Over any calls, failed downloads and invalidations, the file held is always the last one read |
| `ProveRetry.OutageServesUntilExpiry` | `packages/tvc-wallet/src/wallet/prover-policy.ts:106-118` | However many downloads fail, with any invalidations between, the held file is given to each caller that stays until it expires, and to none once it has |
| `ProveRetry.GivenExactly` | `packages/tvc-wallet/src/wallet/prover-policy.ts:106-119` | A caller the held file is not in force for gets one if and only if a file is read or the held one has not expired, and gets the one read if there is one |
| `ProveRetry.ReadPolicy` | `packages/tvc-wallet/src/wallet/prover-policy.ts:149-175` | A file is read only unexpired, with an age of at least one second, and expires with the earlier of its two parts |
| `ProveRetry.ProverPolicy.GetCurrent` | `packages/tvc-wallet/src/wallet/prover-policy.ts:72-87` | Serves the held file while in force and asks for a new one otherwise; what it gives is held and unexpired when it was looked at |
| `ProveRetry.ProverPolicy.Refresh` | `packages/tvc-wallet/src/wallet/prover-policy.ts:106-119` | Holds the file read, renews the unexpired held one on failure, and changes nothing when abandoned or refused |
| `ProveRetry.ProverPolicy.Invalidate` | `packages/tvc-wallet/src/wallet/prover-policy.ts:90-92` | The held file stays and is never in force |
| `ProveRetry.WalletKeys.ForgetProver` | `packages/tvc-wallet/src/wallet/keys.ts:297-300` | The attestation is dropped; the policy stays held, to be asked for anew |
| `ProveRetry.WalletKeys.Attest` | `packages/tvc-wallet/src/wallet/keys.ts:278-294` | A held attestation is used only when not asked for a fresh one and still reusable; a failed fetch leaves what is held |
| `ProveRetry.ReusableBeforeExpiry` | `packages/tvc-wallet/src/wallet/prover-policy.ts:135-137` | An attestation that may be reused is younger than the policy allows and used before the policy expires |
| `ProveRetry.ReuseMs` | `packages/tvc-wallet/src/wallet/prover-policy.ts:135-137` | An attestation is reused no longer than the policy's age and never past its expiry |
| `Prove.CompletionFillsExactlyTheOpenSlots` | `apps/privacy-wallet/src/operations/prove.rs:109-164` | At every path, the completed request holds the secret if the path was an open slot, an object or array of the same members above one, and the submitted value everywhere else |
| `Prove.OpenSlotsAreReal` | `apps/privacy-wallet/src/operations/prove.rs:122-163` | An accepted request has an open slot, and every open input slot is a real input's |
| `Prove.FieldHexIsTheInteger` | `apps/privacy-wallet/src/operations/prove.rs:85-91` | A secret is written as its big-endian integer in hex without leading zeros |
| `ProveSteps.ScrubClearsEveryFilledSlot` | `apps/privacy-wallet/src/operations/prove.rs:272-285` | Scrubbing the completed request clears every slot that was filled |
| `ProveSteps.ProverRequest.Complete` | `apps/privacy-wallet/src/operations/prove.rs:109-164` | Accepts exactly the requests whose slots can be filled and at least one is open, and leaves the completed tree |
| `ProveSteps.ProverRequest.Fill` | `apps/privacy-wallet/src/operations/prove.rs:93-103` | Fills an open slot and counts it, keeps a text, refuses anything else |
| `ProveSteps.ProverRequest.FillInput` | `apps/privacy-wallet/src/operations/prove.rs:131-143` | One input, refusing an open slot in a dummy |
| `ProveSteps.ProverRequest.FillInputs` | `apps/privacy-wallet/src/operations/prove.rs:124-144` | The loop over inputs: accepted exactly when every input is, counting none exactly when none is open |
| `ProveSteps.ProverRequest.Scrub` | `apps/privacy-wallet/src/operations/prove.rs:272-285` | Every nullifier secret slot that holds text is emptied |
| `ProveSteps.OneTargetPerKey` | `apps/privacy-wallet/src/operations/prove.rs:263-270` | The one target the enclave takes for a proving key is the client's `proverTarget` |
| `ProveSteps.CheckProve` | `packages/tvc-wallet/src/wallet/operations.ts:131-166` | The client accepts exactly the well-formed sealings of requests with an open slot whose target the enclave's `check_target` takes for its own `proving_key` |
| `ProveSteps.CheckSealing` | `packages/tvc-wallet/src/wallet/operations.ts:132-142` | A sealing passes exactly with its four members, a policy of two signed parts, a 32-byte lowercase-hex nonce and an attestation object |
| `ProveSteps.CheckSignedPolicy` | `packages/tvc-wallet/src/wallet/operations.ts:134-140` | The policy's two parts, each a text payload and a list of signatures |
| `ProveSteps.AssertExactObjectKeys` | `packages/tvc-wallet/src/client/http.ts:79-94` | Passes exactly an object whose members are those expected |
| `ProveSteps.CheckOpen` | `packages/tvc-wallet/src/wallet/operations.ts:143-161` | Passes exactly a request of a known circuit, of 1 to 52 inputs, with a slot open |
| `ProveSteps.ProvingKeyName` | `packages/tvc-wallet/src/wallet/prover.ts:66-73` | The client's key name is the enclave's, and it throws where the enclave refuses |
| `ProveSteps.CompletableLeavesOpen` | `packages/tvc-wallet/src/wallet/operations.ts:143-161` | The client refuses no request for want of open slots that the enclave would complete |
| `ProveSteps.Seal` | `apps/privacy-wallet/src/operations/prove.rs:201-229` | Seals exactly the completed request's text, to the attested key and the checked target; a refused prover is reported only after the target passed, and encryption that fails is no refusal of the request |
| `ReleasePolicy.VerifySignedReleasePolicy` | `crates/protocol/src/release.rs:50-117` | Accepts exactly when the header passes, pinned ids are distinct, every signature with a pinned id occurring once verifies, and these number between the threshold and 255 |
| `ReleasePolicy.JsVerifySignedReleasePolicy` | `packages/tvc-wallet/src/verify/release-policy.ts:27-90` | The mirrored verifier accepts exactly the same without the upper bound |
| `ReleasePolicy.VerifiersAgreeExactly` | `packages/tvc-wallet/src/verify/release-policy.ts:22-90` | The Rust verifier accepts exactly what the TypeScript one accepts with at most 255 counted signatures |
| `ReleasePolicy.VerifiersDifferPast255` | `crates/protocol/src/release.rs:99-112` | With 256 pinned authorities that each sign once, the TypeScript verifier accepts and the Rust one refuses |
| `ReleasePolicy.AcceptedMeansEndorsed` | `crates/protocol/src/release.rs:99-116` | An accepted policy has at least the threshold of distinct pinned signers, each with a good signature of its digest |
| `ReleasePolicy.PolicyDigestNamesPolicy` | `crates/protocol/src/release.rs:38-41` | Authorities sign the whole policy: two digests are equal exactly when every field is |
| `ReleasePolicy.PolicyDigestsAgree` | `packages/tvc-wallet/src/verify/release-policy.ts:18-20` | Both verifiers check one digest |
| `ReleasePolicy.PinnedKeys` | `crates/protocol/src/release.rs:81-89` | The map of pinned keys exists exactly when their ids are distinct |
| `ReleasePolicy.Duplicates` | `crates/protocol/src/release.rs:91-97` | Collects exactly the ids that occur twice |
| `ReleasePolicy.CountAccepted` | `crates/protocol/src/release.rs:99-112` | Counts the signatures that count, stopping at a bad one or past the bound |
| `ReleasePolicy.Check` | `crates/protocol/src/release.rs:101-108` | Decides whether a signature counts and is good |
| `ReleasePolicy.OnceOrTwice` | `crates/protocol/src/release.rs:91-104` | An id is not among the duplicates exactly when it occurs once |
| `Custody.SignWithApproval` | `apps/privacy-wallet/src/custody.rs:123-204` | Against any replies: at most eleven submissions, all but the last denied, then only queries of the one activity answered; the last reply decides the outcome |
| `Custody.Submissions` | `apps/privacy-wallet/src/custody.rs:129-157` | The submit loop: a denial is retried at most ten times with a fresh timestamp, anything else ends it |
| `Custody.NoSubmissionAfterAnAnswer` | `apps/privacy-wallet/src/custody.rs:136-203` | A submission follows another only if that one was denied; after an answer there are only queries |
| `Custody.SuccessIsTheSubmittedActivity` | `apps/privacy-wallet/src/custody.rs:158-185` | Success comes exactly from a completed activity with a result whose id, organization, type and intent are those submitted |
| `Custody.SignRaw` | `apps/privacy-wallet/src/custody.rs:83-118` | A signature comes exactly from a success whose two halves decode to 32 bytes each, and is both in order |

## Left out

- HTTP routing, transports, metrics, configuration files, OpenAPI and command lines: plumbing.
- P-256, Ed25519, AES-GCM, HPKE, SHA-2, Nitro certificate chains, and the Turnkey, QOS and prover SDKs: opaque functions under stated assumptions.
- `serde_json` and `JSON.parse`: assumed to read back what was printed, within the integers and nesting they hold (`Encodings.Reads`, `SharedLedger.ReadsRecords`); the TypeScript `isRfc8785` has the limits of `JSON.parse` instead, and is not modelled; `JsonScanner.ParseStrictJson` takes `JSON.parse`'s answer as an argument.
- Numbers that are not integers: canonical JSON refuses them. On the TypeScript side integers are safe integers; a number that prints with an exponent is not part of the model. Negative zero, which TypeScript prints as `0`, is the integer 0.
- Stack depth: `parseValue` and `append_jcs` recurse on nesting, and a document deep enough to exhaust the stack is not modelled.
- Redis and its connection manager: commands are atomic, a key expires no sooner than it was set to, and only the ledger writes its keys.
- The ownership check and grant of `/operations`: their result is nondeterministic, as any refusal.
- Pruning in the in-flight limiter: whether slots are granted is nondeterministic.
- A cached Boot Proof is never fetched again: not claimed, because the cache is read and the flight map joined in separate steps, and the cache is cleared at capacity.
- Liveness and wall-clock timeouts: a timeout is a cancellation that may come at any time. `BootProof.NoWaiterIsStranded` and `Enrollment.SignedNeedsNobody` say only that a step is always enabled.
- Choosing the wallet account to enroll and the field checks of an enrolled descriptor: a descriptor that fails them is a failed answer.
- Verifying the enclave's response and App Proof, release bindings and discovery: equality checks settled by reading one branch.
- The attestation and policy verification a `Prove` request carries: whether the prover is trusted, and encryption to its key, are arguments of `ProveSteps.Seal`.
- Fetching and parsing the prover policy file: `ProveRetry` takes how each download ended; a file of the wrong shape is a failed download. One proof runs at a time, so neither a download shared by concurrent callers nor an abort between a download's end and its caller's waking is modelled.
- Request fields are bytes in `Executor`, where TypeScript carries their hex and decimal texts; what is signed and measured is the printed text.
- Dropping a custody request while it sleeps between queries: `Custody` runs each request to its end.
- The signal's timing in `Executor`: it aborts at one of the awaits; which error wins when the signer fails at the same moment is not modelled.
- The member order of standard sorting functions: one insertion sort stands for both; sorting distinct keys has one result (`Jcs.SortedUnique`).
- Object identity of flights and connections: flights are numbered in the order they are made, and a connection carries an identity.
- Zeroizing secrets: `ProveSteps.ProverRequest.Scrub` and `Executor.Wipe` say what the cleared values are, not that no copy was left in memory.
