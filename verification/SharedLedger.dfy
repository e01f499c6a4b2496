/** The ledger every gateway task shares through Redis, one text per key. */
module SharedLedger {
  import opened Basics
  import opened Unicode
  import opened Json
  import opened Jcs
  import opened Ledger

  // Texts are written by atomic commands and dropped by Redis no sooner than they were
  // set to expire.

  const RUNNING := Name("running")

  // Failures by name.

  function Code(e: ApiError): string {
    match e
    case InvalidJson => "InvalidJson"
    case InvalidEnrollmentRequest => "InvalidEnrollmentRequest"
    case StaleEnrollment => "StaleEnrollment"
    case InvalidOwnerEnrollmentSignature => "InvalidOwnerEnrollmentSignature"
    case OriginAuthRequired => "OriginAuthRequired"
    case ProjectRequired => "ProjectRequired"
    case ApiKeyRequired => "ApiKeyRequired"
    case ApiKeyInvalid => "ApiKeyInvalid"
    case WaasNotEnabled => "WaasNotEnabled"
    case InvalidDescriptor => "InvalidDescriptor"
    case DescriptorExpired => "DescriptorExpired"
    case ClientKeyRevoked => "ClientKeyRevoked"
    case WalletNotOwned => "WalletNotOwned"
    case SubOrganizationNotOwned => "SubOrganizationNotOwned"
    case TurnkeyRejected => "TurnkeyRejected"
    case NotFound => "NotFound"
    case OperationInProgress => "OperationInProgress"
    case RequestTooLarge => "RequestTooLarge"
    case TooManyInFlight => "TooManyInFlight"
    case EnclaveUnavailable => "EnclaveUnavailable"
    case InvalidEnclaveAnswer => "InvalidEnclaveAnswer"
    case UpstreamResponseTooLarge => "UpstreamResponseTooLarge"
    case BootProofUnavailable => "BootProofUnavailable"
    case TurnkeyUnavailable => "TurnkeyUnavailable"
    case TurnkeyUnauthorized => "TurnkeyUnauthorized"
    case TurnkeyRateLimited => "TurnkeyRateLimited"
    case ReplayGuardUnavailable => "ReplayGuardUnavailable"
    case ProvisionerUnavailable => "ProvisionerUnavailable"
    case WalletGrantUnavailable => "WalletGrantUnavailable"
    case ApiKeyLookupUnavailable => "ApiKeyLookupUnavailable"
    case ClockUnavailable => "ClockUnavailable"
    case ReleaseExpired => "ReleaseExpired"
  }

  const ALL_ERRORS := [
    InvalidJson, InvalidEnrollmentRequest, StaleEnrollment, InvalidOwnerEnrollmentSignature,
    OriginAuthRequired, ProjectRequired, ApiKeyRequired, ApiKeyInvalid, WaasNotEnabled,
    InvalidDescriptor, DescriptorExpired, ClientKeyRevoked, WalletNotOwned,
    SubOrganizationNotOwned, TurnkeyRejected, NotFound, OperationInProgress, RequestTooLarge,
    TooManyInFlight, EnclaveUnavailable, InvalidEnclaveAnswer, UpstreamResponseTooLarge,
    BootProofUnavailable, TurnkeyUnavailable, TurnkeyUnauthorized, TurnkeyRateLimited,
    ReplayGuardUnavailable, ProvisionerUnavailable, WalletGrantUnavailable,
    ApiKeyLookupUnavailable, ClockUnavailable, ReleaseExpired]

  function Find(code: Text, errors: seq<ApiError>): Option<ApiError> {
    if errors == [] then None
    else if Name(Code(errors[0])) == code then Some(errors[0])
    else Find(code, errors[1..])
  }

  /** `ApiError::from_str`. */
  function ParseCode(code: Text): Option<ApiError> { Find(code, ALL_ERRORS) }

  /** The position of an error in `ALL_ERRORS`. */
  function Index(e: ApiError): (i: nat)
    ensures i < |ALL_ERRORS| && ALL_ERRORS[i] == e
  {
    match e
    case InvalidJson => 0 case InvalidEnrollmentRequest => 1 case StaleEnrollment => 2
    case InvalidOwnerEnrollmentSignature => 3 case OriginAuthRequired => 4 case ProjectRequired => 5
    case ApiKeyRequired => 6 case ApiKeyInvalid => 7 case WaasNotEnabled => 8 case InvalidDescriptor => 9
    case DescriptorExpired => 10 case ClientKeyRevoked => 11 case WalletNotOwned => 12
    case SubOrganizationNotOwned => 13 case TurnkeyRejected => 14 case NotFound => 15
    case OperationInProgress => 16 case RequestTooLarge => 17 case TooManyInFlight => 18
    case EnclaveUnavailable => 19 case InvalidEnclaveAnswer => 20 case UpstreamResponseTooLarge => 21
    case BootProofUnavailable => 22 case TurnkeyUnavailable => 23 case TurnkeyUnauthorized => 24
    case TurnkeyRateLimited => 25 case ReplayGuardUnavailable => 26 case ProvisionerUnavailable => 27
    case WalletGrantUnavailable => 28 case ApiKeyLookupUnavailable => 29 case ClockUnavailable => 30
    case ReleaseExpired => 31
  }

  // No two failures share a name.

  /** Which failure a name is, told by its length and two letters. */
  function Position(code: string): nat
    requires |code| > 7
  {
    match |code|
    case 8 => 15
    case 11 => 0
    case 13 => 7
    case 14 => if code[0] == 'A' then 6 else if code[0] == 'W' && code[7] == 'E' then 8 else if code[7] == 'o' then 12 else 31
    case 15 => if code[0] == 'S' then 2 else if code[0] == 'P' then 5 else if code[0] == 'T' && code[7] == 'R' then 14 else if code[0] == 'R' then 17 else 18
    case 16 => if code[7] == 'e' then 11 else 30
    case 17 => if code[0] == 'I' then 9 else 10
    case 18 => if code[0] == 'O' then 4 else if code[0] == 'E' then 19 else if code[0] == 'T' && code[7] == 'U' then 23 else 25
    case 19 => if code[0] == 'O' then 16 else 24
    case 20 => if code[0] == 'I' then 20 else 22
    case 22 => if code[0] == 'R' then 26 else if code[0] == 'P' then 27 else 28
    case 23 => if code[0] == 'S' then 13 else 29
    case 24 => if code[0] == 'I' then 1 else 21
    case 31 => 3
    case _ => 0
  }

  lemma FirstPositions(e: ApiError)
    requires Index(e) < 8
    ensures |Code(e)| > 7 && Position(Code(e)) == Index(e)
  {
  }

  lemma SecondPositions(e: ApiError)
    requires 8 <= Index(e) < 16
    ensures |Code(e)| > 7 && Position(Code(e)) == Index(e)
  {
  }

  lemma ThirdPositions(e: ApiError)
    requires 16 <= Index(e) < 24
    ensures |Code(e)| > 7 && Position(Code(e)) == Index(e)
  {
  }

  lemma LastPositions(e: ApiError)
    requires 24 <= Index(e)
    ensures |Code(e)| > 7 && Position(Code(e)) == Index(e)
  {
  }

  lemma CodePosition(e: ApiError)
    ensures |Code(e)| > 7 && Position(Code(e)) == Index(e)
  {
    if Index(e) < 8 { FirstPositions(e); }
    else if Index(e) < 16 { SecondPositions(e); }
    else if Index(e) < 24 { ThirdPositions(e); }
    else { LastPositions(e); }
  }

  lemma CodesDiffer(e: ApiError, f: ApiError)
    requires Code(e) == Code(f)
    ensures e == f
  {
    CodePosition(e);
    CodePosition(f);
    assert ALL_ERRORS[Index(e)] == e && ALL_ERRORS[Index(f)] == f;
  }

  lemma NamesDiffer(e: ApiError, f: ApiError)
    requires e != f
    ensures Name(Code(e)) != Name(Code(f))
  {
    NameInjective(Code(e), Code(f));
    if Code(e) == Code(f) { CodesDiffer(e, f); }
  }

  lemma {:induction false} FindFinds(e: ApiError, errors: seq<ApiError>)
    requires e in errors
    ensures Find(Name(Code(e)), errors) == Some(e)
  {
    if errors[0] != e {
      FindFinds(e, errors[1..]);
      NamesDiffer(errors[0], e);
    }
  }

  lemma ParseCodeInvertsCode(e: ApiError)
    ensures ParseCode(Name(Code(e))) == Some(e)
  {
    assert ALL_ERRORS[Index(e)] == e;
    FindFinds(e, ALL_ERRORS);
  }

  // Records.

  /** `HeaderValue::to_str` succeeds on visible ASCII and tabs. */
  predicate VisibleAscii(value: Bytes) {
    forall i :: 0 <= i < |value| ==> 32 <= value[i] < 127 || value[i] == 9
  }

  /** `HeaderValue::try_from`. */
  function HeaderOf(s: Text): Option<Bytes> {
    var bytes := Utf8(s);
    if forall i :: 0 <= i < |bytes| ==> (bytes[i] >= 32 && bytes[i] != 127) || bytes[i] == 9 then Some(bytes) else None
  }

  predicate Status(n: int) { 100 <= n < 1000 }

  /** What the types of an answer already guarantee. */
  predicate WellTyped(outcome: Outcome) { outcome.Answer? ==> Status(outcome.status) }

  const ANSWERED := Name("answered")
  const FAILED := Name("failed")
  const STATUS := Name("status")
  const CONTENT_TYPE := Name("content_type")
  const BODY := Name("body")
  const CODE := Name("code")

  /** `Record::new`, in the JSON serde writes for it. */
  function RecordOf(outcome: Outcome): Option<Json> {
    match outcome
    case Answer(status, contentType, body) =>
      var text := FromUtf8(body);
      if !VisibleAscii(contentType) || text.None? then None
      else Some(Obj([Member(ANSWERED, Obj([
        Member(STATUS, Num(status)), Member(CONTENT_TYPE, Str(contentType)), Member(BODY, Str(text.value))]))]))
    case Failure(error) => Some(Obj([Member(FAILED, Obj([Member(CODE, Str(Name(Code(error))))]))]))
  }

  function Field(ms: seq<Member>, key: Text): Json {
    if ms == [] then Null else if ms[0].key == key then ms[0].value else Field(ms[1..], key)
  }

  /** Deserializing a record, then `Record::outcome`. */
  function OutcomeOf(record: Json): Option<Outcome> {
    if !record.Obj? || |record.members| != 1 || !record.members[0].value.Obj? then None
    else
      var fields := record.members[0].value.members;
      if record.members[0].key == ANSWERED then
        var status, contentType, body := Field(fields, STATUS), Field(fields, CONTENT_TYPE), Field(fields, BODY);
        if !status.Num? || !Status(status.n) || !contentType.Str? || !body.Str? then None
        else
          var header := HeaderOf(contentType.s);
          if header.None? then None else Some(Answer(status.n, header.value, Utf8(body.s)))
      else if record.members[0].key == FAILED then
        var code := Field(fields, CODE);
        if !code.Str? then None
        else
          var error := ParseCode(code.s);
          if error.None? then None else Some(Failure(error.value))
      else None
  }

  lemma {:induction false} AsciiUtf8(s: Bytes)
    requires VisibleAscii(s)
    ensures Utf8(s) == s
  {
    if s != [] { AsciiUtf8(s[1..]); }
  }

  lemma RecordNames()
    ensures ANSWERED != FAILED && STATUS != CONTENT_TYPE && STATUS != BODY && CONTENT_TYPE != BODY
  {
    NameInjective("answered", "failed");
    NameInjective("status", "content_type");
    NameInjective("status", "body");
    NameInjective("content_type", "body");
  }

  lemma {:induction false} FieldAt(ms: seq<Member>, i: nat)
    requires i < |ms| && forall j :: 0 <= j < i ==> ms[j].key != ms[i].key
    ensures Field(ms, ms[i].key) == ms[i].value
  {
    if i > 0 { FieldAt(ms[1..], i - 1); }
  }

  /** Every recordable outcome reads back unchanged. */
  lemma RecordReadsBack(outcome: Outcome)
    requires WellTyped(outcome) && RecordOf(outcome).Some?
    ensures OutcomeOf(RecordOf(outcome).value) == Some(outcome)
  {
    RecordNames();
    match outcome
    case Answer(status, contentType, body) =>
      AsciiUtf8(contentType);
      var fields := RecordOf(outcome).value.members[0].value.members;
      FieldAt(fields, 0);
      FieldAt(fields, 1);
      FieldAt(fields, 2);
    case Failure(error) =>
      ParseCodeInvertsCode(error);
      FieldAt(RecordOf(outcome).value.members[0].value.members, 0);
  }

  /** A failure is always recordable; an answer exactly when its type is visible ASCII and its body UTF-8. */
  lemma Recordable(outcome: Outcome)
    ensures RecordOf(outcome).Some? <==>
      outcome.Failure? || (VisibleAscii(outcome.contentType) && exists s :: Scalars(s) && Utf8(s) == outcome.body)
  {
    if outcome.Answer? {
      if s :| Scalars(s) && Utf8(s) == outcome.body { FromUtf8OfUtf8(s); }
      if FromUtf8(outcome.body).Some? {
        var s := FromUtf8(outcome.body).value;
        assert Scalars(s) && Utf8(s) == outcome.body;
      }
    }
  }

  /** No stored record is the marker of a running request. */
  lemma RecordIsNotRunning(outcome: Outcome)
    requires RecordOf(outcome).Some?
    ensures Print(RecordOf(outcome).value) != RUNNING
  {
    assert Print(RecordOf(outcome).value)[0] == 123;
    assert RUNNING[0] == 'r' as int;
  }

  lemma RecordFloatFree(outcome: Outcome)
    requires RecordOf(outcome).Some?
    ensures FloatFree(RecordOf(outcome).value)
  {
  }

  predicate ReadsRecord(fromStr: Text -> Option<Json>, outcome: Outcome) {
    WellTyped(outcome) && RecordOf(outcome).Some? ==> fromStr(Print(RecordOf(outcome).value)) == RecordOf(outcome)
  }

  /** What is assumed of the JSON library on stored records: it reads what it wrote. */
  ghost predicate ReadsRecords(fromStr: Text -> Option<Json>) {
    forall outcome :: ReadsRecord(fromStr, outcome)
  }

  // Redis.

  datatype Stored = Stored(value: Text, expires: nat)

  type Db = map<Key, Stored>

  /** A stored text as a ledger entry: the marker, or a record. */
  function EntryOf(fromStr: Text -> Option<Json>, value: Text): Option<Entry> {
    if value == RUNNING then Some(Running)
    else
      var record := fromStr(value);
      if record.None? then None
      else
        var outcome := OutcomeOf(record.value);
        if outcome.None? then None else Some(Answered(outcome.value))
  }

  /** Only the ledger writes its keys, so every text is the marker or a record. */
  ghost predicate Readable(fromStr: Text -> Option<Json>, db: Db) {
    forall k :: k in db ==> EntryOf(fromStr, db[k].value).Some?
  }

  function ViewOf(fromStr: Text -> Option<Json>, db: Db): View
    requires Readable(fromStr, db)
  {
    map k | k in db :: EntryOf(fromStr, db[k].value).value
  }

  lemma MarkerReads(fromStr: Text -> Option<Json>)
    ensures EntryOf(fromStr, RUNNING) == Some(Running)
  {
  }

  lemma RecordReads(fromStr: Text -> Option<Json>, outcome: Outcome)
    requires ReadsRecords(fromStr) && WellTyped(outcome) && RecordOf(outcome).Some?
    ensures EntryOf(fromStr, Print(RecordOf(outcome).value)) == Some(Answered(outcome))
  {
    assert ReadsRecord(fromStr, outcome);
    RecordIsNotRunning(outcome);
    RecordReadsBack(outcome);
  }

  /** Whether a command reached Redis, and whether its reply came back in time. */
  datatype Fate = Lost | Unheard | Heard

  function ReadClaim(fromStr: Text -> Option<Json>, held: Option<Text>): Claim {
    match held
    case None => New
    case Some(value) =>
      match EntryOf(fromStr, value)
      case None => Refused(ReplayGuardUnavailable)
      case Some(Running) => Refused(OperationInProgress)
      case Some(Answered(outcome)) => Replay(outcome)
  }

  // What each call leaves in Redis.

  function ClaimDb(db: Db, k: Key, expires: nat, fate: Fate): Db {
    if fate.Lost? || k in db then db else db[k := Stored(RUNNING, expires)]
  }

  function ReleaseDb(db: Db, k: Key, fate: Fate): Db {
    if fate.Lost? then db else db - {k}
  }

  function SettleDb(db: Db, k: Key, outcome: Outcome, expires: nat, fate: Fate): Db {
    if !Keeps(outcome) then ReleaseDb(db, k, fate)
    else if fate.Lost? || RecordOf(outcome).None? || k !in db then db
    else db[k := Stored(Print(RecordOf(outcome).value), expires)]
  }

  /** Whether recording an outcome changes what the ledger holds. */
  predicate Lands(outcome: Outcome, fate: Fate) {
    !fate.Lost? && (!Keeps(outcome) || RecordOf(outcome).Some?)
  }

  /** `SharedLedger`. Every task's commands go to the one database, each atomically. */
  class SharedLedger {
    const windowSecs: nat
    const fromStr: Text -> Option<Json>
    var db: Db

    ghost predicate Valid()
      reads this
    {
      windowSecs >= 1 && ReadsRecords(fromStr) && Readable(fromStr, db)
    }

    ghost function View(): View
      reads this
      requires Valid()
    {
      ViewOf(fromStr, db)
    }

    constructor (window: nat, fromStr: Text -> Option<Json>)
      requires ReadsRecords(fromStr)
      ensures Valid() && View() == map[]
    {
      windowSecs := if window >= 1 then window else 1;
      this.fromStr := fromStr;
      db := map[];
    }

    /** `SET key running NX GET EX window`: the text the key held, if any. */
    method SetNxGet(key: Key, now: nat) returns (held: Option<Text>)
      modifies this
      ensures held == if key in old(db) then Some(old(db)[key].value) else None
      ensures db == if key in old(db) then old(db) else old(db)[key := Stored(RUNNING, now + windowSecs)]
    {
      if key in db {
        held := Some(db[key].value);
      } else {
        held := None;
        db := db[key := Stored(RUNNING, now + windowSecs)];
      }
    }

    /** One step of the one-map ledger if the command landed, none otherwise; only a heard reply says `New`. */
    method Claim(key: Key, now: nat, fate: Fate) returns (claim: Claim)
      requires Valid()
      modifies this
      ensures Valid()
      ensures View() == if fate.Lost? then old(View()) else ClaimEntry(old(View()), key).0
      ensures claim == if fate.Heard? then ClaimEntry(old(View()), key).1 else Refused(ReplayGuardUnavailable)
      ensures db == ClaimDb(old(db), key, now + windowSecs, fate)
    {
      if fate.Lost? {
        return Refused(ReplayGuardUnavailable);
      }
      var held;
      held := LandClaim(key, now);
      claim := if fate.Heard? then ReadClaim(fromStr, held) else Refused(ReplayGuardUnavailable);
    }

    /** A claim's command landing, whoever hears of it. */
    method LandClaim(key: Key, now: nat) returns (held: Option<Text>)
      requires Valid()
      modifies this
      ensures Valid() && View() == ClaimEntry(old(View()), key).0
      ensures ReadClaim(fromStr, held) == ClaimEntry(old(View()), key).1
      ensures db == ClaimDb(old(db), key, now + windowSecs, Heard)
    {
      ghost var was := db;
      held := SetNxGet(key, now);
      if held.Some? {
        ClaimOfHeld(fromStr, was, key);
        assert db == was;
      } else {
        ClaimOfFree(fromStr, was, key, now + windowSecs);
      }
    }

    /** `SET key value XX EX window`. */
    method SetXx(key: Key, value: Text, now: nat)
      modifies this
      ensures db == if key in old(db) then old(db)[key := Stored(value, now + windowSecs)] else old(db)
    {
      if key in db {
        db := db[key := Stored(value, now + windowSecs)];
      }
    }

    /** `ReplayLedger::record` over this ledger. An outcome it cannot write leaves the claim standing. */
    method Record(key: Key, outcome: Outcome, now: nat, fate: Fate)
      requires Valid() && WellTyped(outcome)
      modifies this
      ensures Valid()
      ensures View() == if Lands(outcome, fate) then Settle(old(View()), key, outcome) else old(View())
      ensures db == SettleDb(old(db), key, outcome, now + windowSecs, fate)
    {
      SettledView(fromStr, db, key, outcome, now + windowSecs, fate);
      if outcome.Answer? && |outcome.body| > MAX_KEPT_ANSWER_BYTES {
        Release(key, fate);
        return;
      }
      var record := RecordOf(outcome);
      if record.Some? && !fate.Lost? {
        SetXx(key, Print(record.value), now);
      }
      assert db == SettleDb(old(db), key, outcome, now + windowSecs, fate);
    }

    method Release(key: Key, fate: Fate)
      requires Valid()
      modifies this
      ensures Valid()
      ensures View() == if fate.Lost? then old(View()) else ReleaseEntry(old(View()), key)
      ensures db == ReleaseDb(old(db), key, fate)
    {
      if !fate.Lost? {
        ghost var was := db;
        db := db - {key};
        DroppedView(fromStr, was, {key});
      }
    }

    /** Redis drops keys of its own accord, none before it was set to expire. */
    method Expire(keys: set<Key>, now: nat)
      requires Valid() && forall k :: k in keys && k in db ==> db[k].expires <= now
      modifies this
      ensures Valid() && View() == old(View()) - keys && db == old(db) - keys
    {
      ghost var was := db;
      db := db - keys;
      DroppedView(fromStr, was, keys);
    }
  }

  lemma ClaimOfHeld(fromStr: Text -> Option<Json>, db: Db, k: Key)
    requires Readable(fromStr, db) && k in db
    ensures ClaimEntry(ViewOf(fromStr, db), k).0 == ViewOf(fromStr, db)
    ensures ReadClaim(fromStr, Some(db[k].value)) == ClaimEntry(ViewOf(fromStr, db), k).1
  {
    assert EntryOf(fromStr, db[k].value).Some?;
  }

  lemma ClaimOfFree(fromStr: Text -> Option<Json>, db: Db, k: Key, expires: nat)
    requires Readable(fromStr, db) && k !in db
    ensures Readable(fromStr, db[k := Stored(RUNNING, expires)])
    ensures ViewOf(fromStr, db[k := Stored(RUNNING, expires)]) == ClaimEntry(ViewOf(fromStr, db), k).0
    ensures ReadClaim(fromStr, None) == ClaimEntry(ViewOf(fromStr, db), k).1
  {
    MarkerReads(fromStr);
  }

  lemma ClaimedView(fromStr: Text -> Option<Json>, db: Db, k: Key, expires: nat)
    requires Readable(fromStr, db)
    ensures var db' := if k in db then db else db[k := Stored(RUNNING, expires)];
            && Readable(fromStr, db')
            && ViewOf(fromStr, db') == ClaimEntry(ViewOf(fromStr, db), k).0
    ensures ReadClaim(fromStr, if k in db then Some(db[k].value) else None)
         == ClaimEntry(ViewOf(fromStr, db), k).1
  {
    if k in db { ClaimOfHeld(fromStr, db, k); } else { ClaimOfFree(fromStr, db, k, expires); }
  }

  lemma RecordedView(fromStr: Text -> Option<Json>, db: Db, k: Key, stored: Stored, outcome: Outcome)
    requires Readable(fromStr, db) && k in db
    requires EntryOf(fromStr, stored.value) == Some(Answered(outcome))
    ensures Readable(fromStr, db[k := stored])
    ensures ViewOf(fromStr, db[k := stored]) == RecordEntry(ViewOf(fromStr, db), k, outcome)
  {
  }

  lemma SettledView(
    fromStr: Text -> Option<Json>, db: Db, k: Key, outcome: Outcome, expires: nat, fate: Fate)
    requires ReadsRecords(fromStr) && Readable(fromStr, db) && WellTyped(outcome)
    ensures Readable(fromStr, SettleDb(db, k, outcome, expires, fate))
    ensures ViewOf(fromStr, SettleDb(db, k, outcome, expires, fate))
         == if Lands(outcome, fate) then Settle(ViewOf(fromStr, db), k, outcome) else ViewOf(fromStr, db)
  {
    if !Keeps(outcome) {
      DroppedView(fromStr, db, {k});
    } else if RecordOf(outcome).Some? {
      RecordReads(fromStr, outcome);
      if k in db { RecordedView(fromStr, db, k, Stored(Print(RecordOf(outcome).value), expires), outcome); }
    }
  }

  lemma DroppedView(fromStr: Text -> Option<Json>, db: Db, keys: set<Key>)
    requires Readable(fromStr, db)
    ensures Readable(fromStr, db - keys)
    ensures ViewOf(fromStr, db - keys) == ViewOf(fromStr, db) - keys
  {
  }
}
