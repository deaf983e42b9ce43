/**
 The recovery session row: what `parse_recovery_session` accepts, and the database procedures that change it.
 The procedures are not part of the repository. Their contract is the environment assumption of this module: a claim
 is granted only from `ready` or `failed` and adds one attempt under a new token; an attempt is finished or expired only
 under its own token while it is active; an operator cancels only from `ready` or `failed`.
 */
module RecoveryLifecycle {
  import opened Text
  import opened Json
  import opened Contracts

  const MAX_ACTIONS: nat := 10
  const MAX_REWIND_STEPS: nat := 5

  datatype Status = Ready | Running | AwaitingOutcome | Recovered | Failed | Unknown | TimedOut | Cancelled

  function StatusText(status: Status): string {
    match status
    case Ready => "ready"
    case Running => "running"
    case AwaitingOutcome => "awaiting_outcome"
    case Recovered => "recovered"
    case Failed => "failed"
    case Unknown => "unknown"
    case TimedOut => "timed_out"
    case Cancelled => "cancelled"
  }

  function ParseStatus(value: Json): (status: Option<Status>)
    ensures status.Some? ==> value == Str(StatusText(status.value))
  {
    if value == Str("ready") then Some(Ready)
    else if value == Str("running") then Some(Running)
    else if value == Str("awaiting_outcome") then Some(AwaitingOutcome)
    else if value == Str("recovered") then Some(Recovered)
    else if value == Str("failed") then Some(Failed)
    else if value == Str("unknown") then Some(Unknown)
    else if value == Str("timed_out") then Some(TimedOut)
    else if value == Str("cancelled") then Some(Cancelled)
    else None
  }

  predicate IsActive(status: Status) {
    status.Running? || status.AwaitingOutcome?
  }

  predicate IsClaimable(status: Status) {
    status.Ready? || status.Failed?
  }

  predicate IsTerminal(status: Status) {
    status.Recovered? || status.Unknown? || status.TimedOut? || status.Cancelled?
  }

  /** The part of a row that is fixed when the session is prepared. */
  datatype Identity = Identity(
    sessionId: string, rootFailureId: string, sysid: string, flowId: string, actionIndex: int, actionCommand: string,
    memoryId: string, actions: seq<Json>, actionsHash: string, maxAttempts: int, rewindSteps: int)

  /** The part of a row that the procedures move. */
  datatype Progress = Progress(status: Status, attempts: int, token: Option<string>, currentFailureId: string)

  datatype Record = Record(identity: Identity, progress: Progress)

  type Row = map<string, Json>

  function ParseSysid(value: Json): Option<string> {
    var text := RequiredText(value, 64);
    if text.Some? && IsSysid(Upper(text.value)) then Some(Upper(text.value)) else None
  }

  function ParseHash(value: Json): Option<string> {
    var text := RequiredText(value, 64);
    if text.Some? && IsHash(text.value) then text else None
  }

  predicate ArePinned(actions: Json, suggestion: Json, memoryId: Json) {
    && actions.Arr? && 1 <= |actions.items| <= MAX_ACTIONS
    && (forall i | 0 <= i < |actions.items| :: actions.items[i].Obj?)
    && suggestion.Obj?
    && PyEqual(Get(suggestion.fields, "memory_id"), memoryId)
    && PyEqual(Get(suggestion.fields, "actions"), actions)
  }

  function ParseIdentity(row: Row): Option<Identity> {
    var sessionId, rootId := UuidText(Get(row, "recovery_session_id")), UuidText(Get(row, "root_failure_id"));
    var sysid, flowId := ParseSysid(Get(row, "sysid")), RequiredText(Get(row, "flow_id"), 300);
    var index := RequiredInt(Get(row, "action_index"), 0, 1_000_000);
    var command := RequiredText(Get(row, "action_command"), MAX_COMMAND_LENGTH);
    var memoryId, hash := RequiredText(Get(row, "pinned_memory_id"), 300), ParseHash(Get(row, "pinned_actions_hash"));
    var maxAttempts := RequiredInt(Get(row, "recovery_max_attempts"), 1, 20);
    var rewindSteps := RequiredInt(Get(row, "recovery_rewind_steps"), 0, MAX_REWIND_STEPS);
    if sessionId.None? || rootId.None? || sysid.None? || flowId.None? || index.None? || command.None?
       || memoryId.None? || hash.None? || maxAttempts.None? || rewindSteps.None?
       || ParseHash(Get(row, "root_episode_key")).None?
       || !ArePinned(Get(row, "pinned_actions"), Get(row, "pinned_resolver_suggestion"), Get(row, "pinned_memory_id"))
    then None
    else
      Some(Identity(
        sessionId.value, rootId.value, sysid.value, flowId.value, index.value, command.value, memoryId.value,
        Get(row, "pinned_actions").items, hash.value, maxAttempts.value, rewindSteps.value))
  }

  function ParseToken(value: Json): Option<Option<string>> {
    if value.Null? then Some(None)
    else if UuidText(value).Some? then Some(UuidText(value))
    else None
  }

  function ParseProgress(row: Row): Option<Progress> {
    var status := ParseStatus(Get(row, "recovery_status"));
    var attempts := RequiredInt(Get(row, "recovery_attempts"), 0, 20);
    var token := ParseToken(Get(row, "recovery_run_token"));
    var current := UuidText(Get(row, "current_failure_id"));
    if status.None? || attempts.None? || token.None? || current.None? then None
    else Some(Progress(status.value, attempts.value, token.value, current.value))
  }

  /** The lifecycle conditions on one row. */
  predicate LifecycleOk(p: Progress, maxAttempts: int) {
    && p.attempts <= maxAttempts
    && match p.status
       case Ready => p.attempts == 0 && p.token.None?
       case Running => p.attempts >= 1 && p.token.Some?
       case AwaitingOutcome => p.attempts >= 1 && p.token.Some?
       case Failed => 1 <= p.attempts < maxAttempts && p.token.Some?
       case Recovered => p.attempts >= 1 && p.token.Some?
       case Unknown => p.attempts >= 1 && p.token.Some?
       case TimedOut => p.attempts == maxAttempts && p.token.Some?
       case Cancelled => true
  }

  /** `parse_recovery_session` */
  function ParseRecoverySession(row: Row, requireRunToken: bool): (r: Result<Record>)
    ensures r.Ok? ==> LifecycleOk(r.value.progress, r.value.identity.maxAttempts)
    ensures r.Ok? && requireRunToken ==> IsActive(r.value.progress.status) && r.value.progress.token.Some?
  {
    var identity, progress := ParseIdentity(row), ParseProgress(row);
    if identity.None? || progress.None? then Err("malformed recovery session")
    else if requireRunToken && !IsActive(progress.value.status) then Err("claimed session is not active")
    else if !LifecycleOk(progress.value, identity.value.maxAttempts) then Err("recovery session lifecycle is invalid")
    else Ok(Record(identity.value, progress.value))
  }

  predicate Parses(row: Row) {
    ParseRecoverySession(row, false).Ok?
  }

  predicate IsText(s: string, maxLength: nat) {
    s != "" && Strip(s) == s && |s| <= maxLength
  }

  predicate ShowsUuid(value: Json, id: string) {
    value.Str? && Lower(Strip(value.s)) == id && IsUuid(id)
  }

  predicate ShowsHash(value: Json, hash: string) {
    value == Str(hash) && IsText(hash, 64) && IsHash(hash)
  }

  /** The row shows this identity: identifiers up to case and blanks, the robot up to case, the rest literally. */
  predicate ShowsIdentity(row: Row, i: Identity) {
    && ShowsUuid(Get(row, "recovery_session_id"), i.sessionId) && ShowsUuid(Get(row, "root_failure_id"), i.rootFailureId)
    && Get(row, "sysid").Str? && IsText(Get(row, "sysid").s, 64)
    && Upper(Get(row, "sysid").s) == i.sysid && IsSysid(i.sysid)
    && Get(row, "flow_id") == Str(i.flowId) && IsText(i.flowId, 300)
    && Get(row, "action_index") == Int(i.actionIndex) && 0 <= i.actionIndex <= 1_000_000
    && Get(row, "action_command") == Str(i.actionCommand) && IsText(i.actionCommand, MAX_COMMAND_LENGTH)
    && Get(row, "pinned_memory_id") == Str(i.memoryId) && IsText(i.memoryId, 300)
    && Get(row, "pinned_actions") == Arr(i.actions)
    && ArePinned(Arr(i.actions), Get(row, "pinned_resolver_suggestion"), Str(i.memoryId))
    && ShowsHash(Get(row, "pinned_actions_hash"), i.actionsHash)
    && Get(row, "root_episode_key").Str? && ShowsHash(Get(row, "root_episode_key"), Get(row, "root_episode_key").s)
    && Get(row, "recovery_max_attempts") == Int(i.maxAttempts) && 1 <= i.maxAttempts <= 20
    && Get(row, "recovery_rewind_steps") == Int(i.rewindSteps) && 0 <= i.rewindSteps <= MAX_REWIND_STEPS
  }

  predicate ShowsProgress(row: Row, p: Progress) {
    && Get(row, "recovery_status") == Str(StatusText(p.status))
    && Get(row, "recovery_attempts") == Int(p.attempts) && 0 <= p.attempts <= 20
    && ShowsToken(Get(row, "recovery_run_token"), p.token)
    && ShowsUuid(Get(row, "current_failure_id"), p.currentFailureId)
  }

  lemma ShownUuid(value: Json, id: string)
    ensures UuidText(value) == Some(id) <==> ShowsUuid(value, id)
  {
  }

  lemma ShownHash(value: Json)
    ensures ParseHash(value).Some? <==> value.Str? && ShowsHash(value, value.s)
    ensures forall hash :: ParseHash(value) == Some(hash) <==> ShowsHash(value, hash)
  {
    hide Strip;
  }

  lemma ShownIdentity(row: Row, i: Identity)
    ensures ParseIdentity(row) == Some(i) <==> ShowsIdentity(row, i)
  {
    hide Strip, UuidText, ShowsUuid, ParseHash, ShowsHash, ArePinned, IsSysid, Upper;
    ShownUuid(Get(row, "recovery_session_id"), i.sessionId);
    ShownUuid(Get(row, "root_failure_id"), i.rootFailureId);
    ShownHash(Get(row, "pinned_actions_hash"));
    ShownHash(Get(row, "root_episode_key"));
    PinnedIsArray(Get(row, "pinned_actions"), Get(row, "pinned_resolver_suggestion"), Get(row, "pinned_memory_id"));
  }

  lemma PinnedIsArray(actions: Json, suggestion: Json, memoryId: Json)
    ensures ArePinned(actions, suggestion, memoryId) ==> actions.Arr?
  {
  }

  predicate ShowsToken(value: Json, token: Option<string>) {
    if token.Some? then ShowsUuid(value, token.value) else value.Null?
  }

  lemma ShownToken(value: Json, token: Option<string>)
    ensures ParseToken(value) == Some(token) <==> ShowsToken(value, token)
  {
    hide Lower, Strip, IsUuid;
  }

  lemma ShownProgress(row: Row, p: Progress)
    ensures ParseProgress(row) == Some(p) <==> ShowsProgress(row, p)
  {
    hide UuidText, ShowsUuid, ParseToken, ShowsToken;
    ShownToken(Get(row, "recovery_run_token"), p.token);
    StatusShown(Get(row, "recovery_status"), p.status);
    ShownUuid(Get(row, "current_failure_id"), p.currentFailureId);
    hide StatusText, ParseStatus;
  }

  lemma StatusShown(value: Json, status: Status)
    ensures ParseStatus(value) == Some(status) <==> value == Str(StatusText(status))
  {
  }

  /**
   A session row is accepted as exactly the record it shows: every field of the record is the row's own, within the
   bounds, the progress fits the lifecycle, and a claimed row is an active attempt under a token.
   */
  lemma ParsedSessionIff(row: Row, requireRunToken: bool, record: Record)
    ensures ParseRecoverySession(row, requireRunToken) == Ok(record)
      <==>
        && ShowsIdentity(row, record.identity) && ShowsProgress(row, record.progress)
        && LifecycleOk(record.progress, record.identity.maxAttempts)
        && (requireRunToken ==> IsActive(record.progress.status))
  {
    hide ParseIdentity, ParseProgress, ShowsIdentity, ShowsProgress, LifecycleOk;
    ShownIdentity(row, record.identity);
    ShownProgress(row, record.progress);
  }

  // ---------------------------------------------------------------- the database procedures

  datatype FinishResult = ToAwaiting | ToRecovered | ToFailed | ToUnknown

  datatype Procedure =
    | Attach(failureId: string)
    | Claim(failureId: string, token: string)
    | Finish(token: string, result: FinishResult)
    | Expire(token: string)
    | CancelByOperator

  function MoveTo(row: Row, status: Status): Row {
    row["recovery_status" := Str(StatusText(status))]
  }

  function FinishedStatus(result: FinishResult, p: Progress, maxAttempts: int): Status {
    match result
    case ToAwaiting => AwaitingOutcome
    case ToRecovered => Recovered
    case ToUnknown => Unknown
    case ToFailed => if p.attempts >= maxAttempts then TimedOut else Failed
  }

  predicate OwnsAttempt(p: Progress, token: string) {
    IsActive(p.status) && p.token == Some(token)
  }

  /** A procedure either is refused or returns the changed row. */
  function Call(row: Row, call: Procedure): Option<Row> {
    if Parses(row) then CallValid(row, call) else None
  }

  function CallValid(row: Row, call: Procedure): Option<Row>
    requires Parses(row)
  {
    var record := ParseRecoverySession(row, false).value;
    var p := record.progress;
    match call
    case Attach(failureId) => Some(row["current_failure_id" := Str(failureId)])
    case Claim(failureId, token) =>
      if !IsClaimable(p.status) then None
      else
        Some(MoveTo(row, Running)["current_failure_id" := Str(failureId)][
          "recovery_attempts" := Int(p.attempts + 1)]["recovery_run_token" := Str(token)])
    case Finish(token, result) =>
      if !OwnsAttempt(p, token) then None
      else Some(MoveTo(row, FinishedStatus(result, p, record.identity.maxAttempts)))
    case Expire(token) => if OwnsAttempt(p, token) then Some(MoveTo(row, Unknown)) else None
    case CancelByOperator => if IsClaimable(p.status) then Some(MoveTo(row, Cancelled)) else None
  }

  /** The same on the parsed progress: which moves exist at all. */
  function Moved(p: Progress, call: Procedure, maxAttempts: int): Option<Progress> {
    match call
    case Attach(failureId) => Some(p.(currentFailureId := failureId))
    case Claim(failureId, token) =>
      if IsClaimable(p.status) then Some(Progress(Running, p.attempts + 1, Some(token), failureId)) else None
    case Finish(token, result) =>
      if OwnsAttempt(p, token) then Some(p.(status := FinishedStatus(result, p, maxAttempts))) else None
    case Expire(token) => if OwnsAttempt(p, token) then Some(p.(status := Unknown)) else None
    case CancelByOperator => if IsClaimable(p.status) then Some(p.(status := Cancelled)) else None
  }

  /** The procedures are called with canonical identifiers. */
  predicate IsWellFormed(call: Procedure) {
    match call
    case Attach(failureId) => IsUuid(failureId)
    case Claim(failureId, token) => IsUuid(failureId) && IsUuid(token)
    case _ => true
  }

  function ProgressKeys(): set<string> {
    {"recovery_status", "recovery_attempts", "recovery_run_token", "current_failure_id"}
  }

  function IdentityKeys(): set<string> {
    {"recovery_session_id", "root_failure_id", "sysid", "flow_id", "action_index", "action_command", "pinned_memory_id",
     "pinned_actions_hash", "recovery_max_attempts", "recovery_rewind_steps", "root_episode_key", "pinned_actions",
     "pinned_resolver_suggestion"}
  }

  lemma KeysApart()
    ensures ProgressKeys() !! IdentityKeys()
  {
    assert forall k <- IdentityKeys() :: k !in ProgressKeys();
  }

  lemma IdentityFrame(row: Row, after: Row)
    requires forall k <- IdentityKeys() :: Get(after, k) == Get(row, k)
    ensures ParseIdentity(after) == ParseIdentity(row)
  {
    hide ArePinned, ParseHash, ParseSysid, RequiredText, RequiredInt, UuidText;
  }

  lemma MoveKeepsIdentity(row: Row, key: string, value: Json)
    requires key in ProgressKeys()
    ensures ParseIdentity(row[key := value]) == ParseIdentity(row)
  {
    KeysApart();
    IdentityFrame(row, row[key := value]);
  }

  lemma StatusRoundTrip(status: Status)
    ensures ParseStatus(Str(StatusText(status))) == Some(status)
  {
  }

  lemma ProgressKeysDistinct()
    ensures "recovery_status" != "recovery_attempts" && "recovery_status" != "recovery_run_token"
    ensures "recovery_status" != "current_failure_id" && "recovery_attempts" != "recovery_run_token"
    ensures "recovery_attempts" != "current_failure_id" && "recovery_run_token" != "current_failure_id"
  {
  }

  /** Each procedure keeps the identity and moves the progress as stated. */
  lemma CallMoves(row: Row, call: Procedure)
    requires Parses(row) && IsWellFormed(call)
    ensures
      var record, after := ParseRecoverySession(row, false).value, Call(row, call);
      var moved := Moved(record.progress, call, record.identity.maxAttempts);
      && (after.Some? <==> moved.Some?)
      && (after.Some? ==> ParseIdentity(after.value) == Some(record.identity) && ParseProgress(after.value) == moved)
  {
    hide ParseIdentity, ParseStatus, StatusText, UuidText, IsUuid;
    var record := ParseRecoverySession(row, false).value;
    ProgressKeysDistinct();
    match call {
      case Attach(failureId) =>
        MoveKeepsIdentity(row, "current_failure_id", Str(failureId));
        UuidTextIdentity(failureId);
      case Claim(failureId, token) =>
        if IsClaimable(record.progress.status) {
          StatusRoundTrip(Running);
          UuidTextIdentity(failureId);
          UuidTextIdentity(token);
          var moved := MoveTo(row, Running);
          MoveKeepsIdentity(row, "recovery_status", Str(StatusText(Running)));
          MoveKeepsIdentity(moved, "current_failure_id", Str(failureId));
          var named := moved["current_failure_id" := Str(failureId)];
          MoveKeepsIdentity(named, "recovery_attempts", Int(record.progress.attempts + 1));
          var counted := named["recovery_attempts" := Int(record.progress.attempts + 1)];
          MoveKeepsIdentity(counted, "recovery_run_token", Str(token));
          ClaimWithinTwenty(row);
        }
      case Finish(token, result) =>
        var status := FinishedStatus(result, record.progress, record.identity.maxAttempts);
        StatusRoundTrip(status);
        MoveKeepsIdentity(row, "recovery_status", Str(StatusText(status)));
      case Expire(token) =>
        StatusRoundTrip(Unknown);
        MoveKeepsIdentity(row, "recovery_status", Str(StatusText(Unknown)));
      case CancelByOperator =>
        StatusRoundTrip(Cancelled);
        MoveKeepsIdentity(row, "recovery_status", Str(StatusText(Cancelled)));
    }
  }

  /** A claimable row always has an attempt left. */
  lemma ClaimWithinTwenty(row: Row)
    requires Parses(row) && IsClaimable(ParseRecoverySession(row, false).value.progress.status)
    ensures var record := ParseRecoverySession(row, false).value;
      record.progress.attempts < record.identity.maxAttempts <= 20
  {
  }

  /** The lifecycle conditions are kept by every move. */
  lemma MovesKeepLifecycle(before: Progress, call: Procedure, after: Progress, maxAttempts: int)
    requires LifecycleOk(before, maxAttempts) && maxAttempts >= 1 && Moved(before, call, maxAttempts) == Some(after)
    ensures LifecycleOk(after, maxAttempts)
    ensures call.Claim? ==> IsActive(after.status) && before.attempts < after.attempts
    ensures IsTerminal(before.status) ==> after.status == before.status && call.Attach?
    ensures after.attempts == before.attempts + if call.Claim? then 1 else 0
  {
  }

  /** Every row a procedure leaves behind parses; a claimed row parses as an active attempt; the identity is fixed. */
  lemma RowsStayValid(row: Row, call: Procedure)
    requires Parses(row) && IsWellFormed(call) && Call(row, call).Some?
    ensures Parses(Call(row, call).value)
    ensures ParseRecoverySession(Call(row, call).value, false).value.identity == ParseRecoverySession(row, false).value.identity
    ensures call.Claim? ==> ParseRecoverySession(Call(row, call).value, true).Ok?
  {
    hide ParseIdentity, ParseProgress, Call, Moved, LifecycleOk, IsActive, IsWellFormed;
    CallMoves(row, call);
    var record := ParseRecoverySession(row, false).value;
    IdentityBounds(row);
    MovesKeepLifecycle(
      record.progress, call, ParseProgress(Call(row, call).value).value, record.identity.maxAttempts);
  }

  lemma IdentityBounds(row: Row)
    requires ParseIdentity(row).Some?
    ensures 1 <= ParseIdentity(row).value.maxAttempts <= 20
  {
  }

  // ---------------------------------------------------------------- whole runs

  /** The row `prepare` inserts: a valid identity, no attempt, no token. */
  predicate IsPrepared(row: Row) {
    && ParseIdentity(row).Some?
    && Get(row, "recovery_status") == Str("ready")
    && Get(row, "recovery_attempts") == Int(0)
    && Get(row, "recovery_run_token") == Null
    && UuidText(Get(row, "current_failure_id")).Some?
  }

  /** The row after a call; a refused call changes nothing. */
  function Next(row: Row, call: Procedure): Row {
    if Call(row, call).Some? then Call(row, call).value else row
  }

  function After(row: Row, calls: seq<Procedure>): Row
    decreases |calls|
  {
    if calls == [] then row else After(Next(row, calls[0]), calls[1..])
  }

  /** How many of the calls are claims that were granted. */
  function Granted(row: Row, calls: seq<Procedure>): nat
    decreases |calls|
  {
    if calls == [] then 0
    else (if calls[0].Claim? && Call(row, calls[0]).Some? then 1 else 0) + Granted(Next(row, calls[0]), calls[1..])
  }

  predicate AreWellFormed(calls: seq<Procedure>) {
    forall i | 0 <= i < |calls| :: IsWellFormed(calls[i])
  }

  lemma PreparedParses(row: Row)
    requires IsPrepared(row)
    ensures Parses(row)
    ensures var record := ParseRecoverySession(row, false).value;
      record.progress.attempts == 0 && Some(record.identity) == ParseIdentity(row)
  {
    hide ParseIdentity;
    StatusRoundTrip(Ready);
    IdentityBounds(row);
  }

  lemma {:induction false} GrantedCount(row: Row, calls: seq<Procedure>)
    requires Parses(row) && AreWellFormed(calls)
    ensures Parses(After(row, calls))
    ensures
      var before, after := ParseRecoverySession(row, false).value, ParseRecoverySession(After(row, calls), false).value;
      && after.identity == before.identity
      && after.progress.attempts == before.progress.attempts + Granted(row, calls)
    decreases |calls|
  {
    hide ParseRecoverySession, Call, IsWellFormed;
    if calls != [] {
      OneCallAttempts(row, calls[0]);
      GrantedCount(Next(row, calls[0]), calls[1..]);
    }
  }

  lemma OneCallAttempts(row: Row, call: Procedure)
    requires Parses(row) && IsWellFormed(call)
    ensures Parses(Next(row, call))
    ensures
      var before, after := ParseRecoverySession(row, false).value, ParseRecoverySession(Next(row, call), false).value;
      && after.identity == before.identity
      && after.progress.attempts
           == before.progress.attempts + if call.Claim? && Call(row, call).Some? then 1 else 0
  {
    hide ParseIdentity, ParseProgress, Call, IsWellFormed;
    if Call(row, call).Some? {
      CallMoves(row, call);
      RowsStayValid(row, call);
    }
  }

  /**
   From a prepared session, whatever is called in whatever order, the row always parses, keeps its identity, counts
   exactly the granted claims, and grants at most the maximum.
   */
  lemma BudgetIsKept(row: Row, calls: seq<Procedure>)
    requires IsPrepared(row) && AreWellFormed(calls)
    ensures Parses(row) && Parses(After(row, calls))
    ensures
      var record := ParseRecoverySession(After(row, calls), false).value;
      && Some(record.identity) == ParseIdentity(row)
      && record.progress.attempts == Granted(row, calls) <= record.identity.maxAttempts
  {
    hide ParseIdentity, ParseRecoverySession, After, Granted, IsPrepared;
    PreparedParses(row);
    GrantedCount(row, calls);
  }
}
