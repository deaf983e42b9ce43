/**
 Every interleaving of automatic recoveries: many processes, each running many `process_failure` tasks
 (`RecoveryCoordinator` in `recovery_executor.py`) over one database of recovery sessions.
 One action is one stretch of code between two awaits, or one database procedure taking effect. Everything the code
 does not control (robot answers, Flow frames, failing calls, cancellation, crashes, other processes) is a choice of
 the action. Environment assumption beyond the procedures' contract: an attempt's lease is not expired by another
 process while a task still works under its token.
 */
module RecoveryRuns {
  import opened Text
  import opened Json
  import opened RecoveryLifecycle

  datatype Pointer = Pointer(sysid: string, flowId: string, actionIndex: int, actionCommand: string)

  datatype Action = Action(command: string, arguments: Json)

  /** What an attempt hands to the robot session: a pinned correction, or the guarded `$resume_flow`. */
  datatype Dispatch = Pinned(action: Action) | ResumeFlow

  /** A recovery session row: what is pinned for good, and the moving part. */
  datatype Stored = Stored(pointer: Pointer, maxAttempts: nat, corrections: seq<Action>, progress: Progress)

  datatype Failure = Failure(pointer: Pointer, sessionId: Option<string>)

  datatype Phase =
    | Fetching
    | Checking(row: Failure)
    | WaitingLock
    | Rereading
    | Rechecking(row: Failure)
    | Attaching(sessionId: string, owner: nat, holdsLock: bool)
    | Preparing(row: Failure)
    | Grace(sessionId: string)
    | Looping(sessionId: string)
    | Attempting(sessionId: string, token: string, sent: nat, waiting: bool)
    | Observing(sessionId: string, token: string)

  /** A live `process_failure` call. */
  datatype Task = Task(process: nat, failureId: string, pointer: Pointer, phase: Phase)

  /** An `_ActiveRecovery`, with the task that registered it. */
  datatype Active = Active(sessionId: string, currentFailureId: string, owner: nat)

  datatype Event =
    | Claimed(session: string, token: string)
    | Dispatched(session: string, token: string, command: Dispatch)
    | Settled(session: string, token: string, status: Status)
    | CancelledByOperator(session: string)

  datatype State = State(
    sessions: map<string, Stored>,
    failures: map<string, Failure>,
    tasks: map<nat, Task>,
    locks: map<(nat, string), nat>,
    active: map<(nat, Pointer), Active>,
    trace: seq<Event>)

  datatype Choice =
    | Start(task: nat, process: nat, failureId: string)
    | Fetch(task: nat)
    | Check(task: nat, eligible: bool)
    | Acquire(task: nat)
    | Reread(task: nat)
    | Recheck(task: nat, eligible: bool)
    | Join(task: nat)
    | Prepare(task: nat, sessionId: string, maxAttempts: nat, corrections: seq<Action>, executable: bool)
    | Register(task: nat)
    | TakeClaim(task: nat, token: string, delivered: bool)
    | Send(task: nat)
    | Acknowledge(task: nat)
    | Await(task: nat, delivered: bool)
    | Conclude(task: nat, result: FinishResult, delivered: bool, recurred: bool)
    | Abandon(task: nat)
    | Crash(process: nat)
    | ExpireLease(sessionId: string)
    | OperatorCancel(sessionId: string)

  function Script(corrections: seq<Action>): (script: seq<Dispatch>)
    ensures |script| == |corrections| + 1
  {
    seq(|corrections|, i requires 0 <= i < |corrections| => Pinned(corrections[i])) + [ResumeFlow]
  }

  // ---------------------------------------------------------------- phases

  predicate HoldsLock(phase: Phase) {
    match phase
    case Fetching => false
    case Checking(_) => false
    case WaitingLock => false
    case Attaching(_, _, holdsLock) => holdsLock
    case _ => true
  }

  predicate IsRegistered(phase: Phase) {
    phase.Looping? || phase.Attempting? || phase.Observing?
  }

  predicate HoldsToken(phase: Phase) {
    phase.Attempting? || phase.Observing?
  }

  function LockKey(task: Task): (nat, string) {
    (task.process, task.pointer.sysid)
  }

  function ActiveKey(task: Task): (nat, Pointer) {
    (task.process, task.pointer)
  }

  // ---------------------------------------------------------------- steps

  function Enter(s: State, t: nat, phase: Phase): State
    requires t in s.tasks
  {
    s.(tasks := s.tasks[t := s.tasks[t].(phase := phase)])
  }

  /** A task ends: its `finally` blocks drop the active entry and release the robot lock. */
  function End(s: State, t: nat): State {
    s.(tasks := s.tasks - {t},
       locks := map k | k in s.locks && s.locks[k] != t :: s.locks[k],
       active := map k | k in s.active && s.active[k].owner != t :: s.active[k])
  }

  /** A database procedure on a session; `None` when it is refused. */
  function Update(s: State, id: string, call: Procedure, event: seq<Event>): Option<State>
    requires id in s.sessions
  {
    var stored := s.sessions[id];
    var progress := Moved(stored.progress, call, stored.maxAttempts);
    if progress.None? then None
    else Some(s.(sessions := s.sessions[id := stored.(progress := progress.value)], trace := s.trace + event))
  }

  /** `_attach_active_recurrence`, up to its database call: `None` when nothing is active for this pointer. */
  function Recurrence(s: State, t: nat, row: Failure): Option<State>
    requires t in s.tasks
  {
    var task := s.tasks[t];
    if ActiveKey(task) !in s.active then None
    else
      var entry := s.active[ActiveKey(task)];
      if row.sessionId.None? then Some(Enter(s, t, Attaching(entry.sessionId, entry.owner, HoldsLock(task.phase))))
      else if row.sessionId.value != entry.sessionId then Some(End(s, t))
      else
        Some(End(s.(active := s.active[ActiveKey(task) := entry.(currentFailureId := task.failureId)]), t))
  }

  function CheckRow(s: State, t: nat, row: Failure, eligible: bool, next: Phase): State
    requires t in s.tasks
  {
    var joined := Recurrence(s, t, row);
    if joined.Some? then joined.value
    else if !eligible then End(s, t)
    else Enter(s, t, next)
  }

  /** The end of an attachment: the row joins the session, and the live entry, if still there, follows. */
  function JoinSession(s: State, t: nat): State
    requires t in s.tasks && s.tasks[t].phase.Attaching? && s.tasks[t].failureId in s.failures
  {
    var task := s.tasks[t];
    var id := task.phase.sessionId;
    if id !in s.sessions then End(s, t)
    else
      var key := ActiveKey(task);
      var failure := s.failures[task.failureId];
      var stored := s.sessions[id];
      var joined := s.(
        failures := s.failures[task.failureId := failure.(sessionId := Some(id))],
        sessions := s.sessions[id := stored.(progress := stored.progress.(currentFailureId := task.failureId))],
        active := if key in s.active && s.active[key].owner == task.phase.owner
                  then s.active[key := s.active[key].(currentFailureId := task.failureId)] else s.active);
      End(joined, t)
  }

  /**
   `prepare` or `project`: a row that names a session projects it; otherwise an earlier session for the same step wins
   over the proposed one, and only then a new session is pinned.
   */
  function PrepareSession(s: State, t: nat, id: string, maxAttempts: nat, corrections: seq<Action>, executable: bool): State
    requires t in s.tasks && s.tasks[t].failureId in s.failures
  {
    var task := s.tasks[t];
    var prepared :=
      if id in s.sessions then s
      else s.(sessions := s.sessions[id := Stored(
        task.pointer, maxAttempts, corrections, Progress(Ready, 0, None, task.failureId))]);
    var linked := prepared.(
      failures := s.failures[task.failureId := s.failures[task.failureId].(sessionId := Some(id))]);
    var stored := linked.sessions[id];
    if !IsClaimable(stored.progress.status) || stored.pointer != task.pointer || !executable then End(linked, t)
    else Enter(linked, t, Grace(id))
  }

  function Claiming(s: State, t: nat, token: string, delivered: bool): State
    requires t in s.tasks && s.tasks[t].phase.Looping? && s.tasks[t].phase.sessionId in s.sessions
    requires ActiveKey(s.tasks[t]) in s.active
  {
    var id := s.tasks[t].phase.sessionId;
    var call := Claim(s.active[ActiveKey(s.tasks[t])].currentFailureId, token);
    var claimed := Update(s, id, call, [Claimed(id, token)]);
    if claimed.None? then End(s, t)
    else if !delivered then End(claimed.value, t)
    else Enter(claimed.value, t, Attempting(id, token, 0, false))
  }

  function Sending(s: State, t: nat): State
    requires t in s.tasks && s.tasks[t].phase.Attempting? && s.tasks[t].phase.sessionId in s.sessions
    requires s.tasks[t].phase.sent < |Script(s.sessions[s.tasks[t].phase.sessionId].corrections)|
  {
    var p := s.tasks[t].phase;
    var command := Script(s.sessions[p.sessionId].corrections)[p.sent];
    Enter(s, t, p.(sent := p.sent + 1, waiting := true)).(trace := s.trace + [Dispatched(p.sessionId, p.token, command)])
  }

  /** `finish(awaiting_outcome)` after the continuation was acknowledged. */
  function Awaiting(s: State, t: nat, delivered: bool): State
    requires t in s.tasks && s.tasks[t].phase.Attempting? && s.tasks[t].phase.sessionId in s.sessions
  {
    var p := s.tasks[t].phase;
    var moved := Update(s, p.sessionId, Finish(p.token, ToAwaiting), [Settled(p.sessionId, p.token, AwaitingOutcome)]);
    if moved.None? then End(s, t)
    else if !delivered then End(moved.value, t)
    else Enter(moved.value, t, Observing(p.sessionId, p.token))
  }

  /** The end of an attempt; only a finished `failed` with a fresh recurrence goes round the loop again. */
  function Concluding(s: State, t: nat, result: FinishResult, delivered: bool, recurred: bool): State
    requires t in s.tasks && HoldsToken(s.tasks[t].phase) && s.tasks[t].phase.sessionId in s.sessions
  {
    var p := s.tasks[t].phase;
    var stored := s.sessions[p.sessionId];
    var status := FinishedStatus(result, stored.progress, stored.maxAttempts);
    var moved := Update(s, p.sessionId, Finish(p.token, result), [Settled(p.sessionId, p.token, status)]);
    if moved.None? then End(s, t)
    else if delivered && status.Failed? && recurred then Enter(moved.value, t, Looping(p.sessionId))
    else End(moved.value, t)
  }

  function CrashProcess(s: State, process: nat): State {
    s.(tasks := map t | t in s.tasks && s.tasks[t].process != process :: s.tasks[t],
       locks := map k | k in s.locks && k.0 != process :: s.locks[k],
       active := map k | k in s.active && k.0 != process :: s.active[k])
  }

  predicate IsFreshToken(s: State, token: string) {
    forall i | 0 <= i < |s.trace| :: s.trace[i].Claimed? ==> s.trace[i].token != token
  }

  predicate IsHeld(s: State, id: string) {
    exists t :: t in s.tasks && HoldsToken(s.tasks[t].phase) && s.tasks[t].phase.sessionId == id
  }

  predicate Enabled(s: State, c: Choice) {
    match c
    case Start(t, _, failureId) => t !in s.tasks && failureId in s.failures
    case Fetch(t) => t in s.tasks && s.tasks[t].phase.Fetching? && s.tasks[t].failureId in s.failures
    case Check(t, _) => t in s.tasks && s.tasks[t].phase.Checking?
    case Acquire(t) => t in s.tasks && s.tasks[t].phase.WaitingLock? && LockKey(s.tasks[t]) !in s.locks
    case Reread(t) => t in s.tasks && s.tasks[t].phase.Rereading? && s.tasks[t].failureId in s.failures
    case Recheck(t, _) => t in s.tasks && s.tasks[t].phase.Rechecking?
    case Join(t) => t in s.tasks && s.tasks[t].phase.Attaching? && s.tasks[t].failureId in s.failures
    case Prepare(t, id, maxAttempts, _, _) =>
      t in s.tasks && s.tasks[t].phase.Preparing? && s.tasks[t].failureId in s.failures && 1 <= maxAttempts <= 20
      && (s.tasks[t].phase.row.sessionId.Some? ==> id in s.sessions && id == s.tasks[t].phase.row.sessionId.value)
      && (s.tasks[t].phase.row.sessionId.None? && id in s.sessions ==> s.sessions[id].pointer == s.tasks[t].pointer)
    case Register(t) => t in s.tasks && s.tasks[t].phase.Grace?
    case TakeClaim(t, token, _) =>
      t in s.tasks && s.tasks[t].phase.Looping? && s.tasks[t].phase.sessionId in s.sessions
      && ActiveKey(s.tasks[t]) in s.active && IsFreshToken(s, token)
    case Send(t) =>
      t in s.tasks && s.tasks[t].phase.Attempting? && !s.tasks[t].phase.waiting && s.tasks[t].phase.sessionId in s.sessions
      && s.tasks[t].phase.sent < |Script(s.sessions[s.tasks[t].phase.sessionId].corrections)|
    case Acknowledge(t) => t in s.tasks && s.tasks[t].phase.Attempting? && s.tasks[t].phase.waiting
    case Await(t, _) =>
      t in s.tasks && s.tasks[t].phase.Attempting? && !s.tasks[t].phase.waiting && s.tasks[t].phase.sessionId in s.sessions
      && s.tasks[t].phase.sent == |Script(s.sessions[s.tasks[t].phase.sessionId].corrections)|
    case Conclude(t, result, _, _) =>
      t in s.tasks && HoldsToken(s.tasks[t].phase) && s.tasks[t].phase.sessionId in s.sessions
      && !result.ToAwaiting? && (s.tasks[t].phase.Attempting? ==> result.ToUnknown?)
    case Abandon(t) => t in s.tasks
    case Crash(_) => true
    case ExpireLease(id) => id in s.sessions && s.sessions[id].progress.token.Some? && !IsHeld(s, id)
    case OperatorCancel(id) => id in s.sessions
  }

  function Apply(s: State, c: Choice): State
    requires Enabled(s, c)
  {
    match c
    case Start(t, process, failureId) =>
      s.(tasks := s.tasks[t := Task(process, failureId, s.failures[failureId].pointer, Fetching)])
    case Fetch(t) => Enter(s, t, Checking(s.failures[s.tasks[t].failureId]))
    case Check(t, eligible) => CheckRow(s, t, s.tasks[t].phase.row, eligible, WaitingLock)
    case Acquire(t) => Enter(s, t, Rereading).(locks := s.locks[LockKey(s.tasks[t]) := t])
    case Reread(t) => Enter(s, t, Rechecking(s.failures[s.tasks[t].failureId]))
    case Recheck(t, eligible) => CheckRow(s, t, s.tasks[t].phase.row, eligible, Preparing(s.tasks[t].phase.row))
    case Join(t) => JoinSession(s, t)
    case Prepare(t, id, maxAttempts, corrections, executable) =>
      PrepareSession(s, t, id, maxAttempts, corrections, executable)
    case Register(t) =>
      var id := s.tasks[t].phase.sessionId;
      Enter(s, t, Looping(id)).(active := s.active[ActiveKey(s.tasks[t]) := Active(id, s.tasks[t].failureId, t)])
    case TakeClaim(t, token, delivered) => Claiming(s, t, token, delivered)
    case Send(t) => Sending(s, t)
    case Acknowledge(t) => Enter(s, t, s.tasks[t].phase.(waiting := false))
    case Await(t, delivered) => Awaiting(s, t, delivered)
    case Conclude(t, result, delivered, recurred) => Concluding(s, t, result, delivered, recurred)
    case Abandon(t) => End(s, t)
    case Crash(process) => CrashProcess(s, process)
    case ExpireLease(id) =>
      var token := s.sessions[id].progress.token.value;
      var expired := Update(s, id, Expire(token), [Settled(id, token, Unknown)]);
      if expired.Some? then expired.value else s
    case OperatorCancel(id) =>
      var cancelled := Update(s, id, RecoveryLifecycle.CancelByOperator, [CancelledByOperator(id)]);
      if cancelled.Some? then cancelled.value else s
  }

  // ---------------------------------------------------------------- the protocol one session must follow

  /** A session as an observer of the trace sees it. */
  datatype Verdict = Idle(attempts: int) | Live(attempts: int, token: string, sent: nat) | Stopped(attempts: int) | Rejected

  /** What may come next: claims within the budget, commands in script order, conclusions of the live attempt. */
  function Observe(v: Verdict, e: Event, script: seq<Dispatch>, maxAttempts: nat): Verdict {
    match (v, e)
    case (Idle(n), Claimed(_, token)) => if n < maxAttempts then Live(n + 1, token, 0) else Rejected
    case (Idle(n), CancelledByOperator(_)) => Stopped(n)
    case (Live(n, token, k), Dispatched(_, other, command)) =>
      if other == token && k < |script| && command == script[k] then Live(n, token, k + 1) else Rejected
    case (Live(n, token, k), Settled(_, other, status)) =>
      if other != token then Rejected else ObserveSettled(v, status, script, maxAttempts)
    case _ => Rejected
  }

  function ObserveSettled(v: Verdict, status: Status, script: seq<Dispatch>, maxAttempts: nat): Verdict
    requires v.Live?
  {
    match status
    case AwaitingOutcome => if v.sent == |script| then v else Rejected
    case Recovered => if v.sent == |script| then Stopped(v.attempts) else Rejected
    case Failed => if v.sent == |script| && v.attempts < maxAttempts then Idle(v.attempts) else Rejected
    case TimedOut => if v.sent == |script| && v.attempts == maxAttempts then Stopped(v.attempts) else Rejected
    case Unknown => Stopped(v.attempts)
    case _ => Rejected
  }

  function Judge(trace: seq<Event>, id: string, script: seq<Dispatch>, maxAttempts: nat): Verdict {
    if trace == [] then Idle(0)
    else
      var earlier := Judge(trace[..|trace| - 1], id, script, maxAttempts);
      var last := trace[|trace| - 1];
      if last.session == id then Observe(earlier, last, script, maxAttempts) else earlier
  }

  lemma JudgePush(trace: seq<Event>, e: Event, id: string, script: seq<Dispatch>, maxAttempts: nat)
    ensures Judge(trace + [e], id, script, maxAttempts)
      == if e.session == id then Observe(Judge(trace, id, script, maxAttempts), e, script, maxAttempts)
         else Judge(trace, id, script, maxAttempts)
  {
    assert (trace + [e])[..|trace|] == trace;
  }

  lemma {:induction false} JudgeStranger(trace: seq<Event>, id: string, script: seq<Dispatch>, maxAttempts: nat)
    requires forall i | 0 <= i < |trace| :: trace[i].session != id
    ensures Judge(trace, id, script, maxAttempts) == Idle(0)
  {
    if trace != [] {
      JudgeStranger(trace[..|trace| - 1], id, script, maxAttempts);
    }
  }

  function VerdictOf(trace: seq<Event>, id: string, stored: Stored): Verdict {
    Judge(trace, id, Script(stored.corrections), stored.maxAttempts)
  }

  // ---------------------------------------------------------------- the database half of the invariant

  predicate Agrees(v: Verdict, stored: Stored) {
    var p := stored.progress;
    match v
    case Idle(n) => IsClaimable(p.status) && p.attempts == n
    case Live(n, token, k) =>
      OwnsAttempt(p, token) && p.attempts == n && (p.status.AwaitingOutcome? ==> k == |Script(stored.corrections)|)
    case Stopped(n) => IsTerminal(p.status) && p.attempts == n
    case Rejected => false
  }

  predicate SessionOk(trace: seq<Event>, id: string, stored: Stored) {
    1 <= stored.maxAttempts <= 20
    && LifecycleOk(stored.progress, stored.maxAttempts)
    && Agrees(VerdictOf(trace, id, stored), stored)
  }

  /** A task that holds a token owns the live attempt and has sent exactly what the trace shows. */
  predicate TokenOk(sessions: map<string, Stored>, trace: seq<Event>, phase: Phase) {
    HoldsToken(phase) ==>
      phase.sessionId in sessions
      && var stored := sessions[phase.sessionId];
      var sent := if phase.Attempting? then phase.sent else |Script(stored.corrections)|;
      OwnsAttempt(stored.progress, phase.token) && sent <= |Script(stored.corrections)|
      && VerdictOf(trace, phase.sessionId, stored) == Live(stored.progress.attempts, phase.token, sent)
  }

  predicate TokensFresh(trace: seq<Event>) {
    forall i, j | 0 <= i < j < |trace| && trace[i].Claimed? && trace[j].Claimed? :: trace[i].token != trace[j].token
  }

  predicate SessionsOk(sessions: map<string, Stored>, trace: seq<Event>) {
    && (forall id <- sessions :: SessionOk(trace, id, sessions[id]))
    && (forall i | 0 <= i < |trace| :: trace[i].session in sessions)
    && TokensFresh(trace)
  }

  predicate TokensOk(sessions: map<string, Stored>, tasks: map<nat, Task>, trace: seq<Event>) {
    && (forall t <- tasks :: TokenOk(sessions, trace, tasks[t].phase))
    && (forall t, u | t in tasks && u in tasks && HoldsToken(tasks[t].phase) && HoldsToken(tasks[u].phase)
          && tasks[t].phase.sessionId == tasks[u].phase.sessionId :: t == u)
  }

  predicate DatabaseOk(s: State) {
    SessionsOk(s.sessions, s.trace) && TokensOk(s.sessions, s.tasks, s.trace)
  }

  /** An event on one session, with its new row, keeps every other session as it was. */
  lemma SessionsMove(sessions: map<string, Stored>, trace: seq<Event>, id: string, stored: Stored, e: Event)
    requires SessionsOk(sessions, trace) && id in sessions && e.session == id
    requires SessionOk(trace + [e], id, stored)
    requires e.Claimed? ==> forall i | 0 <= i < |trace| :: trace[i].Claimed? ==> trace[i].token != e.token
    ensures SessionsOk(sessions[id := stored], trace + [e])
  {
    hide Judge, Observe, Script, Agrees, LifecycleOk;
    forall other <- sessions | other != id ensures SessionOk(trace + [e], other, sessions[other]) {
      JudgePush(trace, e, other, Script(sessions[other].corrections), sessions[other].maxAttempts);
    }
  }

  lemma TokenKept(sessions: map<string, Stored>, trace: seq<Event>, id: string, stored: Stored, e: Event, phase: Phase)
    requires TokenOk(sessions, trace, phase) && e.session == id && (HoldsToken(phase) ==> phase.sessionId != id)
    ensures TokenOk(sessions[id := stored], trace + [e], phase)
  {
    hide Judge, Observe, Script, OwnsAttempt;
    if HoldsToken(phase) {
      var other := sessions[phase.sessionId];
      JudgePush(trace, e, phase.sessionId, Script(other.corrections), other.maxAttempts);
    }
  }

  predicate OnlyHolder(tasks: map<nat, Task>, t: nat, id: string) {
    forall u <- tasks | HoldsToken(tasks[u].phase) && tasks[u].phase.sessionId == id :: u == t
  }

  function Retask(tasks: map<nat, Task>, t: nat, phase: Option<Phase>): map<nat, Task>
    requires t in tasks
  {
    if phase.None? then tasks - {t} else tasks[t := tasks[t].(phase := phase.value)]
  }

  /** One task moves on a session and an event is logged: the other tasks keep their tokens. */
  lemma TaskMoves(s: State, t: nat, id: string, stored: Stored, e: Event, phase: Option<Phase>)
    requires DatabaseOk(s) && t in s.tasks && id in s.sessions && e.session == id
    requires e.Claimed? ==> IsFreshToken(s, e.token)
    requires SessionOk(s.trace + [e], id, stored)
    requires OnlyHolder(s.tasks, t, id)
    requires phase.Some? ==>
      TokenOk(s.sessions[id := stored], s.trace + [e], phase.value)
      && (HoldsToken(phase.value) ==> phase.value.sessionId == id)
    ensures SessionsOk(s.sessions[id := stored], s.trace + [e])
    ensures TokensOk(s.sessions[id := stored], Retask(s.tasks, t, phase), s.trace + [e])
  {
    hide TokenOk, SessionOk, HoldsToken;
    SessionsMove(s.sessions, s.trace, id, stored, e);
    var after := Retask(s.tasks, t, phase);
    forall u <- after ensures TokenOk(s.sessions[id := stored], s.trace + [e], after[u].phase) {
      if u != t {
        TokenKept(s.sessions, s.trace, id, stored, e, s.tasks[u].phase);
      }
    }
  }

  /** The same for an event no task causes, on a session no task works on. */
  lemma SessionMoves(s: State, id: string, stored: Stored, e: Event)
    requires DatabaseOk(s) && id in s.sessions && e.session == id && !e.Claimed?
    requires SessionOk(s.trace + [e], id, stored)
    requires !IsHeld(s, id)
    ensures SessionsOk(s.sessions[id := stored], s.trace + [e])
    ensures TokensOk(s.sessions[id := stored], s.tasks, s.trace + [e])
  {
    hide TokenOk, SessionOk, HoldsToken;
    SessionsMove(s.sessions, s.trace, id, stored, e);
    forall u <- s.tasks ensures TokenOk(s.sessions[id := stored], s.trace + [e], s.tasks[u].phase) {
      TokenKept(s.sessions, s.trace, id, stored, e, s.tasks[u].phase);
    }
  }

  /** A row no attempt owns is worked on by nobody. */
  lemma InactiveIsUnheld(s: State, id: string)
    requires DatabaseOk(s) && id in s.sessions && !IsActive(s.sessions[id].progress.status)
    ensures !IsHeld(s, id)
  {
    hide SessionsOk, Script, Judge, VerdictOf;
  }

  /** Tasks that end or let go of their token do no harm. */
  lemma TokensShrink(sessions: map<string, Stored>, tasks: map<nat, Task>, trace: seq<Event>, after: map<nat, Task>)
    requires TokensOk(sessions, tasks, trace)
    requires forall t <- after | HoldsToken(after[t].phase) :: t in tasks && after[t].phase == tasks[t].phase
    ensures TokensOk(sessions, after, trace)
  {
    hide Judge, Script, OwnsAttempt;
  }

  lemma ClaimAgrees(trace: seq<Event>, id: string, stored: Stored, failureId: string, token: string, p: Progress)
    requires SessionOk(trace, id, stored)
    requires Moved(stored.progress, Claim(failureId, token), stored.maxAttempts) == Some(p)
    ensures SessionOk(trace + [Claimed(id, token)], id, stored.(progress := p))
    ensures VerdictOf(trace + [Claimed(id, token)], id, stored.(progress := p)) == Live(p.attempts, token, 0)
  {
    hide Judge, Script;
    JudgePush(trace, Claimed(id, token), id, Script(stored.corrections), stored.maxAttempts);
  }

  lemma ClaimKeepsDatabase(s: State, t: nat, token: string, delivered: bool)
    requires DatabaseOk(s) && Enabled(s, TakeClaim(t, token, delivered))
    ensures DatabaseOk(Claiming(s, t, token, delivered))
  {
    var id := s.tasks[t].phase.sessionId;
    var stored := s.sessions[id];
    var call := Claim(s.active[ActiveKey(s.tasks[t])].currentFailureId, token);
    var p := Moved(stored.progress, call, stored.maxAttempts);
    if p.None? {
      hide TokenOk, SessionOk;
      TokensShrink(s.sessions, s.tasks, s.trace, s.tasks - {t});
    } else {
      InactiveIsUnheld(s, id);
      hide Judge, Script, SessionsOk, TokensOk;
      assert SessionOk(s.trace, id, stored) by { DatabaseSession(s, id); }
      ClaimAgrees(s.trace, id, stored, call.failureId, token, p.value);
      var phase := if delivered then Some(Attempting(id, token, 0, false)) else None;
      TaskMoves(s, t, id, stored.(progress := p.value), Claimed(id, token), phase);
    }
  }

  lemma DatabaseSession(s: State, id: string)
    requires DatabaseOk(s) && id in s.sessions
    ensures SessionOk(s.trace, id, s.sessions[id])
  {
  }

  lemma DatabaseToken(s: State, t: nat)
    requires DatabaseOk(s) && t in s.tasks && HoldsToken(s.tasks[t].phase)
    ensures TokenOk(s.sessions, s.trace, s.tasks[t].phase)
    ensures OnlyHolder(s.tasks, t, s.tasks[t].phase.sessionId)
  {
    hide TokenOk, SessionsOk;
  }

  lemma SendAgrees(trace: seq<Event>, id: string, stored: Stored, token: string, sent: nat)
    requires SessionOk(trace, id, stored) && VerdictOf(trace, id, stored) == Live(stored.progress.attempts, token, sent)
    requires sent < |Script(stored.corrections)|
    ensures
      var e := Dispatched(id, token, Script(stored.corrections)[sent]);
      SessionOk(trace + [e], id, stored)
      && VerdictOf(trace + [e], id, stored) == Live(stored.progress.attempts, token, sent + 1)
  {
    hide Judge, Script;
    JudgePush(
      trace, Dispatched(id, token, Script(stored.corrections)[sent]), id, Script(stored.corrections), stored.maxAttempts);
  }

  lemma SendKeepsDatabase(s: State, t: nat)
    requires DatabaseOk(s) && Enabled(s, Send(t))
    ensures DatabaseOk(Sending(s, t))
  {
    var p := s.tasks[t].phase;
    var stored := s.sessions[p.sessionId];
    hide Judge, Script, SessionsOk, TokensOk, SessionOk, VerdictOf;
    DatabaseSession(s, p.sessionId);
    DatabaseToken(s, t);
    SendAgrees(s.trace, p.sessionId, stored, p.token, p.sent);
    assert s.sessions[p.sessionId := stored] == s.sessions;
    TaskMoves(
      s, t, p.sessionId, stored, Dispatched(p.sessionId, p.token, Script(stored.corrections)[p.sent]),
      Some(p.(sent := p.sent + 1, waiting := true)));
  }

  lemma FinishAgrees(trace: seq<Event>, id: string, stored: Stored, token: string, sent: nat, result: FinishResult)
    requires SessionOk(trace, id, stored) && VerdictOf(trace, id, stored) == Live(stored.progress.attempts, token, sent)
    requires sent == |Script(stored.corrections)| || result.ToUnknown?
    ensures OwnsAttempt(stored.progress, token)
    ensures
      var status := FinishedStatus(result, stored.progress, stored.maxAttempts);
      var after := stored.(progress := stored.progress.(status := status));
      SessionOk(trace + [Settled(id, token, status)], id, after)
      && (result.ToAwaiting? ==>
            VerdictOf(trace + [Settled(id, token, status)], id, after) == Live(stored.progress.attempts, token, sent))
  {
    hide Judge, Script;
    var status := FinishedStatus(result, stored.progress, stored.maxAttempts);
    JudgePush(trace, Settled(id, token, status), id, Script(stored.corrections), stored.maxAttempts);
  }

  lemma AwaitKeepsDatabase(s: State, t: nat, delivered: bool)
    requires DatabaseOk(s) && Enabled(s, Await(t, delivered))
    ensures DatabaseOk(Awaiting(s, t, delivered))
  {
    var p := s.tasks[t].phase;
    var stored := s.sessions[p.sessionId];
    hide Judge, Script, SessionsOk, TokensOk, SessionOk, VerdictOf;
    DatabaseSession(s, p.sessionId);
    DatabaseToken(s, t);
    FinishAgrees(s.trace, p.sessionId, stored, p.token, p.sent, ToAwaiting);
    var phase := if delivered then Some(Observing(p.sessionId, p.token)) else None;
    TaskMoves(
      s, t, p.sessionId, stored.(progress := stored.progress.(status := AwaitingOutcome)),
      Settled(p.sessionId, p.token, AwaitingOutcome), phase);
  }

  lemma ConcludingShape(s: State, t: nat, result: FinishResult, delivered: bool, recurred: bool)
    requires Enabled(s, Conclude(t, result, delivered, recurred))
    requires OwnsAttempt(s.sessions[s.tasks[t].phase.sessionId].progress, s.tasks[t].phase.token)
    ensures
      var p, after := s.tasks[t].phase, Concluding(s, t, result, delivered, recurred);
      var stored := s.sessions[p.sessionId];
      var status := FinishedStatus(result, stored.progress, stored.maxAttempts);
      after.sessions == s.sessions[p.sessionId := stored.(progress := stored.progress.(status := status))]
      && after.trace == s.trace + [Settled(p.sessionId, p.token, status)]
      && after.tasks
           == Retask(s.tasks, t, if delivered && status.Failed? && recurred then Some(Looping(p.sessionId)) else None)
  {
  }

  lemma ConcludeKeepsDatabase(s: State, t: nat, result: FinishResult, delivered: bool, recurred: bool)
    requires DatabaseOk(s) && Enabled(s, Conclude(t, result, delivered, recurred))
    ensures DatabaseOk(Concluding(s, t, result, delivered, recurred))
  {
    hide Script, SessionsOk, TokensOk, SessionOk, VerdictOf, Concluding, FinishedStatus;
    var p := s.tasks[t].phase;
    var stored := s.sessions[p.sessionId];
    DatabaseSession(s, p.sessionId);
    DatabaseToken(s, t);
    var sent := if p.Attempting? then p.sent else |Script(stored.corrections)|;
    FinishAgrees(s.trace, p.sessionId, stored, p.token, sent, result);
    ConcludingShape(s, t, result, delivered, recurred);
    var status := FinishedStatus(result, stored.progress, stored.maxAttempts);
    var phase := if delivered && status.Failed? && recurred then Some(Looping(p.sessionId)) else None;
    TaskMoves(
      s, t, p.sessionId, stored.(progress := stored.progress.(status := status)),
      Settled(p.sessionId, p.token, status), phase);
  }

  lemma ExpireAgrees(trace: seq<Event>, id: string, stored: Stored, token: string)
    requires SessionOk(trace, id, stored) && OwnsAttempt(stored.progress, token)
    ensures SessionOk(trace + [Settled(id, token, Unknown)], id, stored.(progress := stored.progress.(status := Unknown)))
  {
    hide Judge, Script;
    JudgePush(trace, Settled(id, token, Unknown), id, Script(stored.corrections), stored.maxAttempts);
  }

  lemma ExpireKeepsDatabase(s: State, id: string)
    requires DatabaseOk(s) && Enabled(s, ExpireLease(id))
    ensures DatabaseOk(Apply(s, ExpireLease(id)))
  {
    hide SessionOk, SessionsOk, TokensOk;
    var stored := s.sessions[id];
    var token := stored.progress.token.value;
    DatabaseSession(s, id);
    if OwnsAttempt(stored.progress, token) {
      ExpireAgrees(s.trace, id, stored, token);
      SessionMoves(
        s, id, stored.(progress := stored.progress.(status := Unknown)), Settled(id, token, Unknown));
    }
  }

  lemma CancelAgrees(trace: seq<Event>, id: string, stored: Stored)
    requires SessionOk(trace, id, stored) && IsClaimable(stored.progress.status)
    ensures SessionOk(trace + [CancelledByOperator(id)], id, stored.(progress := stored.progress.(status := Cancelled)))
  {
    hide Judge, Script;
    JudgePush(trace, CancelledByOperator(id), id, Script(stored.corrections), stored.maxAttempts);
  }

  lemma CancelKeepsDatabase(s: State, id: string)
    requires DatabaseOk(s) && Enabled(s, OperatorCancel(id))
    ensures DatabaseOk(Apply(s, OperatorCancel(id)))
  {
    hide SessionOk, SessionsOk, TokensOk;
    var stored := s.sessions[id];
    DatabaseSession(s, id);
    if IsClaimable(stored.progress.status) {
      InactiveIsUnheld(s, id);
      CancelAgrees(s.trace, id, stored);
      SessionMoves(s, id, stored.(progress := stored.progress.(status := Cancelled)), CancelledByOperator(id));
    }
  }

  /** Changing only whose failure a session is about changes nothing for the protocol. */
  lemma JoinKeepsDatabase(s: State, t: nat)
    requires DatabaseOk(s) && Enabled(s, Join(t))
    ensures DatabaseOk(JoinSession(s, t))
  {
    var id := s.tasks[t].phase.sessionId;
    hide Judge, Script;
    if id in s.sessions {
      var stored := s.sessions[id];
      var sessions := s.sessions[id := stored.(progress := stored.progress.(currentFailureId := s.tasks[t].failureId))];
      forall other <- sessions ensures SessionOk(s.trace, other, sessions[other]) {
        DatabaseSession(s, other);
      }
      forall u <- s.tasks ensures TokenOk(sessions, s.trace, s.tasks[u].phase) {
        assert TokenOk(s.sessions, s.trace, s.tasks[u].phase);
      }
      TokensShrink(sessions, s.tasks, s.trace, s.tasks - {t});
    } else {
      TokensShrink(s.sessions, s.tasks, s.trace, s.tasks - {t});
    }
  }

  lemma PrepareKeepsDatabase(
      s: State, t: nat, id: string, maxAttempts: nat, corrections: seq<Action>, executable: bool)
    requires DatabaseOk(s) && Enabled(s, Prepare(t, id, maxAttempts, corrections, executable))
    ensures DatabaseOk(PrepareSession(s, t, id, maxAttempts, corrections, executable))
  {
    hide Judge, Script;
    var after := PrepareSession(s, t, id, maxAttempts, corrections, executable);
    if id in s.sessions {
      TokensShrink(s.sessions, s.tasks, s.trace, after.tasks);
    } else {
      var pinned := Stored(s.tasks[t].pointer, maxAttempts, corrections, Progress(Ready, 0, None, s.tasks[t].failureId));
      JudgeStranger(s.trace, id, Script(corrections), maxAttempts);
      var sessions := s.sessions[id := pinned];
      forall other <- sessions ensures SessionOk(s.trace, other, sessions[other]) {
        if other != id {
          DatabaseSession(s, other);
        }
      }
      forall u <- s.tasks ensures TokenOk(sessions, s.trace, s.tasks[u].phase) {
        assert TokenOk(s.sessions, s.trace, s.tasks[u].phase);
      }
      TokensShrink(sessions, s.tasks, s.trace, after.tasks);
    }
  }

  /** Every other choice leaves the sessions and the trace alone and lets no task gain a token. */
  predicate IsQuiet(c: Choice) {
    c.Start? || c.Fetch? || c.Check? || c.Acquire? || c.Reread? || c.Recheck? || c.Register? || c.Acknowledge?
    || c.Abandon? || c.Crash?
  }

  /** The sessions and the trace stay, and every token held after was held before. */
  predicate Shrinks(s: State, after: State) {
    after.sessions == s.sessions && after.trace == s.trace
    && forall t <- after.tasks | HoldsToken(after.tasks[t].phase) :: t in s.tasks && after.tasks[t].phase == s.tasks[t].phase
  }

  lemma CheckShrinks(s: State, t: nat, row: Failure, eligible: bool, next: Phase)
    requires t in s.tasks && !HoldsToken(next)
    ensures Shrinks(s, CheckRow(s, t, row, eligible, next))
  {
    hide HoldsLock, ActiveKey;
  }

  lemma QuietShrinks(s: State, c: Choice)
    requires Enabled(s, c) && IsQuiet(c) && !c.Acknowledge?
    ensures Shrinks(s, Apply(s, c))
  {
    hide CheckRow, Claiming, Sending, Awaiting, Concluding, JoinSession, PrepareSession, Update, LockKey, ActiveKey;
    match c
    case Check(t, eligible) => CheckShrinks(s, t, s.tasks[t].phase.row, eligible, WaitingLock);
    case Recheck(t, eligible) => CheckShrinks(s, t, s.tasks[t].phase.row, eligible, Preparing(s.tasks[t].phase.row));
    case _ =>
  }

  lemma QuietKeepsDatabase(s: State, c: Choice)
    requires DatabaseOk(s) && Enabled(s, c) && IsQuiet(c) && !c.Acknowledge?
    ensures DatabaseOk(Apply(s, c))
  {
    hide TokenOk, SessionsOk, Apply, Enabled, IsQuiet;
    QuietShrinks(s, c);
    TokensShrink(s.sessions, s.tasks, s.trace, Apply(s, c).tasks);
  }

  lemma AcknowledgeKeepsDatabase(s: State, t: nat)
    requires DatabaseOk(s) && Enabled(s, Acknowledge(t))
    ensures DatabaseOk(Apply(s, Acknowledge(t)))
  {
    hide Judge, Script, SessionOk, OwnsAttempt;
    var after := Apply(s, Acknowledge(t));
    forall u <- after.tasks ensures TokenOk(s.sessions, s.trace, after.tasks[u].phase) {
      assert TokenOk(s.sessions, s.trace, s.tasks[u].phase);
    }
  }

  lemma DatabaseKept(s: State, c: Choice)
    requires DatabaseOk(s) && Enabled(s, c)
    ensures DatabaseOk(Apply(s, c))
  {
    hide DatabaseOk, Claiming, Sending, Awaiting, Concluding, JoinSession, PrepareSession, Update, CheckRow, End, Enter;
    match c
    case TakeClaim(t, token, delivered) => ClaimKeepsDatabase(s, t, token, delivered);
    case Send(t) => SendKeepsDatabase(s, t);
    case Await(t, delivered) => AwaitKeepsDatabase(s, t, delivered);
    case Conclude(t, result, delivered, recurred) => ConcludeKeepsDatabase(s, t, result, delivered, recurred);
    case ExpireLease(id) => ExpireKeepsDatabase(s, id);
    case OperatorCancel(id) => CancelKeepsDatabase(s, id);
    case Join(t) => JoinKeepsDatabase(s, t);
    case Prepare(t, id, maxAttempts, corrections, executable) =>
      PrepareKeepsDatabase(s, t, id, maxAttempts, corrections, executable);
    case Acknowledge(t) => AcknowledgeKeepsDatabase(s, t);
    case _ => QuietKeepsDatabase(s, c);
  }
}
