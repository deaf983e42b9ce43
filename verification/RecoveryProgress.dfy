/**
 How a `process_failure` task gets where it is (`RecoveryCoordinator.process_failure`, `_process_claimed_failure` in
 `recovery_executor.py`): no check on the way is skipped, and all it does is for the step that failed.
 */
module RecoveryProgress {
  import opened Text
  import opened RecoveryLifecycle
  import opened RecoveryRuns
  import opened RecoveryGuarantees

  // ---------------------------------------------------------------- nothing is skipped

  /** How far a task has come; a task that is gone or joins another recovery has come nowhere. */
  function Level(tasks: map<nat, Task>, t: nat): nat {
    if t !in tasks then 0
    else
      match tasks[t].phase
      case Fetching => 1
      case Checking(_) => 2
      case WaitingLock => 3
      case Rereading => 4
      case Rechecking(_) => 5
      case Attaching(_, _, _) => 0
      case Preparing(_) => 6
      case Grace(_) => 7
      case Looping(_) => 8
      case Attempting(_, _, _, _) => 9
      case Observing(_, _) => 10
  }

  /** What lifts the task from this level to the next: found eligible before and after the wait for the robot, and so on. */
  predicate Lifts(c: Choice, t: nat, level: nat) {
    match level
    case 0 => c.Start? && c.task == t
    case 1 => c == Fetch(t)
    case 2 => c == Check(t, true)
    case 3 => c == Acquire(t)
    case 4 => c == Reread(t)
    case 5 => c == Recheck(t, true)
    case 6 => c.Prepare? && c.task == t && c.executable
    case 7 => c == Register(t)
    case 8 => c.TakeClaim? && c.task == t && c.delivered
    case 9 => c == Await(t, true)
    case _ => false
  }

  /** The choices lift the task through these levels, one after the other. */
  ghost predicate Climbs(choices: seq<Choice>, t: nat, low: nat, high: nat)
    decreases |choices|
  {
    low < high ==> exists k: nat :: IsLift(choices, k, t, low) && Climbs(choices[k + 1..], t, low + 1, high)
  }

  predicate IsLift(choices: seq<Choice>, k: nat, t: nat, level: nat) {
    k < |choices| && Lifts(choices[k], t, level)
  }

  lemma ClimbsLater(c: Choice, choices: seq<Choice>, t: nat, low: nat, high: nat)
    requires Climbs(choices, t, low, high)
    ensures Climbs([c] + choices, t, low, high)
  {
    if low < high {
      var k: nat :| IsLift(choices, k, t, low) && Climbs(choices[k + 1..], t, low + 1, high);
      assert ([c] + choices)[k + 2..] == choices[k + 1..];
      assert IsLift([c] + choices, k + 1, t, low);
    }
  }

  lemma {:induction false} ClimbsFrom(choices: seq<Choice>, t: nat, low: nat, middle: nat, high: nat)
    requires low <= middle && Climbs(choices, t, low, high)
    ensures Climbs(choices, t, middle, high)
    decreases middle - low
  {
    if low < middle && low < high {
      var k: nat :| IsLift(choices, k, t, low) && Climbs(choices[k + 1..], t, low + 1, high);
      ClimbsFrom(choices[k + 1..], t, low + 1, middle, high);
      ClimbsAfter(choices, k + 1, t, middle, high);
    }
  }

  lemma {:induction false} ClimbsAfter(choices: seq<Choice>, n: nat, t: nat, low: nat, high: nat)
    requires n <= |choices| && Climbs(choices[n..], t, low, high)
    ensures Climbs(choices, t, low, high)
    decreases n
  {
    if n > 0 {
      assert choices[n - 1..] == [choices[n - 1]] + choices[n..];
      ClimbsLater(choices[n - 1], choices[n..], t, low, high);
      ClimbsAfter(choices, n - 1, t, low, high);
    } else {
      assert choices[n..] == choices;
    }
  }

  /** One step lifts a task by at most one level, and only by what that level asks for. */
  predicate Advances(s: State, c: Choice, t: nat)
    requires Enabled(s, c)
  {
    var before, after := Level(s.tasks, t), Level(Apply(s, c).tasks, t);
    after <= before || (after == before + 1 && Lifts(c, t, before))
  }

  lemma EnterLevel(s: State, u: nat, phase: Phase, t: nat)
    requires u in s.tasks
    ensures t != u ==> Level(Enter(s, u, phase).tasks, t) == Level(s.tasks, t)
    ensures u in Enter(s, u, phase).tasks && Enter(s, u, phase).tasks[u].phase == phase
  {
  }

  lemma EndLevel(s: State, u: nat, t: nat)
    ensures Level(End(s, u).tasks, t) == if t == u then 0 else Level(s.tasks, t)
  {
  }

  lemma CheckAdvances(s: State, u: nat, row: Failure, eligible: bool, next: Phase, t: nat)
    requires u in s.tasks
    ensures
      var after := CheckRow(s, u, row, eligible, next).tasks;
      && (t != u ==> Level(after, t) == Level(s.tasks, t))
      && (t == u ==> Level(after, t) == 0 || (eligible && t in after && after[t].phase == next))
  {
    EnterLevel(s, u, next, t);
    EndLevel(s, u, t);
  }

  lemma AttachAdvances(s: State, c: Choice, t: nat)
    requires Enabled(s, c) && (c.Join? || c.Prepare?)
    ensures Advances(s, c, t)
  {
    EndLevel(s, c.task, t);
  }

  lemma ClaimAdvances(s: State, c: Choice, t: nat)
    requires Enabled(s, c) && c.TakeClaim?
    ensures Advances(s, c, t)
  {
    hide Moved, IsFreshToken, End;
    var id := s.tasks[c.task].phase.sessionId;
    var claimed := Update(s, id, Claim(s.active[ActiveKey(s.tasks[c.task])].currentFailureId, c.token), [Claimed(id, c.token)]);
    EndLevel(s, c.task, t);
    if claimed.Some? {
      EndLevel(claimed.value, c.task, t);
    }
  }

  lemma AwaitAdvances(s: State, c: Choice, t: nat)
    requires Enabled(s, c) && c.Await?
    ensures Advances(s, c, t)
  {
    hide Moved, Script, End;
    var p := s.tasks[c.task].phase;
    var moved := Update(s, p.sessionId, Finish(p.token, ToAwaiting), [Settled(p.sessionId, p.token, AwaitingOutcome)]);
    EndLevel(s, c.task, t);
    if moved.Some? {
      EndLevel(moved.value, c.task, t);
    }
  }

  lemma ConcludeAdvances(s: State, c: Choice, t: nat)
    requires Enabled(s, c) && c.Conclude?
    ensures Advances(s, c, t)
  {
    hide Moved, Script, FinishedStatus, End;
    var p := s.tasks[c.task].phase;
    var stored := s.sessions[p.sessionId];
    var status := FinishedStatus(c.result, stored.progress, stored.maxAttempts);
    var moved := Update(s, p.sessionId, Finish(p.token, c.result), [Settled(p.sessionId, p.token, status)]);
    EndLevel(s, c.task, t);
    if moved.Some? {
      EndLevel(moved.value, c.task, t);
    }
  }

  lemma SendAdvances(s: State, c: Choice, t: nat)
    requires Enabled(s, c) && (c.Send? || c.Acknowledge?)
    ensures Advances(s, c, t)
  {
    hide Script;
  }

  lemma OtherAdvances(s: State, c: Choice, t: nat)
    requires Enabled(s, c)
    requires c.Start? || c.Fetch? || c.Acquire? || c.Reread? || c.Register? || c.Abandon? || c.Crash? || c.ExpireLease? || c.OperatorCancel?
    ensures Advances(s, c, t)
  {
    hide Moved;
  }

  lemma StepAdvances(s: State, c: Choice, t: nat)
    requires Enabled(s, c)
    ensures Advances(s, c, t)
  {
    hide CheckRow, JoinSession, PrepareSession, Claiming, Sending, Awaiting, Concluding, Update, End, CrashProcess;
    match c
    case Check(u, eligible) => CheckAdvances(s, u, s.tasks[u].phase.row, eligible, WaitingLock, t);
    case Recheck(u, eligible) =>
      CheckAdvances(s, u, s.tasks[u].phase.row, eligible, Preparing(s.tasks[u].phase.row), t);
    case Join(_) => AttachAdvances(s, c, t);
    case Prepare(_, _, _, _, _) => AttachAdvances(s, c, t);
    case TakeClaim(_, _, _) => ClaimAdvances(s, c, t);
    case Send(_) => SendAdvances(s, c, t);
    case Acknowledge(_) => SendAdvances(s, c, t);
    case Await(_, _) => AwaitAdvances(s, c, t);
    case Conclude(_, _, _, _) => ConcludeAdvances(s, c, t);
    case _ => OtherAdvances(s, c, t);
  }

  lemma {:induction false} RunClimbs(s: State, choices: seq<Choice>, t: nat)
    requires IsRun(s, choices)
    ensures Climbs(choices, t, Level(s.tasks, t), Level(ApplyAll(s, choices).tasks, t))
    decreases |choices|
  {
    hide Apply, Enabled, Level, Lifts, Climbs;
    if choices != [] {
      var c, rest := choices[0], choices[1..];
      var before, next, after := Level(s.tasks, t), Level(Apply(s, c).tasks, t), Level(ApplyAll(s, choices).tasks, t);
      StepAdvances(s, c, t);
      RunClimbs(Apply(s, c), rest, t);
      assert choices == [c] + rest;
      if next <= before {
        ClimbsFrom(rest, t, next, before, after);
        ClimbsLater(c, rest, t, before, after);
      } else {
        OneMoreClimb(choices, t, before, after);
      }
    } else {
      NoClimb(choices, t, Level(s.tasks, t));
    }
  }

  lemma OneMoreClimb(choices: seq<Choice>, t: nat, low: nat, high: nat)
    requires choices != [] && Lifts(choices[0], t, low) && Climbs(choices[1..], t, low + 1, high)
    ensures Climbs(choices, t, low, high)
  {
    assert IsLift(choices, 0, t, low);
  }

  lemma NoClimb(choices: seq<Choice>, t: nat, level: nat)
    ensures Climbs(choices, t, level, level)
  {
  }

  /**
   In every run a task is as far as it is only because each check before was passed, in order: the failure was found
   eligible, the robot was free, it was found eligible again, a session was prepared that can be executed, it was
   registered, a claim was granted and heard of, and the wait for an outcome was recorded and heard of.
   */
  lemma NothingIsSkipped(s: State, choices: seq<Choice>, t: nat)
    requires IsInitial(s) && IsRun(s, choices)
    ensures Climbs(choices, t, 0, Level(ApplyAll(s, choices).tasks, t))
  {
    hide IsRun, ApplyAll, Climbs;
    RunClimbs(s, choices, t);
  }

  // ---------------------------------------------------------------- for the step that failed

  predicate HasSession(phase: Phase) {
    phase.Attaching? || phase.Grace? || phase.Looping? || phase.Attempting? || phase.Observing?
  }

  predicate IsFor(sessions: map<string, Stored>, id: string, pointer: Pointer) {
    id in sessions && sessions[id].pointer == pointer
  }

  predicate IsTaskForItsStep(s: State, task: Task) {
    && task.failureId in s.failures && s.failures[task.failureId].pointer == task.pointer
    && (HasSession(task.phase) ==> IsFor(s.sessions, task.phase.sessionId, task.pointer))
  }

  /** Tasks and registered recoveries work on sessions of the step that failed. */
  predicate IsForItsStep(s: State) {
    && (forall t | t in s.tasks :: IsTaskForItsStep(s, s.tasks[t]))
    && (forall k | k in s.active :: IsFor(s.sessions, s.active[k].sessionId, k.1))
  }

  lemma TaskOwn(s: State, t: nat)
    requires IsForItsStep(s) && t in s.tasks
    ensures IsTaskForItsStep(s, s.tasks[t])
  {
  }

  lemma EnterOwn(s: State, t: nat, phase: Phase)
    requires IsForItsStep(s) && t in s.tasks
    requires HasSession(phase) ==> IsFor(s.sessions, phase.sessionId, s.tasks[t].pointer)
    ensures IsForItsStep(Enter(s, t, phase))
  {
    hide IsFor;
    TaskOwn(s, t);
  }

  lemma EndOwn(s: State, t: nat)
    requires IsForItsStep(s)
    ensures IsForItsStep(End(s, t))
  {
    hide IsFor;
  }

  lemma RegisterOwn(s: State, key: (nat, Pointer), entry: Active)
    requires IsForItsStep(s) && IsFor(s.sessions, entry.sessionId, key.1)
    ensures IsForItsStep(s.(active := s.active[key := entry]))
  {
    hide IsFor;
  }

  lemma LinkOwn(s: State, failureId: string, id: string)
    requires IsForItsStep(s) && failureId in s.failures
    ensures IsForItsStep(s.(failures := s.failures[failureId := s.failures[failureId].(sessionId := Some(id))]))
  {
    hide IsFor;
  }

  /** A session is pinned, or an old one moves on. */
  lemma SessionOwn(s: State, id: string, stored: Stored)
    requires IsForItsStep(s) && (id in s.sessions ==> s.sessions[id].pointer == stored.pointer)
    ensures IsForItsStep(s.(sessions := s.sessions[id := stored]))
  {
    var after := s.(sessions := s.sessions[id := stored]);
    forall t | t in after.tasks ensures IsTaskForItsStep(after, after.tasks[t]) {
      TaskOwn(s, t);
    }
  }

  /** The trace and the locks do not matter. */
  lemma SameOwn(before: State, after: State)
    requires IsForItsStep(before) && after == before.(trace := after.trace, locks := after.locks)
    ensures IsForItsStep(after)
  {
    hide IsFor;
    forall t | t in after.tasks ensures IsTaskForItsStep(after, after.tasks[t]) {
      TaskOwn(before, t);
    }
  }

  lemma UpdateOwn(s: State, id: string, call: Procedure, event: seq<Event>)
    requires IsForItsStep(s) && id in s.sessions
    ensures
      var updated := Update(s, id, call, event);
      updated.Some? ==>
        && IsForItsStep(updated.value) && updated.value.tasks == s.tasks
        && id in updated.value.sessions && updated.value.sessions[id].pointer == s.sessions[id].pointer
  {
    hide IsForItsStep, Moved;
    var progress := Moved(s.sessions[id].progress, call, s.sessions[id].maxAttempts);
    if progress.Some? {
      var moved := s.(sessions := s.sessions[id := s.sessions[id].(progress := progress.value)]);
      SessionOwn(s, id, s.sessions[id].(progress := progress.value));
      SameOwn(moved, moved.(trace := s.trace + event));
    }
  }

  lemma CheckOwn(s: State, t: nat, row: Failure, eligible: bool, next: Phase)
    requires IsForItsStep(s) && t in s.tasks && !HasSession(next)
    ensures IsForItsStep(CheckRow(s, t, row, eligible, next))
  {
    hide IsForItsStep, End, Enter;
    EndOwn(s, t);
    EnterOwn(s, t, next);
    var key := ActiveKey(s.tasks[t]);
    if key in s.active {
      var entry := s.active[key];
      ActiveOwn(s, key);
      EnterOwn(s, t, Attaching(entry.sessionId, entry.owner, HoldsLock(s.tasks[t].phase)));
      var followed := s.(active := s.active[key := entry.(currentFailureId := s.tasks[t].failureId)]);
      RegisterOwn(s, key, entry.(currentFailureId := s.tasks[t].failureId));
      EndOwn(followed, t);
    }
  }

  lemma ActiveOwn(s: State, key: (nat, Pointer))
    requires IsForItsStep(s) && key in s.active
    ensures IsFor(s.sessions, s.active[key].sessionId, key.1)
  {
  }

  lemma JoinOwn(s: State, t: nat)
    requires IsForItsStep(s) && Enabled(s, Join(t))
    ensures IsForItsStep(JoinSession(s, t))
  {
    hide IsForItsStep, End;
    var task := s.tasks[t];
    var id, key := task.phase.sessionId, ActiveKey(task);
    EndOwn(s, t);
    if id in s.sessions {
      LinkOwn(s, task.failureId, id);
      var linked := s.(failures := s.failures[task.failureId := s.failures[task.failureId].(sessionId := Some(id))]);
      var follows := s.sessions[id].(progress := s.sessions[id].progress.(currentFailureId := task.failureId));
      SessionOwn(linked, id, follows);
      var joined := linked.(sessions := linked.sessions[id := follows]);
      EndOwn(joined, t);
      if key in s.active && s.active[key].owner == task.phase.owner {
        var entry := s.active[key].(currentFailureId := task.failureId);
        ActiveOwn(joined, key);
        RegisterOwn(joined, key, entry);
        EndOwn(joined.(active := s.active[key := entry]), t);
      }
    }
  }

  lemma PrepareOwn(s: State, c: Choice)
    requires IsForItsStep(s) && Enabled(s, c) && c.Prepare?
    ensures IsForItsStep(Apply(s, c))
  {
    hide IsForItsStep, End, Enter;
    var t, id := c.task, c.sessionId;
    var task := s.tasks[t];
    var pinned := Stored(task.pointer, c.maxAttempts, c.corrections, Progress(Ready, 0, None, task.failureId));
    var prepared := if id in s.sessions then s else s.(sessions := s.sessions[id := pinned]);
    if id !in s.sessions {
      SessionOwn(s, id, pinned);
    }
    LinkOwn(prepared, task.failureId, id);
    var linked := prepared.(failures := s.failures[task.failureId := s.failures[task.failureId].(sessionId := Some(id))]);
    EndOwn(linked, t);
    if linked.sessions[id].pointer == task.pointer {
      EnterOwn(linked, t, Grace(id));
    }
  }

  lemma ClaimOwn(s: State, c: Choice)
    requires IsForItsStep(s) && Enabled(s, c) && c.TakeClaim?
    ensures IsForItsStep(Apply(s, c))
  {
    hide IsForItsStep, End, Enter, Update, IsFreshToken;
    var t := c.task;
    var id := s.tasks[t].phase.sessionId;
    TaskOwn(s, t);
    var call := Claim(s.active[ActiveKey(s.tasks[t])].currentFailureId, c.token);
    UpdateOwn(s, id, call, [Claimed(id, c.token)]);
    EndOwn(s, t);
    var claimed := Update(s, id, call, [Claimed(id, c.token)]);
    if claimed.Some? {
      EndOwn(claimed.value, t);
      EnterOwn(claimed.value, t, Attempting(id, c.token, 0, false));
    }
  }

  lemma SendOwn(s: State, c: Choice)
    requires IsForItsStep(s) && Enabled(s, c) && (c.Send? || c.Acknowledge?)
    ensures IsForItsStep(Apply(s, c))
  {
    hide IsForItsStep, Script;
    var p := s.tasks[c.task].phase;
    TaskOwn(s, c.task);
    var entered := Enter(s, c.task, if c.Send? then p.(sent := p.sent + 1, waiting := true) else p.(waiting := false));
    EnterOwn(s, c.task, entered.tasks[c.task].phase);
    SameOwn(entered, Apply(s, c));
  }

  lemma AwaitOwn(s: State, c: Choice)
    requires IsForItsStep(s) && Enabled(s, c) && c.Await?
    ensures IsForItsStep(Apply(s, c))
  {
    hide IsForItsStep, End, Enter, Update, Script;
    var p := s.tasks[c.task].phase;
    var event := [Settled(p.sessionId, p.token, AwaitingOutcome)];
    TaskOwn(s, c.task);
    UpdateOwn(s, p.sessionId, Finish(p.token, ToAwaiting), event);
    EndOwn(s, c.task);
    var moved := Update(s, p.sessionId, Finish(p.token, ToAwaiting), event);
    if moved.Some? {
      EndOwn(moved.value, c.task);
      EnterOwn(moved.value, c.task, Observing(p.sessionId, p.token));
    }
  }

  lemma ConcludeOwn(s: State, c: Choice)
    requires IsForItsStep(s) && Enabled(s, c) && c.Conclude?
    ensures IsForItsStep(Apply(s, c))
  {
    hide IsForItsStep, End, Enter, Update, FinishedStatus;
    var p := s.tasks[c.task].phase;
    var stored := s.sessions[p.sessionId];
    var event := [Settled(p.sessionId, p.token, FinishedStatus(c.result, stored.progress, stored.maxAttempts))];
    TaskOwn(s, c.task);
    UpdateOwn(s, p.sessionId, Finish(p.token, c.result), event);
    EndOwn(s, c.task);
    var moved := Update(s, p.sessionId, Finish(p.token, c.result), event);
    if moved.Some? {
      EndOwn(moved.value, c.task);
      EnterOwn(moved.value, c.task, Looping(p.sessionId));
    }
  }

  lemma OutsideOwn(s: State, c: Choice)
    requires IsForItsStep(s) && Enabled(s, c) && (c.ExpireLease? || c.OperatorCancel?)
    ensures IsForItsStep(Apply(s, c))
  {
    hide IsForItsStep, Update, IsHeld;
    if c.ExpireLease? {
      var token := s.sessions[c.sessionId].progress.token.value;
      UpdateOwn(s, c.sessionId, Expire(token), [Settled(c.sessionId, token, Unknown)]);
    } else {
      UpdateOwn(s, c.sessionId, RecoveryLifecycle.CancelByOperator, [CancelledByOperator(c.sessionId)]);
    }
  }

  lemma StartOwn(s: State, t: nat, process: nat, failureId: string)
    requires IsForItsStep(s) && Enabled(s, Start(t, process, failureId))
    ensures IsForItsStep(Apply(s, Start(t, process, failureId)))
  {
    hide IsFor;
  }

  lemma CrashOwn(s: State, process: nat)
    requires IsForItsStep(s)
    ensures IsForItsStep(CrashProcess(s, process))
  {
    hide IsFor;
  }

  lemma RegisteringOwn(s: State, t: nat)
    requires IsForItsStep(s) && Enabled(s, Register(t))
    ensures IsForItsStep(Apply(s, Register(t)))
  {
    hide IsForItsStep;
    var id := s.tasks[t].phase.sessionId;
    TaskOwn(s, t);
    EnterOwn(s, t, Looping(id));
    RegisterOwn(Enter(s, t, Looping(id)), ActiveKey(s.tasks[t]), Active(id, s.tasks[t].failureId, t));
  }

  lemma OwnStepKept(s: State, c: Choice)
    requires IsForItsStep(s) && Enabled(s, c)
    ensures IsForItsStep(Apply(s, c))
  {
    hide IsForItsStep, CheckRow, JoinSession, PrepareSession, Claiming, Sending, Awaiting, Concluding, Update, End, Enter, CrashProcess;
    match c
    case Start(t, process, failureId) => StartOwn(s, t, process, failureId);
    case Fetch(t) => EnterOwn(s, t, Checking(s.failures[s.tasks[t].failureId]));
    case Check(t, eligible) => CheckOwn(s, t, s.tasks[t].phase.row, eligible, WaitingLock);
    case Acquire(t) =>
      EnterOwn(s, t, Rereading);
      SameOwn(Enter(s, t, Rereading), Apply(s, c));
    case Reread(t) => EnterOwn(s, t, Rechecking(s.failures[s.tasks[t].failureId]));
    case Recheck(t, eligible) => CheckOwn(s, t, s.tasks[t].phase.row, eligible, Preparing(s.tasks[t].phase.row));
    case Join(t) => JoinOwn(s, t);
    case Prepare(_, _, _, _, _) => PrepareOwn(s, c);
    case Register(t) => RegisteringOwn(s, t);
    case TakeClaim(_, _, _) => ClaimOwn(s, c);
    case Send(_) => SendOwn(s, c);
    case Acknowledge(_) => SendOwn(s, c);
    case Await(_, _) => AwaitOwn(s, c);
    case Conclude(_, _, _, _) => ConcludeOwn(s, c);
    case Abandon(t) => EndOwn(s, t);
    case Crash(process) => CrashOwn(s, process);
    case ExpireLease(_) => OutsideOwn(s, c);
    case OperatorCancel(_) => OutsideOwn(s, c);
  }

  lemma {:induction false} OwnStepAlways(s: State, choices: seq<Choice>)
    requires IsForItsStep(s) && IsRun(s, choices)
    ensures IsForItsStep(ApplyAll(s, choices))
    decreases |choices|
  {
    hide IsForItsStep, Enabled, Apply;
    if choices != [] {
      OwnStepKept(s, choices[0]);
      OwnStepAlways(Apply(s, choices[0]), choices[1..]);
    }
  }

  /**
   In every run, whoever claims, sends or waits does so in a session pinned for the robot, Flow, index and command that
   its own failure is about, and so does every registered recovery that recurrences may join.
   */
  lemma EveryRecoveryIsForItsStep(s: State, choices: seq<Choice>, t: nat)
    requires IsInitial(s) && IsRun(s, choices)
    requires t in ApplyAll(s, choices).tasks && HasSession(ApplyAll(s, choices).tasks[t].phase)
    ensures
      var after := ApplyAll(s, choices);
      var task := after.tasks[t];
      && task.failureId in after.failures && task.phase.sessionId in after.sessions
      && after.sessions[task.phase.sessionId].pointer == task.pointer == after.failures[task.failureId].pointer
  {
    hide ApplyAll, IsRun;
    OwnStepAlways(s, choices);
    assert IsTaskForItsStep(ApplyAll(s, choices), ApplyAll(s, choices).tasks[t]);
  }

  /**
   A prepared task goes on exactly with a session of its own step that can still be executed: one pinned just now, or an
   earlier one whose last attempt failed. A session that has ended or is being attempted is never taken up again.
   */
  lemma PreparedIff(s: State, t: nat, id: string, maxAttempts: nat, corrections: seq<Action>, executable: bool)
    requires Enabled(s, Prepare(t, id, maxAttempts, corrections, executable))
    ensures
      var after := Apply(s, Prepare(t, id, maxAttempts, corrections, executable));
      && (t in after.tasks <==>
            && executable
            && (id in s.sessions ==>
                  && s.sessions[id].pointer == s.tasks[t].pointer
                  && (s.sessions[id].progress.status.Ready? || s.sessions[id].progress.status.Failed?)))
      && (t in after.tasks ==> after.tasks[t].phase == Grace(id))
      && (id in s.sessions ==> after.sessions == s.sessions)
      && (id !in s.sessions ==>
            after.sessions == s.sessions[id := Stored(
              s.tasks[t].pointer, maxAttempts, corrections, Progress(Ready, 0, None, s.tasks[t].failureId))])
  {
  }
}
