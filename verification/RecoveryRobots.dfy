/** Within a process: robot locks, the registry of active recoveries, and what happens to a recurrence. */
module RecoveryRobots {
  import opened Text
  import opened RecoveryLifecycle
  import opened RecoveryRuns

  /** The lock table and the phases agree: a lock is held exactly by the task inside its critical section. */
  predicate LocksOk(tasks: map<nat, Task>, locks: map<(nat, string), nat>) {
    && (forall k <- locks :: locks[k] in tasks && HoldsLock(tasks[locks[k]].phase) && LockKey(tasks[locks[k]]) == k)
    && (forall t <- tasks :: HoldsLock(tasks[t].phase) ==> LockKey(tasks[t]) in locks && locks[LockKey(tasks[t])] == t)
  }

  /** The registry holds exactly the recoveries of the tasks in the retry loop. */
  predicate RegistryOk(tasks: map<nat, Task>, active: map<(nat, Pointer), Active>) {
    && (forall k <- active :: IsOwner(tasks, active[k], k))
    && (forall t <- tasks :: IsRegistered(tasks[t].phase) ==>
          ActiveKey(tasks[t]) in active && active[ActiveKey(tasks[t])].owner == t)
  }

  predicate IsOwner(tasks: map<nat, Task>, entry: Active, k: (nat, Pointer)) {
    var t := entry.owner;
    t in tasks && IsRegistered(tasks[t].phase) && ActiveKey(tasks[t]) == k && tasks[t].phase.sessionId == entry.sessionId
  }

  predicate ProcessOk(s: State) {
    LocksOk(s.tasks, s.locks) && RegistryOk(s.tasks, s.active)
  }

  lemma EndKeeps(s: State, t: nat)
    requires ProcessOk(s)
    ensures ProcessOk(End(s, t))
  {
    hide HoldsLock, IsRegistered, LockKey, ActiveKey;
  }

  lemma KeysKept(task: Task, phase: Phase)
    ensures LockKey(task.(phase := phase)) == LockKey(task) && ActiveKey(task.(phase := phase)) == ActiveKey(task)
  {
  }

  lemma EnterKeepsLocks(tasks: map<nat, Task>, locks: map<(nat, string), nat>, t: nat, phase: Phase)
    requires LocksOk(tasks, locks) && t in tasks && HoldsLock(phase) == HoldsLock(tasks[t].phase)
    ensures LocksOk(tasks[t := tasks[t].(phase := phase)], locks)
  {
    hide HoldsLock, LockKey;
    KeysKept(tasks[t], phase);
  }

  lemma EnterKeepsRegistry(tasks: map<nat, Task>, active: map<(nat, Pointer), Active>, t: nat, phase: Phase)
    requires RegistryOk(tasks, active) && t in tasks && IsRegistered(phase) == IsRegistered(tasks[t].phase)
    requires IsRegistered(phase) ==> phase.sessionId == tasks[t].phase.sessionId
    ensures RegistryOk(tasks[t := tasks[t].(phase := phase)], active)
  {
    hide IsRegistered, ActiveKey;
    KeysKept(tasks[t], phase);
  }

  /** A phase change inside or outside the critical section. */
  lemma EnterKeeps(s: State, t: nat, phase: Phase)
    requires ProcessOk(s) && t in s.tasks
    requires HoldsLock(phase) == HoldsLock(s.tasks[t].phase)
    requires IsRegistered(phase) == IsRegistered(s.tasks[t].phase)
    requires IsRegistered(phase) ==> phase.sessionId == s.tasks[t].phase.sessionId
    ensures ProcessOk(Enter(s, t, phase))
  {
    hide HoldsLock, IsRegistered, LocksOk, RegistryOk;
    EnterKeepsLocks(s.tasks, s.locks, t, phase);
    EnterKeepsRegistry(s.tasks, s.active, t, phase);
  }

  /** What a database procedure changes is of no concern here. */
  lemma DatabaseMoveKeeps(s: State, after: State)
    requires ProcessOk(s) && after.tasks == s.tasks && after.locks == s.locks && after.active == s.active
    ensures ProcessOk(after)
  {
    hide LocksOk, RegistryOk;
  }

  lemma RenameKeeps(s: State, key: (nat, Pointer), failureId: string)
    requires ProcessOk(s) && key in s.active
    ensures ProcessOk(s.(active := s.active[key := s.active[key].(currentFailureId := failureId)]))
  {
    hide HoldsLock, IsRegistered, LockKey, ActiveKey;
  }

  lemma AcquireLocks(tasks: map<nat, Task>, locks: map<(nat, string), nat>, t: nat, phase: Phase)
    requires LocksOk(tasks, locks) && t in tasks && HoldsLock(phase) && LockKey(tasks[t]) !in locks
    ensures LocksOk(tasks[t := tasks[t].(phase := phase)], locks[LockKey(tasks[t]) := t])
  {
    hide HoldsLock, LockKey;
    KeysKept(tasks[t], phase);
  }

  lemma AcquireKeeps(s: State, t: nat)
    requires ProcessOk(s) && Enabled(s, Acquire(t))
    ensures ProcessOk(Apply(s, Acquire(t)))
  {
    hide LocksOk, RegistryOk;
    AcquireLocks(s.tasks, s.locks, t, Rereading);
    EnterKeepsRegistry(s.tasks, s.active, t, Rereading);
  }

  /** Nothing else is registered for a step whose robot lock this task holds. */
  lemma LockHolderIsAlone(s: State, t: nat)
    requires ProcessOk(s) && t in s.tasks && HoldsLock(s.tasks[t].phase) && !IsRegistered(s.tasks[t].phase)
    ensures ActiveKey(s.tasks[t]) !in s.active
  {
  }

  lemma RegisterActive(tasks: map<nat, Task>, active: map<(nat, Pointer), Active>, t: nat, phase: Phase, entry: Active)
    requires RegistryOk(tasks, active) && t in tasks && ActiveKey(tasks[t]) !in active && IsRegistered(phase)
    requires entry.owner == t && entry.sessionId == phase.sessionId
    ensures RegistryOk(tasks[t := tasks[t].(phase := phase)], active[ActiveKey(tasks[t]) := entry])
  {
    hide IsRegistered, ActiveKey;
    KeysKept(tasks[t], phase);
  }

  lemma RegisterKeeps(s: State, t: nat)
    requires ProcessOk(s) && Enabled(s, Register(t))
    ensures ProcessOk(Apply(s, Register(t)))
  {
    hide LocksOk, RegistryOk;
    var id := s.tasks[t].phase.sessionId;
    LockHolderIsAlone(s, t);
    EnterKeepsLocks(s.tasks, s.locks, t, Looping(id));
    RegisterActive(s.tasks, s.active, t, Looping(id), Active(id, s.tasks[t].failureId, t));
  }

  lemma CheckKeeps(s: State, t: nat, row: Failure, eligible: bool, next: Phase)
    requires ProcessOk(s) && t in s.tasks && !IsRegistered(s.tasks[t].phase) && !IsRegistered(next)
    requires HoldsLock(next) == HoldsLock(s.tasks[t].phase)
    ensures ProcessOk(CheckRow(s, t, row, eligible, next))
  {
    hide ProcessOk, End, Enter;
    var key := ActiveKey(s.tasks[t]);
    EndKeeps(s, t);
    EnterKeeps(s, t, next);
    if key in s.active {
      var entry := s.active[key];
      EnterKeeps(s, t, Attaching(entry.sessionId, entry.owner, HoldsLock(s.tasks[t].phase)));
      RenameKeeps(s, key, s.tasks[t].failureId);
      EndKeeps(s.(active := s.active[key := entry.(currentFailureId := s.tasks[t].failureId)]), t);
    }
  }

  lemma JoinKeeps(s: State, t: nat)
    requires ProcessOk(s) && Enabled(s, Join(t))
    ensures ProcessOk(JoinSession(s, t))
  {
    hide ProcessOk, End;
    var task := s.tasks[t];
    var id, key := task.phase.sessionId, ActiveKey(task);
    if id !in s.sessions {
      EndKeeps(s, t);
    } else {
      var stored := s.sessions[id];
      var moved := s.(
        failures := s.failures[task.failureId := s.failures[task.failureId].(sessionId := Some(id))],
        sessions := s.sessions[id := stored.(progress := stored.progress.(currentFailureId := task.failureId))]);
      DatabaseMoveKeeps(s, moved);
      EndKeeps(moved, t);
      if key in s.active && s.active[key].owner == task.phase.owner {
        RenameKeeps(moved, key, task.failureId);
        EndKeeps(moved.(active := s.active[key := s.active[key].(currentFailureId := task.failureId)]), t);
      }
    }
  }

  lemma PrepareKeeps(s: State, t: nat, id: string, maxAttempts: nat, corrections: seq<Action>, executable: bool)
    requires ProcessOk(s) && Enabled(s, Prepare(t, id, maxAttempts, corrections, executable))
    ensures ProcessOk(PrepareSession(s, t, id, maxAttempts, corrections, executable))
  {
    hide ProcessOk, End, Enter;
    var task := s.tasks[t];
    var prepared :=
      if id in s.sessions then s
      else s.(sessions := s.sessions[id := Stored(
        task.pointer, maxAttempts, corrections, Progress(Ready, 0, None, task.failureId))]);
    var linked := prepared.(
      failures := s.failures[task.failureId := s.failures[task.failureId].(sessionId := Some(id))]);
    DatabaseMoveKeeps(s, linked);
    EndKeeps(linked, t);
    EnterKeeps(linked, t, Grace(id));
  }

  /** A database procedure, and then a phase change or the end of the task. */
  lemma UpdateKeeps(s: State, t: nat, id: string, call: Procedure, event: seq<Event>, phase: Phase)
    requires ProcessOk(s) && t in s.tasks && id in s.sessions
    requires HoldsLock(phase) == HoldsLock(s.tasks[t].phase) && IsRegistered(phase) == IsRegistered(s.tasks[t].phase)
    requires IsRegistered(phase) ==> phase.sessionId == s.tasks[t].phase.sessionId
    ensures ProcessOk(End(s, t))
    ensures
      var moved := Update(s, id, call, event);
      moved.Some? ==> ProcessOk(moved.value) && ProcessOk(End(moved.value, t)) && ProcessOk(Enter(moved.value, t, phase))
  {
    hide ProcessOk, End, Enter;
    EndKeeps(s, t);
    var moved := Update(s, id, call, event);
    if moved.Some? {
      DatabaseMoveKeeps(s, moved.value);
      EndKeeps(moved.value, t);
      EnterKeeps(moved.value, t, phase);
    }
  }

  lemma SendKeeps(s: State, t: nat)
    requires ProcessOk(s) && Enabled(s, Send(t))
    ensures ProcessOk(Sending(s, t))
  {
    hide ProcessOk;
    var p := s.tasks[t].phase;
    EnterKeeps(s, t, p.(sent := p.sent + 1, waiting := true));
    DatabaseMoveKeeps(Enter(s, t, p.(sent := p.sent + 1, waiting := true)), Sending(s, t));
  }

  lemma CrashKeeps(s: State, process: nat)
    requires ProcessOk(s)
    ensures ProcessOk(CrashProcess(s, process))
  {
    hide HoldsLock, IsRegistered;
  }

  lemma StartKeeps(s: State, t: nat, process: nat, failureId: string)
    requires ProcessOk(s) && Enabled(s, Start(t, process, failureId))
    ensures ProcessOk(Apply(s, Start(t, process, failureId)))
  {
    var after := Apply(s, Start(t, process, failureId));
    assert !HoldsLock(after.tasks[t].phase) && !IsRegistered(after.tasks[t].phase);
    hide HoldsLock, IsRegistered, LockKey, ActiveKey;
  }

  lemma TaskStepKeeps(s: State, c: Choice)
    requires ProcessOk(s) && Enabled(s, c)
    requires c.TakeClaim? || c.Await? || c.Conclude? || c.ExpireLease? || c.OperatorCancel?
    ensures ProcessOk(Apply(s, c))
  {
    hide ProcessOk, Update, End, Enter;
    match c
    case TakeClaim(t, token, delivered) =>
      var id := s.tasks[t].phase.sessionId;
      UpdateKeeps(s, t, id, Claim(s.active[ActiveKey(s.tasks[t])].currentFailureId, token), [Claimed(id, token)],
        Attempting(id, token, 0, false));
    case Await(t, _) =>
      var p := s.tasks[t].phase;
      UpdateKeeps(s, t, p.sessionId, Finish(p.token, ToAwaiting), [Settled(p.sessionId, p.token, AwaitingOutcome)],
        Observing(p.sessionId, p.token));
    case Conclude(t, result, _, _) =>
      var p := s.tasks[t].phase;
      var stored := s.sessions[p.sessionId];
      UpdateKeeps(s, t, p.sessionId, Finish(p.token, result),
        [Settled(p.sessionId, p.token, FinishedStatus(result, stored.progress, stored.maxAttempts))], Looping(p.sessionId));
    case ExpireLease(id) => EnvironmentKeeps(s, c);
    case OperatorCancel(id) => EnvironmentKeeps(s, c);
  }

  lemma EnvironmentKeeps(s: State, c: Choice)
    requires ProcessOk(s) && Enabled(s, c) && (c.ExpireLease? || c.OperatorCancel?)
    ensures ProcessOk(Apply(s, c))
  {
    hide ProcessOk;
    DatabaseMoveKeeps(s, Apply(s, c));
  }

  lemma ProcessKept(s: State, c: Choice)
    requires ProcessOk(s) && Enabled(s, c)
    ensures ProcessOk(Apply(s, c))
  {
    hide ProcessOk, Claiming, Sending, Awaiting, Concluding, JoinSession, PrepareSession, Update, CheckRow, End, Enter;
    match c
    case Start(t, process, failureId) => StartKeeps(s, t, process, failureId);
    case Fetch(t) => EnterKeeps(s, t, Checking(s.failures[s.tasks[t].failureId]));
    case Check(t, eligible) => CheckKeeps(s, t, s.tasks[t].phase.row, eligible, WaitingLock);
    case Acquire(t) => AcquireKeeps(s, t);
    case Reread(t) => EnterKeeps(s, t, Rechecking(s.failures[s.tasks[t].failureId]));
    case Recheck(t, eligible) => CheckKeeps(s, t, s.tasks[t].phase.row, eligible, Preparing(s.tasks[t].phase.row));
    case Join(t) => JoinKeeps(s, t);
    case Prepare(t, id, maxAttempts, corrections, executable) =>
      PrepareKeeps(s, t, id, maxAttempts, corrections, executable);
    case Register(t) => RegisterKeeps(s, t);
    case Send(t) => SendKeeps(s, t);
    case Acknowledge(t) => EnterKeeps(s, t, s.tasks[t].phase.(waiting := false));
    case Abandon(t) => EndKeeps(s, t);
    case Crash(process) => CrashKeeps(s, process);
    case _ => TaskStepKeeps(s, c);
  }

  // ---------------------------------------------------------------- what the agreement means

  /** At most one task of a process is inside the recovery of a robot. */
  lemma OneRecoveryPerRobot(s: State, t: nat, u: nat)
    requires ProcessOk(s) && t in s.tasks && u in s.tasks
    requires HoldsLock(s.tasks[t].phase) && HoldsLock(s.tasks[u].phase) && LockKey(s.tasks[t]) == LockKey(s.tasks[u])
    ensures t == u
  {
  }

  /** Every registered recovery belongs to the holder of that robot's lock. */
  lemma RegistryOwnersHoldTheLock(s: State, k: (nat, Pointer))
    requires ProcessOk(s) && k in s.active
    ensures (k.0, k.1.sysid) in s.locks && s.locks[(k.0, k.1.sysid)] == s.active[k].owner
  {
    assert IsOwner(s.tasks, s.active[k], k);
  }

  /** While a recovery is registered for a step, no task of the process prepares a session for that step. */
  lemma NoPrepareWhileActive(s: State, t: nat, id: string, maxAttempts: nat, corrections: seq<Action>, executable: bool)
    requires ProcessOk(s) && Enabled(s, Prepare(t, id, maxAttempts, corrections, executable))
    ensures ActiveKey(s.tasks[t]) !in s.active
  {
    LockHolderIsAlone(s, t);
  }

  /** And only its owner claims attempts for that step, of that one session. */
  lemma OnlyOwnerClaims(s: State, t: nat, token: string, delivered: bool)
    requires ProcessOk(s) && Enabled(s, TakeClaim(t, token, delivered))
    ensures
      var entry := s.active[ActiveKey(s.tasks[t])];
      entry.owner == t && entry.sessionId == s.tasks[t].phase.sessionId
  {
    assert IsOwner(s.tasks, s.active[ActiveKey(s.tasks[t])], ActiveKey(s.tasks[t]));
  }

  /** The step of the robot that the task is about, in the task's process. */
  predicate IsAbout(s: State, t: nat, key: (nat, Pointer)) {
    t in s.tasks && ActiveKey(s.tasks[t]) == key
  }

  /**
   What happens to a step while a recovery is registered for it stays within that recovery's session and budget: nobody
   prepares or registers another one, attempts are claimed and commands sent by its owner for its session alone, and a
   recurrence goes on to join it or not at all.
   */
  predicate IsConfined(s: State, c: Choice, key: (nat, Pointer), owner: nat, id: string)
    requires Enabled(s, c)
  {
    match c
    case Prepare(t, _, _, _, _) => !IsAbout(s, t, key)
    case Register(t) => !IsAbout(s, t, key)
    case TakeClaim(t, _, _) =>
      IsAbout(s, t, key) ==> t == owner && s.tasks[t].phase.sessionId == id && ClaimsForCurrent(s, Apply(s, c), key, id)
    case Send(t) => IsAbout(s, t, key) ==> t == owner && s.tasks[t].phase.sessionId == id
    case Check(t, _) => IsAbout(s, t, key) ==> IsJoining(s, Apply(s, c), t, s.tasks[t].phase.row, id)
    case Recheck(t, _) => IsAbout(s, t, key) ==> IsJoining(s, Apply(s, c), t, s.tasks[t].phase.row, id)
    case Join(t) => IsAbout(s, t, key) ==> HasJoined(s, Apply(s, c), t)
    case _ => true
  }

  /** A granted claim is made for the failure that the recovery is currently about. */
  predicate ClaimsForCurrent(s: State, after: State, key: (nat, Pointer), id: string) {
    key in s.active
    && (after.sessions != s.sessions ==>
          id in after.sessions && after.sessions[id].progress.currentFailureId == s.active[key].currentFailureId)
  }

  /**
   A recurrence whose row names no session goes on to join this one; any other is done, and one that is linked to this
   session already is what the recovery is now about.
   */
  predicate IsJoining(s: State, after: State, t: nat, row: Failure, id: string)
    requires t in s.tasks
  {
    var key := ActiveKey(s.tasks[t]);
    && after.sessions == s.sessions && after.trace == s.trace
    && (t in after.tasks <==> row.sessionId.None?)
    && (t in after.tasks ==> after.tasks[t].phase.Attaching? && after.tasks[t].phase.sessionId == id)
    && (row.sessionId == Some(id) && key in after.active ==> after.active[key].currentFailureId == s.tasks[t].failureId)
  }

  /** A joining failure is linked to the session and becomes its current one; it adds no session and no attempt. */
  predicate HasJoined(s: State, after: State, t: nat)
    requires t in s.tasks && s.tasks[t].phase.Attaching?
  {
    var id, failureId := s.tasks[t].phase.sessionId, s.tasks[t].failureId;
    && t !in after.tasks && after.trace == s.trace && after.sessions.Keys == s.sessions.Keys
    && (id in s.sessions ==>
          failureId in after.failures && after.failures[failureId].sessionId == Some(id)
          && after.sessions[id].progress.currentFailureId == failureId
          && (ActiveKey(s.tasks[t]) in after.active && after.active[ActiveKey(s.tasks[t])].owner == s.tasks[t].phase.owner ==>
                after.active[ActiveKey(s.tasks[t])].currentFailureId == failureId))
    && forall i <- s.sessions ::
         after.sessions[i] == s.sessions[i].(progress := after.sessions[i].progress)
         && after.sessions[i].progress
            == s.sessions[i].progress.(currentFailureId := after.sessions[i].progress.currentFailureId)
  }

  lemma CheckConfined(s: State, t: nat, row: Failure, eligible: bool, next: Phase)
    requires t in s.tasks && ActiveKey(s.tasks[t]) in s.active
    ensures IsJoining(s, CheckRow(s, t, row, eligible, next), t, row, s.active[ActiveKey(s.tasks[t])].sessionId)
  {
  }

  lemma ClaimConfined(s: State, t: nat, token: string, delivered: bool)
    requires Enabled(s, TakeClaim(t, token, delivered))
    ensures ClaimsForCurrent(s, Claiming(s, t, token, delivered), ActiveKey(s.tasks[t]), s.tasks[t].phase.sessionId)
  {
  }

  lemma JoinConfined(s: State, t: nat)
    requires Enabled(s, Join(t))
    ensures HasJoined(s, JoinSession(s, t), t)
  {
  }

  lemma RegisteredIsOwner(s: State, t: nat)
    requires ProcessOk(s) && t in s.tasks && IsRegistered(s.tasks[t].phase)
    ensures
      var key := ActiveKey(s.tasks[t]);
      key in s.active && s.active[key].owner == t && s.active[key].sessionId == s.tasks[t].phase.sessionId
  {
    assert ActiveKey(s.tasks[t]) in s.active;
    assert IsOwner(s.tasks, s.active[ActiveKey(s.tasks[t])], ActiveKey(s.tasks[t]));
  }

  lemma StepConfined(s: State, c: Choice, key: (nat, Pointer))
    requires ProcessOk(s) && Enabled(s, c) && key in s.active
    ensures IsConfined(s, c, key, s.active[key].owner, s.active[key].sessionId)
  {
    hide ProcessOk, CheckRow, JoinSession, Claiming, IsJoining, HasJoined, ClaimsForCurrent;
    match c
    case Prepare(t, id, maxAttempts, corrections, executable) => LockHolderIsAlone(s, t);
    case Register(t) => LockHolderIsAlone(s, t);
    case TakeClaim(t, token, delivered) =>
      RegisteredIsOwner(s, t);
      ClaimConfined(s, t, token, delivered);
    case Send(t) => RegisteredIsOwner(s, t);
    case Check(t, eligible) =>
      if IsAbout(s, t, key) {
        CheckConfined(s, t, s.tasks[t].phase.row, eligible, WaitingLock);
      }
    case Recheck(t, eligible) =>
      if IsAbout(s, t, key) {
        CheckConfined(s, t, s.tasks[t].phase.row, eligible, Preparing(s.tasks[t].phase.row));
      }
    case Join(t) => JoinConfined(s, t);
    case _ =>
  }

  /** Only registering adds entries; an entry never changes its session. */
  predicate KeepsSessions(before: map<(nat, Pointer), Active>, after: map<(nat, Pointer), Active>) {
    forall k <- after :: k in before && after[k].sessionId == before[k].sessionId && after[k].owner == before[k].owner
  }

  lemma SameEntries(s: State)
    ensures KeepsSessions(s.active, s.active)
  {
  }

  lemma EndEntries(s: State, t: nat)
    ensures KeepsSessions(s.active, End(s, t).active)
  {
  }

  lemma RenameEntries(s: State, t: nat, key: (nat, Pointer), failureId: string)
    requires key in s.active
    ensures KeepsSessions(s.active, End(s.(active := s.active[key := s.active[key].(currentFailureId := failureId)]), t).active)
  {
  }

  lemma CheckEntries(s: State, t: nat, row: Failure, eligible: bool, next: Phase)
    requires t in s.tasks
    ensures KeepsSessions(s.active, CheckRow(s, t, row, eligible, next).active)
  {
    hide End, KeepsSessions, ActiveKey, HoldsLock;
    EndEntries(s, t);
    SameEntries(s);
    if ActiveKey(s.tasks[t]) in s.active {
      RenameEntries(s, t, ActiveKey(s.tasks[t]), s.tasks[t].failureId);
    }
  }

  lemma JoinEntries(s: State, t: nat)
    requires Enabled(s, Join(t))
    ensures KeepsSessions(s.active, JoinSession(s, t).active)
  {
  }

  lemma PrepareEntries(s: State, t: nat, id: string, maxAttempts: nat, corrections: seq<Action>, executable: bool)
    requires t in s.tasks && s.tasks[t].failureId in s.failures
    ensures KeepsSessions(s.active, PrepareSession(s, t, id, maxAttempts, corrections, executable).active)
  {
  }

  lemma AttemptEntries(s: State, c: Choice)
    requires Enabled(s, c) && (c.TakeClaim? || c.Send? || c.Await? || c.Conclude?)
    ensures KeepsSessions(s.active, Apply(s, c).active)
  {
    hide Moved, Script, FinishedStatus;
  }

  lemma EntriesKept(s: State, c: Choice)
    requires Enabled(s, c) && !c.Register?
    ensures KeepsSessions(s.active, Apply(s, c).active)
  {
    hide CheckRow, JoinSession, PrepareSession, Claiming, Sending, Awaiting, Concluding, Moved;
    match c
    case Check(t, eligible) => CheckEntries(s, t, s.tasks[t].phase.row, eligible, WaitingLock);
    case Recheck(t, eligible) => CheckEntries(s, t, s.tasks[t].phase.row, eligible, Preparing(s.tasks[t].phase.row));
    case Join(t) => JoinEntries(s, t);
    case Prepare(t, id, maxAttempts, corrections, executable) =>
      PrepareEntries(s, t, id, maxAttempts, corrections, executable);
    case TakeClaim(_, _, _) => AttemptEntries(s, c);
    case Send(_) => AttemptEntries(s, c);
    case Await(_, _) => AttemptEntries(s, c);
    case Conclude(_, _, _, _) => AttemptEntries(s, c);
    case _ =>
  }

  lemma EntryStays(s: State, c: Choice, key: (nat, Pointer))
    requires ProcessOk(s) && Enabled(s, c) && key in s.active && key in Apply(s, c).active
    ensures Apply(s, c).active[key].sessionId == s.active[key].sessionId
    ensures Apply(s, c).active[key].owner == s.active[key].owner
  {
    hide ProcessOk;
    if c.Register? {
      LockHolderIsAlone(s, c.task);
    } else {
      hide Apply, Enabled;
      EntriesKept(s, c);
    }
  }
}
