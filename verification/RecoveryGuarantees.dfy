/** What holds of every run of the recovery system, read off its trace. */
module RecoveryGuarantees {
  import opened Text
  import opened RecoveryLifecycle
  import opened RecoveryRuns
  import opened RecoveryRobots

  predicate IsRun(s: State, choices: seq<Choice>)
    decreases |choices|
  {
    choices == [] || (Enabled(s, choices[0]) && IsRun(Apply(s, choices[0]), choices[1..]))
  }

  function ApplyAll(s: State, choices: seq<Choice>): State
    requires IsRun(s, choices)
    decreases |choices|
  {
    if choices == [] then s else ApplyAll(Apply(s, choices[0]), choices[1..])
  }

  /** Some failures are on record; nothing has been prepared and nobody is working. */
  predicate IsInitial(s: State) {
    s.sessions == map[] && s.tasks == map[] && s.locks == map[] && s.active == map[] && s.trace == []
  }

  lemma {:induction false} RunInvariant(s: State, choices: seq<Choice>)
    requires DatabaseOk(s) && ProcessOk(s) && IsRun(s, choices)
    ensures DatabaseOk(ApplyAll(s, choices)) && ProcessOk(ApplyAll(s, choices))
    decreases |choices|
  {
    hide DatabaseOk, ProcessOk, Apply, Enabled;
    if choices != [] {
      DatabaseKept(s, choices[0]);
      ProcessKept(s, choices[0]);
      RunInvariant(Apply(s, choices[0]), choices[1..]);
    }
  }

  // ---------------------------------------------------------------- while a recovery is registered

  /** In every state of the run, the step's registered recovery is the one of this owner. */
  predicate StaysRegistered(s: State, choices: seq<Choice>, key: (nat, Pointer), owner: nat)
    requires IsRun(s, choices)
    decreases |choices|
  {
    && key in s.active && s.active[key].owner == owner
    && (choices == [] || StaysRegistered(Apply(s, choices[0]), choices[1..], key, owner))
  }

  predicate AreConfined(s: State, choices: seq<Choice>, key: (nat, Pointer), owner: nat, id: string)
    requires IsRun(s, choices)
    decreases |choices|
  {
    choices == []
    || (IsConfined(s, choices[0], key, owner, id) && AreConfined(Apply(s, choices[0]), choices[1..], key, owner, id))
  }

  /**
   Over any stretch of a run in which a recovery stays registered for a step, all that its process does about that step
   is confined to that one session: no second session, no claim and no command but the owner's, and recurrences join.
   */
  lemma {:induction false} OneSessionWhileRegistered(s: State, choices: seq<Choice>, key: (nat, Pointer), owner: nat)
    requires ProcessOk(s) && IsRun(s, choices) && StaysRegistered(s, choices, key, owner)
    ensures AreConfined(s, choices, key, owner, s.active[key].sessionId)
    ensures
      var after := ApplyAll(s, choices).active;
      key in after && after[key].owner == owner && after[key].sessionId == s.active[key].sessionId
    decreases |choices|
  {
    hide ProcessOk, Apply, Enabled, IsConfined;
    if choices != [] {
      StepConfined(s, choices[0], key);
      ProcessKept(s, choices[0]);
      EntryStays(s, choices[0], key);
      OneSessionWhileRegistered(Apply(s, choices[0]), choices[1..], key, owner);
    }
  }

  // ---------------------------------------------------------------- one command at a time

  predicate IsKnown(trace: seq<Event>, token: string) {
    exists i | 0 <= i < |trace| :: trace[i].Claimed? && trace[i].token == token
  }

  /** As long as the task works on this attempt, its last command has not been acknowledged. */
  predicate IsUnanswered(tasks: map<nat, Task>, t: nat, token: string) {
    t in tasks && HoldsToken(tasks[t].phase) && tasks[t].phase.token == token
    ==> tasks[t].phase.Attempting? && tasks[t].phase.waiting
  }

  lemma KnownStays(trace: seq<Event>, more: seq<Event>, token: string)
    requires IsKnown(trace, token)
    ensures IsKnown(trace + more, token)
  {
    var i :| 0 <= i < |trace| && trace[i].Claimed? && trace[i].token == token;
    assert (trace + more)[i] == trace[i];
  }

  /** What a step may do to the tasks and the trace. */
  predicate LeavesUnanswered(before: State, after: State, t: nat, token: string) {
    before.trace <= after.trace && (IsUnanswered(before.tasks, t, token) ==> IsUnanswered(after.tasks, t, token))
  }

  lemma CheckLeavesUnanswered(s: State, c: Choice, t: nat, token: string)
    requires Enabled(s, c) && (c.Check? || c.Recheck? || c.Join? || c.Prepare?)
    ensures LeavesUnanswered(s, Apply(s, c), t, token)
  {
  }

  lemma ClaimLeavesUnanswered(s: State, u: nat, minted: string, delivered: bool, t: nat, token: string)
    requires Enabled(s, TakeClaim(u, minted, delivered)) && minted != token
    ensures LeavesUnanswered(s, Apply(s, TakeClaim(u, minted, delivered)), t, token)
  {
    hide Moved, IsFreshToken;
  }

  lemma AttemptLeavesUnanswered(s: State, c: Choice, t: nat, token: string)
    requires Enabled(s, c) && c != Acknowledge(t) && (c.Send? || c.Acknowledge? || c.Await? || c.Conclude?)
    ensures LeavesUnanswered(s, Apply(s, c), t, token)
  {
    hide Moved, Script, FinishedStatus;
  }

  lemma OtherLeavesUnanswered(s: State, c: Choice, t: nat, token: string)
    requires Enabled(s, c)
    requires c.Start? || c.Fetch? || c.Acquire? || c.Reread? || c.Register? || c.Abandon? || c.Crash? || c.ExpireLease? || c.OperatorCancel?
    ensures LeavesUnanswered(s, Apply(s, c), t, token)
  {
    hide Moved;
  }

  lemma StepLeavesUnanswered(s: State, c: Choice, t: nat, token: string)
    requires Enabled(s, c) && c != Acknowledge(t) && IsKnown(s.trace, token)
    ensures LeavesUnanswered(s, Apply(s, c), t, token)
  {
    hide Apply, LeavesUnanswered;
    match c
    case Check(_, _) => CheckLeavesUnanswered(s, c, t, token);
    case Recheck(_, _) => CheckLeavesUnanswered(s, c, t, token);
    case Join(_) => CheckLeavesUnanswered(s, c, t, token);
    case Prepare(_, _, _, _, _) => CheckLeavesUnanswered(s, c, t, token);
    case TakeClaim(u, minted, delivered) => ClaimLeavesUnanswered(s, u, minted, delivered, t, token);
    case Send(_) => AttemptLeavesUnanswered(s, c, t, token);
    case Acknowledge(_) => AttemptLeavesUnanswered(s, c, t, token);
    case Await(_, _) => AttemptLeavesUnanswered(s, c, t, token);
    case Conclude(_, _, _, _) => AttemptLeavesUnanswered(s, c, t, token);
    case _ => OtherLeavesUnanswered(s, c, t, token);
  }

  lemma {:induction false} StaysUnanswered(s: State, choices: seq<Choice>, t: nat, token: string)
    requires IsRun(s, choices) && IsKnown(s.trace, token) && IsUnanswered(s.tasks, t, token)
    requires Acknowledge(t) !in choices
    ensures IsUnanswered(ApplyAll(s, choices).tasks, t, token)
    decreases |choices|
  {
    hide Apply, IsKnown;
    if choices != [] {
      hide Enabled, IsUnanswered;
      var c := choices[0];
      assert choices == [c] + choices[1..];
      StepLeavesUnanswered(s, c, t, token);
      var next := Apply(s, c);
      assert next.trace == s.trace + next.trace[|s.trace|..];
      KnownStays(s.trace, next.trace[|s.trace|..], token);
      StaysUnanswered(next, choices[1..], t, token);
    }
  }

  lemma {:induction false} LiveTokenIsKnown(trace: seq<Event>, id: string, script: seq<Dispatch>, maxAttempts: nat)
    requires Judge(trace, id, script, maxAttempts).Live?
    ensures IsKnown(trace, Judge(trace, id, script, maxAttempts).token)
    decreases |trace|
  {
    if trace != [] {
      var last := |trace| - 1;
      assert trace == trace[..last] + [trace[last]];
      if Judge(trace[..last], id, script, maxAttempts).Live? {
        LiveTokenIsKnown(trace[..last], id, script, maxAttempts);
        KnownStays(trace[..last], [trace[last]], Judge(trace[..last], id, script, maxAttempts).token);
      }
    }
  }

  lemma SenderIsKnown(s: State, t: nat)
    requires DatabaseOk(s) && Enabled(s, Send(t))
    ensures IsKnown(s.trace, s.tasks[t].phase.token)
  {
    hide Judge, Script, OwnsAttempt, SessionOk;
    var p := s.tasks[t].phase;
    assert TokenOk(s.sessions, s.trace, p);
    var stored := s.sessions[p.sessionId];
    LiveTokenIsKnown(s.trace, p.sessionId, Script(stored.corrections), stored.maxAttempts);
  }

  lemma SendIsUnanswered(s: State, t: nat)
    requires Enabled(s, Send(t))
    ensures
      var after := Apply(s, Send(t));
      && t in after.tasks && after.tasks[t].phase.Attempting? && after.tasks[t].phase.token == s.tasks[t].phase.token
      && IsUnanswered(after.tasks, t, s.tasks[t].phase.token) && s.trace <= after.trace
  {
    hide Script;
  }

  /**
   From the sending of a command until its acknowledgement, whatever happens, the attempt sends no other command and does
   not go on to await the outcome.
   */
  lemma OneCommandAtATime(s: State, t: nat, choices: seq<Choice>)
    requires DatabaseOk(s) && Enabled(s, Send(t)) && IsRun(Apply(s, Send(t)), choices) && Acknowledge(t) !in choices
    ensures
      var token, after := s.tasks[t].phase.token, ApplyAll(Apply(s, Send(t)), choices);
      t in after.tasks && HoldsToken(after.tasks[t].phase) && after.tasks[t].phase.token == token
      ==> after.tasks[t].phase.Attempting? && !Enabled(after, Send(t)) && forall delivered :: !Enabled(after, Await(t, delivered))
  {
    hide Apply, IsKnown, Script, DatabaseOk, IsRun, ApplyAll;
    var token, next := s.tasks[t].phase.token, Apply(s, Send(t));
    SenderIsKnown(s, t);
    SendIsUnanswered(s, t);
    assert next.trace == s.trace + next.trace[|s.trace|..];
    KnownStays(s.trace, next.trace[|s.trace|..], token);
    StaysUnanswered(next, choices, t, token);
  }

  /**
   After an attempt is concluded the task goes on if and only if the attempt failed on a fresh recurrence, its result was
   delivered, and an attempt is left; it then claims again, for the same session.
   */
  lemma RetriesIff(s: State, t: nat, result: FinishResult, delivered: bool, recurred: bool)
    requires DatabaseOk(s) && Enabled(s, Conclude(t, result, delivered, recurred))
    ensures
      var p := s.tasks[t].phase;
      var after, stored := Apply(s, Conclude(t, result, delivered, recurred)), s.sessions[p.sessionId];
      && (t in after.tasks <==>
            p.Observing? && result.ToFailed? && delivered && recurred && stored.progress.attempts < stored.maxAttempts)
      && (t in after.tasks ==> after.tasks[t].phase == Looping(p.sessionId))
  {
    hide SessionOk, VerdictOf;
    assert TokenOk(s.sessions, s.trace, s.tasks[t].phase);
  }

  // ---------------------------------------------------------------- reading a trace

  /** The commands dispatched for a session under one run token, in order. */
  function Commands(trace: seq<Event>, id: string, token: string): seq<Dispatch> {
    if trace == [] then []
    else
      var earlier, last := Commands(trace[..|trace| - 1], id, token), trace[|trace| - 1];
      if last.Dispatched? && last.session == id && last.token == token then earlier + [last.command] else earlier
  }

  function CountDispatched(trace: seq<Event>, id: string): nat {
    if trace == [] then 0
    else
      var last := trace[|trace| - 1];
      CountDispatched(trace[..|trace| - 1], id) + if last.Dispatched? && last.session == id then 1 else 0
  }

  function CountClaimed(trace: seq<Event>, id: string): nat {
    if trace == [] then 0
    else
      var last := trace[|trace| - 1];
      CountClaimed(trace[..|trace| - 1], id) + if last.Claimed? && last.session == id then 1 else 0
  }

  predicate IsEnd(e: Event) {
    e.CancelledByOperator? || (e.Settled? && IsTerminal(e.status))
  }

  /** A trace of one session that breaks no rule. */
  predicate Accepted(trace: seq<Event>, id: string, script: seq<Dispatch>, maxAttempts: nat) {
    !Judge(trace, id, script, maxAttempts).Rejected?
  }

  lemma {:induction false} AcceptedPrefix(trace: seq<Event>, i: nat, id: string, script: seq<Dispatch>, maxAttempts: nat)
    requires i <= |trace| && Accepted(trace, id, script, maxAttempts)
    ensures Accepted(trace[..i], id, script, maxAttempts)
    decreases |trace|
  {
    if i == |trace| {
      assert trace[..i] == trace;
    } else {
      AcceptedPrefix(trace[..|trace| - 1], i, id, script, maxAttempts);
      assert trace[..|trace| - 1][..i] == trace[..i];
    }
  }

  /** The verdict moves by one event at a time. */
  lemma JudgeStep(trace: seq<Event>, i: nat, id: string, script: seq<Dispatch>, maxAttempts: nat)
    requires i < |trace|
    ensures Judge(trace[..i + 1], id, script, maxAttempts)
      == if trace[i].session == id then Observe(Judge(trace[..i], id, script, maxAttempts), trace[i], script, maxAttempts)
         else Judge(trace[..i], id, script, maxAttempts)
  {
    assert trace[..i + 1] == trace[..i] + [trace[i]];
    JudgePush(trace[..i], trace[i], id, script, maxAttempts);
  }

  /** How the commands under one token stand against the verdict; `claimed` says whether the token was ever claimed. */
  predicate Follows(v: Verdict, commands: seq<Dispatch>, claimed: bool, token: string, script: seq<Dispatch>) {
    && commands <= script
    && (v.Live? ==> v.sent <= |script|)
    && (v.Live? && v.token == token ==> claimed && commands == script[..v.sent])
    && (!claimed ==> commands == [])
  }

  lemma FollowsStep(
      v: Verdict, e: Event, commands: seq<Dispatch>, claimed: bool, token: string, script: seq<Dispatch>, maxAttempts: nat)
    requires Follows(v, commands, claimed, token, script) && !Observe(v, e, script, maxAttempts).Rejected?
    requires e.Claimed? && e.token == token ==> !claimed
    ensures
      var more := if e.Dispatched? && e.token == token then commands + [e.command] else commands;
      Follows(Observe(v, e, script, maxAttempts), more, claimed || (e.Claimed? && e.token == token), token, script)
  {
    if v.Live? && e.Dispatched? {
      assert script[..v.sent] + [script[v.sent]] == script[..v.sent + 1];
    }
  }

  lemma {:induction false} CommandsFollowScript(
      trace: seq<Event>, id: string, token: string, script: seq<Dispatch>, maxAttempts: nat)
    requires TokensFresh(trace) && Accepted(trace, id, script, maxAttempts)
    ensures Follows(
      Judge(trace, id, script, maxAttempts), Commands(trace, id, token), Claimed(id, token) in trace, token, script)
    decreases |trace|
  {
    if trace != [] {
      hide Observe, Follows;
      var shorter, last := trace[..|trace| - 1], trace[|trace| - 1];
      AcceptedPrefix(trace, |trace| - 1, id, script, maxAttempts);
      CommandsFollowScript(shorter, id, token, script, maxAttempts);
      assert trace == shorter + [last];
      if last.session == id {
        FollowsStep(
          Judge(shorter, id, script, maxAttempts), last, Commands(shorter, id, token), Claimed(id, token) in shorter,
          token, script, maxAttempts);
      }
    } else {
      assert Commands(trace, id, token) == [] && Judge(trace, id, script, maxAttempts) == Idle(0);
    }
  }

  /** From a claim on, only its own `failed` conclusion leads back to a claimable session. */
  lemma {:induction false} LiveUntilFailed(
      trace: seq<Event>, i: nat, m: nat, id: string, script: seq<Dispatch>, maxAttempts: nat)
    requires Accepted(trace, id, script, maxAttempts)
    requires i < m <= |trace| && trace[i].Claimed? && trace[i].session == id
    ensures
      var v := Judge(trace[..m], id, script, maxAttempts);
      v.Stopped? || (v.Live? && v.token == trace[i].token)
      || exists k | i < k < m :: trace[k] == Settled(id, trace[i].token, Failed)
    decreases m
  {
    AcceptedPrefix(trace, m, id, script, maxAttempts);
    JudgeStep(trace, m - 1, id, script, maxAttempts);
    if m > i + 1 {
      LiveUntilFailed(trace, i, m - 1, id, script, maxAttempts);
    }
  }

  lemma {:induction false} SilentOnceStopped(
      trace: seq<Event>, i: nat, m: nat, id: string, script: seq<Dispatch>, maxAttempts: nat)
    requires Accepted(trace, id, script, maxAttempts)
    requires i < m <= |trace| && trace[i].session == id && IsEnd(trace[i])
    ensures Judge(trace[..m], id, script, maxAttempts).Stopped?
    ensures forall j | i < j < m :: trace[j].session != id
    decreases m
  {
    AcceptedPrefix(trace, m, id, script, maxAttempts);
    JudgeStep(trace, m - 1, id, script, maxAttempts);
    if m > i + 1 {
      SilentOnceStopped(trace, i, m - 1, id, script, maxAttempts);
    }
  }

  lemma {:induction false} CountsWithinBudget(trace: seq<Event>, id: string, script: seq<Dispatch>, maxAttempts: nat)
    requires Accepted(trace, id, script, maxAttempts)
    ensures
      var v := Judge(trace, id, script, maxAttempts);
      && v.attempts == CountClaimed(trace, id) <= maxAttempts
      && (v.Live? ==> v.attempts >= 1 && v.sent <= |script|)
      && (v.Live? ==> CountDispatched(trace, id) <= (v.attempts - 1) * |script| + v.sent)
      && (!v.Live? ==> CountDispatched(trace, id) <= v.attempts * |script|)
    decreases |trace|
  {
    if trace != [] {
      var shorter := trace[..|trace| - 1];
      AcceptedPrefix(trace, |trace| - 1, id, script, maxAttempts);
      CountsWithinBudget(shorter, id, script, maxAttempts);
      var v := Judge(shorter, id, script, maxAttempts);
      assert (v.attempts + 1 - 1) * |script| == v.attempts * |script|;
      assert v.attempts * |script| == (v.attempts - 1) * |script| + |script|;
    }
  }

  lemma BudgetMonotone(attempts: nat, maxAttempts: nat, length: nat)
    requires attempts <= maxAttempts
    ensures attempts * length <= maxAttempts * length
  {
  }

  // ---------------------------------------------------------------- the guarantees

  /** All that one session's part of a trace promises. */
  ghost predicate IsSafe(trace: seq<Event>, id: string, script: seq<Dispatch>, maxAttempts: nat) {
    // under one token: the corrections in order, then the continuation, each at most once
    && (forall token :: Commands(trace, id, token) <= script)
    // a later attempt is claimed only after the earlier one finished `failed`
    && (forall i, j | 0 <= i < j < |trace| && trace[i].Claimed? && trace[j].Claimed? && trace[i].session == id == trace[j].session ::
          exists k | i < k < j :: trace[k] == Settled(id, trace[i].token, Failed))
    // nothing follows a terminal status
    && (forall i, j | 0 <= i < j < |trace| && trace[i].session == id && IsEnd(trace[i]) :: trace[j].session != id)
    // the budget
    && CountClaimed(trace, id) <= maxAttempts
    && CountDispatched(trace, id) <= maxAttempts * |script|
  }

  lemma AcceptedIsSafe(trace: seq<Event>, id: string, script: seq<Dispatch>, maxAttempts: nat)
    requires TokensFresh(trace) && Accepted(trace, id, script, maxAttempts)
    ensures IsSafe(trace, id, script, maxAttempts)
  {
    hide Judge, Observe, ObserveSettled, TokensFresh, Commands, CountClaimed, CountDispatched, IsEnd;
    forall token ensures Commands(trace, id, token) <= script {
      CommandsFollowScript(trace, id, token, script, maxAttempts);
    }
    forall i, j | 0 <= i < j < |trace| && trace[i].Claimed? && trace[j].Claimed? && trace[i].session == id == trace[j].session
      ensures exists k | i < k < j :: trace[k] == Settled(id, trace[i].token, Failed)
    {
      LiveUntilFailed(trace, i, j, id, script, maxAttempts);
      ClaimNeedsIdle(trace, j, id, script, maxAttempts);
    }
    forall i, j | 0 <= i < j < |trace| && trace[i].session == id && IsEnd(trace[i]) ensures trace[j].session != id {
      SilentOnceStopped(trace, i, j + 1, id, script, maxAttempts);
    }
    CountsWithinBudget(trace, id, script, maxAttempts);
    var v := Judge(trace, id, script, maxAttempts);
    BudgetMonotone(CountClaimed(trace, id), maxAttempts, |script|);
    assert v.attempts * |script| == (v.attempts - 1) * |script| + |script|;
  }

  lemma ClaimNeedsIdle(trace: seq<Event>, j: nat, id: string, script: seq<Dispatch>, maxAttempts: nat)
    requires Accepted(trace, id, script, maxAttempts) && j < |trace| && trace[j].Claimed? && trace[j].session == id
    ensures Judge(trace[..j], id, script, maxAttempts).Idle?
  {
    AcceptedPrefix(trace, j + 1, id, script, maxAttempts);
    JudgeStep(trace, j, id, script, maxAttempts);
  }

  /**
   Every run, with any robot behaviour, any failures and any interleaving of processes: each session's commands follow
   its pinned script, attempts follow one another only after proven failure, nothing follows the end, and the budget
   bounds all dispatches.
   */
  lemma EveryRunIsSafe(s: State, choices: seq<Choice>, id: string)
    requires IsInitial(s) && IsRun(s, choices) && id in ApplyAll(s, choices).sessions
    ensures
      var after := ApplyAll(s, choices);
      IsSafe(after.trace, id, Script(after.sessions[id].corrections), after.sessions[id].maxAttempts)
  {
    RunInvariant(s, choices);
    hide IsSafe, ApplyAll, IsRun, IsInitial, Judge, Script;
    var after := ApplyAll(s, choices);
    DatabaseSession(after, id);
    AcceptedIsSafe(after.trace, id, Script(after.sessions[id].corrections), after.sessions[id].maxAttempts);
  }

  /** In every run, one recovery per robot and process, and the registry belongs to the lock holder. */
  lemma EveryRunIsExclusive(s: State, choices: seq<Choice>, t: nat, u: nat)
    requires IsInitial(s) && IsRun(s, choices)
    requires t in ApplyAll(s, choices).tasks && u in ApplyAll(s, choices).tasks
    ensures
      var tasks := ApplyAll(s, choices).tasks;
      HoldsLock(tasks[t].phase) && HoldsLock(tasks[u].phase) && LockKey(tasks[t]) == LockKey(tasks[u]) ==> t == u
  {
    RunInvariant(s, choices);
    hide ApplyAll, IsRun, IsInitial, HoldsLock;
  }

  lemma StoppedRejects(v: Verdict, ended: Event, e: Event, script: seq<Dispatch>, maxAttempts: nat)
    requires v.Live? && ended.Settled? && ended.token == v.token && ended.status.Unknown?
    ensures Observe(Observe(v, ended, script, maxAttempts), e, script, maxAttempts) == Rejected
  {
  }

  /**
   The lease assumption is needed: had another process expired the lease of a working task, the task's next dispatch
   would follow a terminal `unknown`.
   */
  lemma ExpiryMidAttemptWouldBreakSafety(s: State, t: nat)
    requires DatabaseOk(s) && Enabled(s, Send(t))
    ensures
      var p := s.tasks[t].phase;
      var expired := Update(s, p.sessionId, Expire(p.token), [Settled(p.sessionId, p.token, Unknown)]);
      expired.Some? && Enabled(expired.value, Send(t))
      && var stored := s.sessions[p.sessionId];
      Judge(Apply(expired.value, Send(t)).trace, p.sessionId, Script(stored.corrections), stored.maxAttempts) == Rejected
  {
    hide DatabaseOk, Judge, Script, OnlyHolder, Observe;
    var p := s.tasks[t].phase;
    DatabaseToken(s, t);
    var stored := s.sessions[p.sessionId];
    var script := Script(stored.corrections);
    var ended := Settled(p.sessionId, p.token, Unknown);
    JudgePush(s.trace, ended, p.sessionId, script, stored.maxAttempts);
    JudgePush(
      s.trace + [ended], Dispatched(p.sessionId, p.token, script[p.sent]), p.sessionId, script, stored.maxAttempts);
    StoppedRejects(
      VerdictOf(s.trace, p.sessionId, stored), ended, Dispatched(p.sessionId, p.token, script[p.sent]), script,
      stored.maxAttempts);
  }
}
