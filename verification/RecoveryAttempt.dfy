/**
 The retry loop and one attempt as the code runs them (`_execute_target` from its loop on, `_execute_attempt`), on a
 robot session to which anything may happen at every await: the robot moves, reconnects, answers late or wrongly, and
 calls fail.
 */
module RecoveryAttempt {
  import opened Text
  import opened Json
  import opened FlowPointers
  import FlowOutcome
  import opened FlowWait
  import opened RobotSession
  import opened AttemptEvidence
  import Plans = RecoveryPlan
  import StoredPlan
  import opened RecoveryLifecycle
  import opened RecoveryRuns

  /** `AttemptRaised`: an error of a database call, or a cancellation, leaves the attempt. */
  datatype AttemptResult = AttemptRecovered | AttemptFailed | AttemptUnknown | AttemptRaised

  /** What a command request gives back, as far as the attempt looks at it. */
  datatype Reply = Acknowledged(receipt: CommandReceipt) | NotAcknowledged

  /** A command and its arguments, as handed to the robot session. */
  datatype Order = Order(command: string, arguments: Json)

  /**
   These requests are the stored actions from the first on, command by command with the stored arguments; in place of
   the last one the Flow is resumed, under a guard that shows the live pointer, and for a stored `$resume_flow` with the
   stored arguments.
   */
  predicate AreStored(requests: seq<Order>, actions: seq<Json>, pointer: FlowPointer) {
    |requests| <= |actions|
    && forall i | 0 <= i < |requests| ::
         actions[i].Obj?
         && if i < |actions| - 1 then
              Get(actions[i].fields, "command") == Str(requests[i].command)
              && Get(actions[i].fields, "arguments") == requests[i].arguments
            else IsResumption(requests[i], actions[i].fields, pointer)
  }

  predicate IsResumption(request: Order, action: map<string, Json>, pointer: FlowPointer) {
    && request.command == "$resume_flow" && request.arguments.Obj?
    && StoredPlan.ShowsPointer(request.arguments.fields, pointer)
    && (Get(action, "command") == Str("$resume_flow") ==> request.arguments == Get(action, "arguments"))
  }

  function CorrectionActions(plan: Plans.Plan): seq<Action> {
    seq(|plan.corrections|, i requires 0 <= i < |plan.corrections| =>
      Action(plan.corrections[i].command, Obj(plan.corrections[i].arguments)))
  }

  function RewindSteps(plan: Plans.Plan): int {
    if plan.terminal.ResumeFlow? then plan.terminal.rewindSteps else 0
  }

  function ResumeMode(plan: Plans.Plan): string {
    if plan.terminal.ResumeFlow? then plan.terminal.mode else "retry_current"
  }

  /** The robot session and the session row, as seen from one coordinator task. */
  class World {
    const id: string
    const target: FlowOutcome.Target
    /** The actions pinned in the session row, and the plan parsed from them. */
    const actions: seq<Json>
    const measure: Plans.Measure
    const plan: Plans.Plan
    const maxAttempts: nat

    var progress: Progress
    var trace: seq<RecoveryRuns.Event>

    /** What the robot connection holds. */
    var session: Session

    /** Whether every dispatch so far was made while the guard held for the attempt's pointer. */
    ghost var guarded: bool
    /** Whether every dispatch so far was made when all earlier ones had been acknowledged on their own connection. */
    ghost var sequential: bool
    ghost var outstanding: bool
    /** Everything handed to the robot session so far. */
    ghost var requests: seq<Order>
    /** What each finished wait decided on, in order. */
    ghost var decided: seq<Evidence>
    /** How many conclusions were asked for and not heard back from. */
    ghost var lost: nat

    constructor (
        id: string, target: FlowOutcome.Target, actions: seq<Json>, measure: Plans.Measure, plan: Plans.Plan,
        maxAttempts: nat, failureId: string)
      requires 1 <= maxAttempts <= 20 && Plans.ParsePlan(actions, measure) == Some(plan)
      ensures this.id == id && this.target == target && this.actions == actions && this.maxAttempts == maxAttempts
      ensures Valid() && guarded && sequential && !outstanding && progress.status.Ready? && requests == [] && decided == []
    {
      hide Script, Plans.ParsePlan;
      this.id, this.target, this.maxAttempts := id, target, maxAttempts;
      this.actions, this.measure, this.plan, requests := actions, measure, plan, [];
      progress, trace := Progress(Ready, 0, None, failureId), [];
      session := INITIAL;
      guarded, sequential, outstanding, decided, lost := true, true, false, [], 0;
      assert Invariant(INITIAL);
    }

    ghost function RowOf(): Stored
      reads this
    {
      Stored(
        Pointer("", target.flowId, target.actionIndex, target.actionCommand), maxAttempts, CorrectionActions(plan), progress)
    }

    /** The row and the trace agree with the protocol, and the session is consistent. */
    ghost predicate Valid()
      reads this
    {
      SessionOk(trace, id, RowOf()) && Invariant(session) && Plans.ParsePlan(actions, measure) == Some(plan)
    }

    /** The live part of `_require_live_execution_state`. */
    predicate IsLive(pointer: FlowPointer)
      reads this
    {
      FlowGuard(session, pointer)
      && session.latestCommands.Some? && session.latestCommands.value.generation == pointer.generation
    }

    /** At an await any events may reach the session. */
    method Yield()
      requires Invariant(session)
      modifies this`session
      ensures Invariant(session) && old(session).log <= session.log
    {
      var events: seq<RobotSession.Event> := *;
      if IsRun(session, events) {
        RunInvariant(session, events);
        RunLogGrows(session, events);
        session := ApplyAll(session, events);
      }
    }

    /** One event that the task itself causes. */
    method Do(e: RobotSession.Event)
      requires Invariant(session) && RobotSession.Enabled(session, e)
      modifies this`session
      ensures session == RobotSession.Apply(old(session), e)
      ensures Invariant(session) && old(session).log <= session.log
    {
      InvariantKept(session, e);
      LogGrows(session, e);
      session := RobotSession.Apply(session, e);
    }

    /** The whole guard: the live state, the plan against the live Flow, and the live action spec. */
    method RequireLive(pointer: FlowPointer, executable: bool) returns (allowed: bool)
      ensures allowed ==> IsLive(pointer) && pointer.actionIndex.Some? && pointer.actionCommand.Some?
      ensures allowed <==>
        executable && session.connected && session.generation == pointer.generation
        && session.latestCommands.Some? && session.latestCommands.value.generation == pointer.generation
        && session.latestFlow.Some? && Plans.FitsFlow(plan, session.latestFlow.value)
        && var latest := session.latestFlow.value;
        latest.generation == pointer.generation && latest.revision == pointer.revision && latest.flowId == pointer.flowId
        && latest.status == pointer.status && latest.actionIndex == pointer.actionIndex
        && latest.actionCommand == pointer.actionCommand
    {
      return IsLive(pointer) && Plans.FitsFlow(plan, session.latestFlow.value) && executable;
    }

    /** The session's side of `request_command`: begin, dispatch on the same connection, await the correlated answer. */
    method Ask() returns (reply: Reply, ghost settled: nat, ghost requestId: string)
      requires Invariant(session)
      modifies this`session
      ensures Invariant(session) && old(session).log <= session.log
      ensures reply.Acknowledged? ==>
        settled < |session.log| && session.log[settled] == Entry.Settled({requestId}, Receipt(reply.receipt))
    {
      hide Invariant, LogOk, HasBegun, IsSound, AnswerOf, SendRequest, BeginRequest, RobotSession.Finish, HandleMessage;
      settled := 0;
      UnusedId(session.log);
      var unused :| !HasBegun(session.log, unused);
      requestId := unused;
      Do(Begin(unused));
      Yield();
      var delivered: bool := *;
      if !RobotSession.Enabled(session, RobotSession.Send(unused, delivered)) {
        return NotAcknowledged, settled, requestId;
      }
      Do(RobotSession.Send(unused, delivered));
      Yield();
      if RobotSession.Enabled(session, Timeout(unused)) {
        Do(Timeout(unused));
        return NotAcknowledged, settled, requestId;
      }
      if !RobotSession.Enabled(session, Return(unused)) {
        return NotAcknowledged, settled, requestId;
      }
      var answer := AnswerOf(session, session.pending[unused]);
      ghost var before := session;
      Do(Return(unused));
      if !answer.Accepted? {
        return NotAcknowledged, settled, requestId;
      }
      ReturnedLast(before, unused);
      LogIsOk(session);
      ghost var k, n;
      k, n, settled := ReturnedReceiptIsSound(session.log, |before.log|, unused, answer.receipt);
      SoundSettled(session.log, k, n, settled, |before.log|, unused, answer.receipt);
      return Acknowledged(answer.receipt), settled, requestId;
    }

    /** `request_command` */
    method RequestCommand(token: string, step: Dispatch, request: Order, pointer: FlowPointer)
      returns (reply: Reply, ghost settled: nat, ghost requestId: string)
      requires Invariant(session)
      modifies this`trace, this`guarded, this`sequential, this`outstanding, this`requests, this`session
      ensures Invariant(session) && old(session).log <= session.log
      ensures trace == old(trace) + [Dispatched(id, token, step)] && requests == old(requests) + [request]
      ensures guarded == (old(guarded) && old(IsLive(pointer)))
      ensures sequential == (old(sequential) && !old(outstanding))
      ensures !outstanding <==> reply.Acknowledged? && reply.receipt.generation == pointer.generation
      ensures reply.Acknowledged? ==>
        settled < |session.log| && session.log[settled] == Entry.Settled({requestId}, Receipt(reply.receipt))
    {
      hide IsLive, Invariant;
      guarded, sequential := guarded && IsLive(pointer), sequential && !outstanding;
      trace, requests := trace + [Dispatched(id, token, step)], requests + [request];
      reply, settled, requestId := Ask();
      outstanding := !(reply.Acknowledged? && reply.receipt.generation == pointer.generation);
    }

    /** `finish`; it may fail before or after taking effect. */
    method FinishAttempt(token: string, result: FinishResult) returns (delivered: bool)
      requires OwnsAttempt(progress, token) && Invariant(session)
      modifies this`progress, this`trace, this`session, this`lost
      ensures lost == if delivered then old(lost) else old(lost) + 1
      ensures
        var status := FinishedStatus(result, old(progress), maxAttempts);
        (trace == old(trace) + [RecoveryRuns.Settled(id, token, status)] && progress == old(progress).(status := status))
        || (!delivered && trace == old(trace) && progress == old(progress))
      ensures Invariant(session) && old(session).log <= session.log
    {
      hide Invariant;
      var reached: bool := *;
      if !reached {
        lost := lost + 1;
        return false;
      }
      var status := FinishedStatus(result, progress, maxAttempts);
      progress := progress.(status := status);
      trace := trace + [RecoveryRuns.Settled(id, token, status)];
      Yield();
      delivered := *;
      if !delivered {
        lost := lost + 1;
      }
    }

    /** `claim`; refused unless claimable, and an operator may cancel first. */
    method ClaimAttempt(failureId: string) returns (token: Option<string>)
      requires Valid()
      modifies this`progress, this`trace, this`session
      ensures Valid()
      ensures token.Some? ==>
        OwnsAttempt(progress, token.value) && progress.attempts == old(progress).attempts + 1
        && VerdictOf(trace, id, RowOf()) == Live(progress.attempts, token.value, 0)
      ensures token.None? ==> progress.attempts >= old(progress).attempts
    {
      hide LifecycleOk, Agrees, Script, Invariant, VerdictOf, SessionOk, Plans.ParsePlan;
      var granted: bool, cancelled: bool, minted: string := *, *, *;
      if !IsClaimable(progress.status) {
        return None;
      }
      if cancelled {
        CancelAgrees(trace, id, RowOf());
        progress := progress.(status := Status.Cancelled);
        trace := trace + [CancelledByOperator(id)];
        return None;
      }
      if !granted {
        return None;
      }
      ghost var before := RowOf();
      var after := Progress(Running, progress.attempts + 1, Some(minted), failureId);
      ClaimAgrees(trace, id, before, failureId, minted, after);
      progress := after;
      trace := trace + [Claimed(id, minted)];
      Yield();
      var delivered: bool := *;
      return if delivered then Some(minted) else None;
    }

    /**
     `wait_for_flow` with the outcome predicate, from the acknowledgement on: a pass over the retained frames at every
     wake-up, until one decides, the connection changes, or the time is up.
     */
    method WaitForOutcome(receipt: CommandReceipt, ghost settled: nat, ghost requestId: string)
      returns (selected: Option<Option<FlowPointer>>)
      requires Invariant(session)
      requires settled < |session.log| && session.log[settled] == Entry.Settled({requestId}, Receipt(receipt))
      modifies this`session, this`decided
      ensures Invariant(session) && old(session).log <= session.log
      ensures selected.None? ==> decided == old(decided)
      ensures selected.Some? ==>
        |decided| == |old(decided)| + 1 && old(decided) <= decided
        && var evidence := decided[|old(decided)|];
        IsEvidence(evidence, receipt.generation) && evidence.seen <= session.log
        && evidence.receipt == receipt && selected == Selected(evidence, target)
    {
      hide Invariant, LogOk, Frames, IsSchedule, AfterWakes, OutcomeJudge, FlowWait.Scan;
      ghost var start := Wait(receipt.flowRevision, false, None);
      var judge := OutcomeJudge(target, receipt.generation);
      var waiter := new FlowWaiter<bool>(receipt.flowRevision, receipt.generation, false);
      ghost var counts: seq<nat> := [];
      NoWakes(Frames(session.log), receipt.generation, judge, start);
      var remaining: nat := *;
      while remaining > 0
        invariant Invariant(session) && old(session).log <= session.log && decided == old(decided)
        invariant waiter.wait.selected.None? && fresh(waiter) && waiter.generation == receipt.generation
        invariant IsSchedule(counts, |Frames(session.log)|)
        invariant waiter.wait == AfterWakes(Frames(session.log), counts, receipt.generation, judge, start)
      {
        var matched := waiter.Wake(session.connected, session.generation, session.history, judge);
        if matched.Err? {
          return None;
        }
        HistoryIsLast(session);
        OneMoreWake(Frames(session.log), counts, receipt.generation, judge, start);
        counts := counts + [|Frames(session.log)|];
        if matched.value {
          LogIsOk(session);
          decided := decided + [Evidence(session.log, settled, requestId, receipt, counts)];
          return Some(waiter.wait.selected.value);
        }
        ghost var before := Frames(session.log);
        ghost var log := session.log;
        Yield();
        FramesGrow(log, session.log);
        WakesStay(before, Frames(session.log), counts, receipt.generation, judge, start);
        remaining := remaining - 1;
      }
      return None;
    }
  }

  lemma LogIsOk(s: Session)
    requires Invariant(s)
    ensures LogOk(s.log)
  {
  }

  lemma ReturnedLast(s: Session, id: string)
    requires RobotSession.Enabled(s, Return(id))
    ensures RobotSession.Apply(s, Return(id)).log == s.log + [Returned(id, AnswerOf(s, s.pending[id]))]
  {
  }

  lemma HistoryIsLast(s: Session)
    requires Invariant(s)
    ensures s.history == LastN(Frames(s.log))
  {
  }

  lemma SoundSettled(log: seq<Entry>, k: nat, n: nat, j: nat, i: nat, id: string, receipt: CommandReceipt)
    requires IsSound(log, k, n, j, i, id, receipt)
    ensures j < |log| && log[j] == Entry.Settled({id}, Receipt(receipt))
  {
  }

  lemma NoWakes<Q>(frames: seq<FlowFrame>, generation: nat, judge: Judge<Q>, wait: Wait<Q>)
    ensures IsSchedule([], |frames|) && AfterWakes(frames, [], generation, judge, wait) == wait
  {
  }

  /** Ends an attempt as unknown; a failing call leaves it to the lease. */
  method FinishUnknown(world: World, token: string, ghost sent: nat) returns (result: AttemptResult)
    requires world.Valid() && OwnsAttempt(world.progress, token)
    requires VerdictOf(world.trace, world.id, world.RowOf()) == Live(world.progress.attempts, token, sent)
    modifies world`progress, world`trace, world`session, world`lost
    ensures world.Valid() && world.progress.attempts == old(world.progress).attempts
    ensures old(world.session).log <= world.session.log
    ensures result.AttemptUnknown? || result.AttemptRaised?
    ensures result.AttemptUnknown? ==> world.progress.status == Unknown
    ensures old(world.lost) <= world.lost && (result.AttemptRaised? <==> world.lost > old(world.lost))
  {
    hide SessionOk, VerdictOf, Invariant;
    FinishAgrees(world.trace, world.id, world.RowOf(), token, sent, ToUnknown);
    var delivered := world.FinishAttempt(token, ToUnknown);
    result := if delivered then AttemptUnknown else AttemptRaised;
  }

  /** The evidence of a decision on an attempt: everything heard since the acknowledgement amounts to this outcome. */
  ghost predicate IsDecidedBy(e: Evidence, pointer: FlowPointer, plan: Plans.Plan, target: FlowOutcome.Target,
                              outcome: FlowOutcome.Outcome)
  {
    && IsEvidence(e, pointer.generation) && pointer.actionIndex.Some? && pointer.actionCommand.Some?
    && Plans.IsAcknowledged(e.receipt.result, pointer, RewindSteps(plan), ResumeMode(plan))
    && WaitOutcome(Selected(e, target), target) == outcome
    && (KeptAll(e, target) ==>
          FlowOutcome.AttemptOutcome(HeardSince(e), target, pointer.generation) == outcome
          && (outcome.Failed? <==> exists start: nat, end: nat :: IsRecurrenceOf(e, start, end, target))
          && (outcome.Recovered? <==> exists end: nat :: IsRecoveryOf(e, end, target)))
  }

  lemma Decides(e: Evidence, pointer: FlowPointer, plan: Plans.Plan, target: FlowOutcome.Target, outcome: FlowOutcome.Outcome)
    requires IsEvidence(e, pointer.generation) && pointer.actionIndex.Some? && pointer.actionCommand.Some?
    requires Plans.IsAcknowledged(e.receipt.result, pointer, RewindSteps(plan), ResumeMode(plan))
    requires WaitOutcome(Selected(e, target), target) == outcome
    ensures IsDecidedBy(e, pointer, plan, target, outcome)
  {
    hide IsEvidence, KeptAll, Selected, HeardSince, IsRecurrenceOf, IsRecoveryOf, Plans.IsAcknowledged;
    EvidenceGeneration(e, pointer.generation);
    if KeptAll(e, target) {
      SelectedIsOutcome(e, target);
    }
  }

  lemma EvidenceGeneration(e: Evidence, generation: nat)
    requires IsEvidence(e, generation)
    ensures e.receipt.generation == generation
  {
  }

  lemma NothingSent(actions: seq<Json>, pointer: FlowPointer)
    ensures AreStored([], actions, pointer)
  {
  }

  lemma NextCorrection(actions: seq<Json>, measure: Plans.Measure, sent: nat)
    requires Plans.ParsePlan(actions, measure).Some? && sent < |actions| - 1
    ensures
      var c := Plans.ParsePlan(actions, measure).value.corrections[sent];
      actions[sent].Obj? && Get(actions[sent].fields, "command") == Str(c.command)
      && Get(actions[sent].fields, "arguments") == Obj(c.arguments)
  {
    hide Plans.ParsePlan;
    StoredPlan.CorrectionsAreStored(actions, measure);
    assert StoredPlan.ShowsCorrection(actions[sent], Plans.ParsePlan(actions, measure).value.corrections[sent]);
  }

  lemma LastResumption(actions: seq<Json>, measure: Plans.Measure, pointer: FlowPointer)
    requires Plans.ParsePlan(actions, measure).Some?
    requires Plans.ResumeArguments(Plans.ParsePlan(actions, measure).value, pointer).Some?
    ensures actions[|actions| - 1].Obj?
    ensures IsResumption(
      Order("$resume_flow", Obj(Plans.ResumeArguments(Plans.ParsePlan(actions, measure).value, pointer).value)),
      actions[|actions| - 1].fields, pointer)
  {
    hide Plans.ParsePlan, Plans.ResumeArguments, StoredPlan.ShowsPointer, StoredPlan.HoldsLiveGuard;
    var plan := Plans.ParsePlan(actions, measure).value;
    StoredPlan.TerminalIsStored(actions, measure);
    if plan.terminal.ResumeFlow? {
      StoredPlan.ResumeSentIff(actions, measure, pointer);
    } else {
      StoredPlan.LegacySentIff(plan, pointer);
    }
  }

  lemma OneMoreRequest(
      requests: seq<Order>, request: Order, actions: seq<Json>, measure: Plans.Measure, pointer: FlowPointer)
    requires Plans.ParsePlan(actions, measure).Some? && AreStored(requests, actions, pointer) && |requests| < |actions|
    requires
      var plan := Plans.ParsePlan(actions, measure).value;
      if |requests| < |actions| - 1 then
        request == Order(plan.corrections[|requests|].command, Obj(plan.corrections[|requests|].arguments))
      else Plans.ResumeArguments(plan, pointer).Some?
           && request == Order("$resume_flow", Obj(Plans.ResumeArguments(plan, pointer).value))
    ensures AreStored(requests + [request], actions, pointer)
  {
    hide Plans.ParsePlan, Plans.ResumeArguments, IsResumption;
    if |requests| < |actions| - 1 {
      NextCorrection(actions, measure, |requests|);
    } else {
      LastResumption(actions, measure, pointer);
    }
  }

  /** The commands of `_execute_attempt`: each under the guard, and each acknowledged before the next. */
  method SendScript(world: World, token: string, pointer: FlowPointer)
    returns (receipt: Option<CommandReceipt>, result: AttemptResult, ghost settled: nat, ghost requestId: string)
    requires world.Valid() && world.guarded && OwnsAttempt(world.progress, token)
    requires world.sequential && !world.outstanding
    requires VerdictOf(world.trace, world.id, world.RowOf()) == Live(world.progress.attempts, token, 0)
    modifies world
    ensures world.Valid() && world.guarded && world.sequential && world.progress.attempts == old(world.progress).attempts
    ensures old(world.requests) <= world.requests && world.decided == old(world.decided)
    ensures AreStored(world.requests[|old(world.requests)|..], world.actions, pointer)
    ensures receipt.None? ==> result.AttemptUnknown? || result.AttemptRaised?
    ensures receipt.None? && result.AttemptUnknown? ==> world.progress.status == Unknown
    ensures receipt.None? ==> old(world.lost) <= world.lost && (result.AttemptRaised? <==> world.lost > old(world.lost))
    ensures receipt.Some? ==> world.lost == old(world.lost)
    ensures receipt.Some? ==>
      && OwnsAttempt(world.progress, token) && !world.outstanding
      && |world.requests| == |old(world.requests)| + |world.actions|
      && VerdictOf(world.trace, world.id, world.RowOf()) == Live(world.progress.attempts, token, |world.actions|)
      && settled < |world.session.log| && world.session.log[settled] == Entry.Settled({requestId}, Receipt(receipt.value))
      && receipt.value.generation == pointer.generation && pointer.actionIndex.Some? && pointer.actionCommand.Some?
      && Plans.IsAcknowledged(receipt.value.result, pointer, RewindSteps(world.plan), ResumeMode(world.plan))
  {
    hide SessionOk, VerdictOf, Invariant, Plans.IsAcknowledged, Plans.ResumeArguments, AreStored, Plans.ParsePlan;
    ghost var before := world.requests;
    assert world.requests[|before|..] == [];
    assert AreStored([], world.actions, pointer) by { NothingSent(world.actions, pointer); }
    var script := Script(CorrectionActions(world.plan));
    var sent := 0;
    settled, requestId, result := 0, "", AttemptRaised;
    receipt := None;
    while sent < |script|
      invariant sent <= |script| == |world.actions|
      invariant world.Valid() && world.guarded && world.sequential && !world.outstanding
      invariant OwnsAttempt(world.progress, token) && world.progress.attempts == old(world.progress).attempts
      invariant |world.requests| == |before| + sent && before <= world.requests
      invariant world.decided == old(world.decided) && world.lost == old(world.lost)
      invariant AreStored(world.requests[|before|..], world.actions, pointer)
      invariant VerdictOf(world.trace, world.id, world.RowOf()) == Live(world.progress.attempts, token, sent)
      invariant sent == |script| ==>
        receipt.Some? && settled < |world.session.log|
        && world.session.log[settled] == Entry.Settled({requestId}, Receipt(receipt.value))
        && receipt.value.generation == pointer.generation && pointer.actionIndex.Some? && pointer.actionCommand.Some?
        && Plans.IsAcknowledged(receipt.value.result, pointer, RewindSteps(world.plan), ResumeMode(world.plan))
    {
      var executable: bool := *;
      var allowed := world.RequireLive(pointer, executable);
      if !allowed || (sent + 1 == |script| && Plans.ResumeArguments(world.plan, pointer).None?) {
        result := FinishUnknown(world, token, sent);
        return None, result, settled, requestId;
      }
      SendAgrees(world.trace, world.id, world.RowOf(), token, sent);
      var reply: Reply;
      var request :=
        if sent + 1 == |script| then Order("$resume_flow", Obj(Plans.ResumeArguments(world.plan, pointer).value))
        else Order(world.plan.corrections[sent].command, Obj(world.plan.corrections[sent].arguments));
      OneMoreRequest(world.requests[|before|..], request, world.actions, world.measure, pointer);
      assert (world.requests + [request])[|before|..] == world.requests[|before|..] + [request];
      reply, settled, requestId := world.RequestCommand(token, script[sent], request, pointer);
      sent := sent + 1;
      if reply.NotAcknowledged? || reply.receipt.generation != pointer.generation
         || (sent == |script|
             && !Plans.IsAcknowledged(reply.receipt.result, pointer, RewindSteps(world.plan), ResumeMode(world.plan)))
      {
        result := FinishUnknown(world, token, sent);
        return None, result, settled, requestId;
      }
      receipt := Some(reply.receipt);
    }
  }

  /** The outcome that an attempt which did not raise reports. */
  function OutcomeOf(result: AttemptResult): FlowOutcome.Outcome
    requires !result.AttemptRaised?
  {
    match result
    case AttemptRecovered => FlowOutcome.Recovered
    case AttemptFailed => FlowOutcome.Failed
    case AttemptUnknown => FlowOutcome.Unknown
  }

  /** `_execute_attempt`; a wait that ended with a decision is reported as just that decision. */
  method ExecuteAttempt(world: World, token: string, pointer: FlowPointer) returns (result: AttemptResult)
    requires world.Valid() && world.guarded && OwnsAttempt(world.progress, token)
    requires world.sequential && !world.outstanding
    requires VerdictOf(world.trace, world.id, world.RowOf()) == Live(world.progress.attempts, token, 0)
    modifies world
    ensures world.Valid() && world.guarded && world.sequential && world.progress.attempts == old(world.progress).attempts
    ensures old(world.requests) <= world.requests
    ensures AreStored(world.requests[|old(world.requests)|..], world.actions, pointer)
    ensures result.AttemptRecovered? || result.AttemptFailed? ==>
      !world.outstanding && |world.requests| == |old(world.requests)| + |world.actions|
    ensures result.AttemptUnknown? ==> world.progress.status == Unknown
    ensures result.AttemptRecovered? ==> world.progress.status == Recovered
    ensures result.AttemptFailed? ==> world.progress.status == Failed || world.progress.status == TimedOut
    ensures result.AttemptRaised? <==> world.lost > old(world.lost)
    ensures old(world.decided) <= world.decided && |world.decided| <= |old(world.decided)| + 1
    ensures result.AttemptRecovered? || result.AttemptFailed? ==> |world.decided| == |old(world.decided)| + 1
    ensures |world.decided| == |old(world.decided)| + 1 && !result.AttemptRaised? ==>
      var evidence := world.decided[|old(world.decided)|];
      evidence.seen <= world.session.log && IsDecidedBy(evidence, pointer, world.plan, world.target, OutcomeOf(result))
  {
    hide SessionOk, VerdictOf, Invariant, IsDecidedBy, IsEvidence, Selected, Plans.IsAcknowledged, Plans.ParsePlan;
    hide FlowOutcome.Classify, AreStored;
    var receipt: Option<CommandReceipt>;
    ghost var settled: nat, requestId: string;
    receipt, result, settled, requestId := SendScript(world, token, pointer);
    if receipt.None? {
      return;
    }
    ghost var sent := |world.actions|;
    assert |Script(CorrectionActions(world.plan))| == sent;
    FinishAgrees(world.trace, world.id, world.RowOf(), token, sent, ToAwaiting);
    var delivered := world.FinishAttempt(token, ToAwaiting);
    if !delivered {
      return AttemptRaised;
    }
    var selected := world.WaitForOutcome(receipt.value, settled, requestId);
    if selected.None? {
      result := FinishUnknown(world, token, sent);
      return;
    }
    Decides(world.decided[|old(world.decided)|], pointer, world.plan, world.target, WaitOutcome(selected, world.target));
    match FlowOutcome.Classify(selected.value, world.target) {
      case Recovered =>
        FinishAgrees(world.trace, world.id, world.RowOf(), token, sent, ToRecovered);
        delivered := world.FinishAttempt(token, ToRecovered);
        result := if delivered then AttemptRecovered else AttemptRaised;
      case Failed =>
        FinishAgrees(world.trace, world.id, world.RowOf(), token, sent, ToFailed);
        delivered := world.FinishAttempt(token, ToFailed);
        result := if delivered then AttemptFailed else AttemptRaised;
      case Unknown =>
        result := FinishUnknown(world, token, sent);
    }
  }

  /** A pointer paused on exactly the session's step. */
  predicate MatchesSession(pointer: FlowPointer, target: FlowOutcome.Target) {
    FlowOutcome.StatusOf(pointer) == "paused" && pointer.flowId == target.flowId
    && pointer.actionIndex == Some(target.actionIndex) && pointer.actionCommand == Some(target.actionCommand)
  }

  /** Every attempt but the first went out for a robot paused on the failed step again, after one that failed on evidence. */
  ghost predicate AreJustified(
      pointers: seq<FlowPointer>, failures: seq<Evidence>, plan: Plans.Plan, target: FlowOutcome.Target)
  {
    && |failures| <= |pointers| <= |failures| + 1
    && (forall i | 0 <= i < |failures| :: IsDecidedBy(failures[i], pointers[i], plan, target, FlowOutcome.Failed))
    && forall i | 1 <= i < |pointers| ::
         Lower(Strip(pointers[i].status)) == "paused" && pointers[i].flowId == target.flowId
         && pointers[i].actionIndex == Some(target.actionIndex) && pointers[i].actionCommand == Some(target.actionCommand)
  }

  lemma NoAttempts(plan: Plans.Plan, target: FlowOutcome.Target)
    ensures AreJustified([], [], plan, target)
  {
  }

  lemma OneMoreAttempt(
      pointers: seq<FlowPointer>, failures: seq<Evidence>, pointer: FlowPointer, plan: Plans.Plan, target: FlowOutcome.Target)
    requires AreJustified(pointers, failures, plan, target) && |pointers| == |failures|
    requires pointers != [] ==> MatchesSession(pointer, target)
    ensures AreJustified(pointers + [pointer], failures, plan, target)
  {
    hide IsDecidedBy;
  }

  lemma OneMoreFailure(
      pointers: seq<FlowPointer>, failures: seq<Evidence>, failure: Evidence, plan: Plans.Plan, target: FlowOutcome.Target)
    requires AreJustified(pointers, failures, plan, target) && |pointers| == |failures| + 1
    requires IsDecidedBy(failure, pointers[|failures|], plan, target, FlowOutcome.Failed)
    ensures AreJustified(pointers, failures + [failure], plan, target)
  {
    hide IsDecidedBy;
  }

  /**
   The retry loop. It ends, because every claim uses up one attempt; every dispatch was made under the guard; the row and
   trace follow the protocol throughout; and a retry is made only where the same step paused again after a failure.
   */
  method RunAttempts(world: World, first: FlowPointer, failureId: string)
    returns (ghost pointers: seq<FlowPointer>, ghost failures: seq<Evidence>)
    requires world.Valid() && world.guarded && world.sequential && !world.outstanding
    modifies world
    ensures world.Valid() && world.guarded && world.sequential
    ensures world.progress.attempts <= world.maxAttempts
    ensures AreJustified(pointers, failures, world.plan, world.target)
  {
    hide Agrees, VerdictOf, Invariant, IsDecidedBy, Plans.ParsePlan, AreStored, AreJustified, MatchesSession;
    pointers, failures := [], [];
    NoAttempts(world.plan, world.target);
    var pointer := first;
    var stopping: bool := *;
    while !stopping
      invariant world.Valid() && world.guarded && world.sequential && !world.outstanding
      invariant |pointers| == |failures| && AreJustified(pointers, failures, world.plan, world.target)
      invariant pointers != [] ==> MatchesSession(pointer, world.target)
      decreases world.maxAttempts - world.progress.attempts
    {
      var executable: bool := *;
      var allowed := world.RequireLive(pointer, executable);
      if !allowed {
        return;
      }
      var token := world.ClaimAttempt(failureId);
      if token.None? {
        return;
      }
      // A malformed claim, a plan that no longer fits, or a moved Flow ends the attempt before any dispatch.
      var usable: bool := *;
      executable := *;
      allowed := world.RequireLive(pointer, executable);
      if !usable || !allowed {
        var _ := FinishUnknown(world, token.value, 0);
        return;
      }
      OneMoreAttempt(pointers, failures, pointer, world.plan, world.target);
      pointers := pointers + [pointer];
      var result := ExecuteAttempt(world, token.value, pointer);
      if !result.AttemptFailed? || !world.progress.status.Failed? {
        return;
      }
      OneMoreFailure(pointers, failures, world.decided[|world.decided| - 1], world.plan, world.target);
      failures := failures + [world.decided[|world.decided| - 1]];
      var latest := world.session.latestFlow;
      if latest.None? || !MatchesSession(latest.value, world.target) {
        return;
      }
      pointer := latest.value;
      stopping := *;
    }
  }
}
