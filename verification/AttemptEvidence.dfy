/** From the session's log to the recorded outcome: what the executor decides about an acknowledged continuation. */
module AttemptEvidence {
  import opened Text
  import opened FlowPointers
  import opened FlowOutcome
  import opened FlowWait
  import opened RobotSession

  lemma {:induction false} HeardFromConnection(log: seq<Entry>, from: nat, generation: nat)
    requires LogOk(log) && from <= |log|
    ensures FromConnection(Heard(log, from, generation), generation)
    decreases |log|
  {
    hide Frames, Connections, IsOpen;
    if |log| > from {
      HeardFromConnection(Init(log), from, generation);
    }
  }

  lemma WaitAfterAck(log: seq<Entry>, j: nat, id: string, receipt: CommandReceipt, counts: seq<nat>, target: Target)
    requires LogOk(log) && j < |log| && log[j] == Settled({id}, Receipt(receipt))
    requires counts != [] && IsSchedule(counts, |Frames(log)|) && counts[|counts| - 1] == |Frames(log)|
    requires NothingLost(
      Frames(log), counts, receipt.generation, OutcomeJudge(target, receipt.generation), Wait(receipt.flowRevision, false, None))
    ensures
      var wait := AfterWakes(
        Frames(log), counts, receipt.generation, OutcomeJudge(target, receipt.generation),
        Wait(receipt.flowRevision, false, None));
      WaitOutcome(wait.selected, target)
        == AttemptOutcome(Heard(log, j, receipt.generation), target, receipt.generation)
  {
    hide LogOk, Frames, AfterWakes, NothingLost, AttemptOutcome, WaitOutcome, Heard, Stream, OutcomeJudge, IsSchedule;
    FramesAscend(log);
    ReceiptContents(log, j, id, receipt);
    OutcomeOfWait(Frames(log), counts, receipt.generation, receipt.flowRevision, target);
    assert Frames(log)[..counts[|counts| - 1]] == Frames(log);
    StreamAfterAck(log, j, receipt.generation);
  }

  /**
   However the wait is woken, as long as no unseen frame was evicted: the attempt is recorded as failed exactly when,
   after the continuation's acknowledgement, the robot published on that connection a start of this Flow followed by
   the pause on the very same step, with nothing else in between.
   */
  lemma FailedMeansRecurredAfterAck(
      log: seq<Entry>, j: nat, id: string, receipt: CommandReceipt, counts: seq<nat>, target: Target)
    requires LogOk(log) && j < |log| && log[j] == Settled({id}, Receipt(receipt))
    requires counts != [] && IsSchedule(counts, |Frames(log)|) && counts[|counts| - 1] == |Frames(log)|
    requires NothingLost(
      Frames(log), counts, receipt.generation, OutcomeJudge(target, receipt.generation), Wait(receipt.flowRevision, false, None))
    ensures
      var wait := AfterWakes(
        Frames(log), counts, receipt.generation, OutcomeJudge(target, receipt.generation),
        Wait(receipt.flowRevision, false, None));
      var failed := WaitOutcome(wait.selected, target) == Failed;
      failed <==> exists start: nat, end: nat ::
        IsRecurrence(Heard(log, j, receipt.generation), start, end, target, receipt.generation)
  {
    hide LogOk, Frames, AfterWakes, NothingLost, AttemptOutcome, WaitOutcome, Heard, OutcomeJudge, IsSchedule, IsRecurrence;
    hide FromConnection;
    WaitAfterAck(log, j, id, receipt, counts, target);
    HeardFromConnection(log, j, receipt.generation);
    FailedIff(Heard(log, j, receipt.generation), target, receipt.generation);
  }

  // ---------------------------------------------------------------- what an attempt decided on

  /** The session's log at the decision, where in it the continuation was acknowledged, and the wake-ups of the wait. */
  datatype Evidence = Evidence(seen: seq<Entry>, settled: nat, id: string, receipt: CommandReceipt, counts: seq<nat>)

  predicate IsEvidence(e: Evidence, generation: nat) {
    && LogOk(e.seen) && e.receipt.generation == generation
    && e.settled < |e.seen| && e.seen[e.settled] == Settled({e.id}, Receipt(e.receipt))
    && e.counts != [] && IsSchedule(e.counts, |Frames(e.seen)|) && e.counts[|e.counts| - 1] == |Frames(e.seen)|
  }

  /** At no wake-up of the wait had an unseen frame been evicted. */
  ghost predicate KeptAll(e: Evidence, target: Target)
    requires IsEvidence(e, e.receipt.generation)
  {
    NothingLost(Frames(e.seen), e.counts, e.receipt.generation, OutcomeJudge(target, e.receipt.generation),
                Wait(e.receipt.flowRevision, false, None))
  }

  /** What the wait selected. */
  function Selected(e: Evidence, target: Target): Option<Option<FlowPointer>>
    requires IsEvidence(e, e.receipt.generation)
  {
    AfterWakes(Frames(e.seen), e.counts, e.receipt.generation, OutcomeJudge(target, e.receipt.generation),
               Wait(e.receipt.flowRevision, false, None)).selected
  }

  /** What the robot published on the connection between the acknowledgement and the decision. */
  function HeardSince(e: Evidence): seq<Option<FlowPointer>>
    requires IsEvidence(e, e.receipt.generation)
  {
    Heard(e.seen, e.settled, e.receipt.generation)
  }

  predicate IsRecoveryOf(e: Evidence, end: nat, target: Target)
    requires IsEvidence(e, e.receipt.generation)
  {
    IsRecovery(HeardSince(e), end, target, e.receipt.generation)
  }

  predicate IsRecurrenceOf(e: Evidence, start: nat, end: nat, target: Target)
    requires IsEvidence(e, e.receipt.generation)
  {
    IsRecurrence(HeardSince(e), start, end, target, e.receipt.generation)
  }

  /** If nothing was lost, the selected frame decides as everything published since the acknowledgement does. */
  lemma SelectedIsOutcome(e: Evidence, target: Target)
    requires IsEvidence(e, e.receipt.generation) && KeptAll(e, target)
    ensures WaitOutcome(Selected(e, target), target) == AttemptOutcome(HeardSince(e), target, e.receipt.generation)
    ensures WaitOutcome(Selected(e, target), target) == Failed <==>
      exists start: nat, end: nat :: IsRecurrenceOf(e, start, end, target)
    ensures WaitOutcome(Selected(e, target), target) == Recovered <==> exists end: nat :: IsRecoveryOf(e, end, target)
  {
    hide LogOk, Frames, AfterWakes, NothingLost, AttemptOutcome, WaitOutcome, Heard, OutcomeJudge, IsSchedule, IsRecurrence;
    hide IsRecovery;
    RecoveredIff(HeardSince(e), target, e.receipt.generation);
    assert forall end: nat :: IsRecoveryOf(e, end, target) <==> IsRecovery(HeardSince(e), end, target, e.receipt.generation);
    WaitAfterAck(e.seen, e.settled, e.id, e.receipt, e.counts, target);
    FailedMeansRecurredAfterAck(e.seen, e.settled, e.id, e.receipt, e.counts, target);
    assert forall start: nat, end: nat ::
      IsRecurrenceOf(e, start, end, target)
      <==> IsRecurrence(Heard(e.seen, e.settled, e.receipt.generation), start, end, target, e.receipt.generation);
  }

  /** Nothing is lost if at most as many frames as the history holds were published since the acknowledgement. */
  lemma FewFramesAreKept(e: Evidence, target: Target)
    requires IsEvidence(e, e.receipt.generation)
    requires |Frames(e.seen)| <= e.receipt.flowRevision + FLOW_HISTORY_LIMIT
    ensures KeptAll(e, target)
  {
    hide LogOk, Frames, IsSchedule;
    FramesAscend(e.seen);
    FewFramesLoseNothing(
      Frames(e.seen), e.counts, e.receipt.generation, OutcomeJudge(target, e.receipt.generation),
      Wait(e.receipt.flowRevision, false, None));
  }
}
