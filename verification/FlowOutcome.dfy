/** Deciding from post-acknowledgement Flow frames whether an attempt recovered (`recovery_executor.py`). */
module FlowOutcome {
  import opened Text
  import opened FlowPointers

  /** The failed step a recovery session is about. */
  datatype Target = Target(flowId: string, actionIndex: int, actionCommand: string)

  datatype Outcome = Recovered | Failed | Unknown

  function StatusOf(pointer: FlowPointer): string {
    Lower(Strip(pointer.status))
  }

  predicate IsSuccess(status: string) {
    status in SUCCESS_STATUSES
  }

  predicate IsBeyond(pointer: FlowPointer, target: Target) {
    pointer.actionIndex.Some? && pointer.actionIndex.value > target.actionIndex
  }

  /** `classify_flow_outcome` */
  function Classify(pointer: Option<FlowPointer>, target: Target): Outcome {
    if pointer.None? || pointer.value.flowId != target.flowId then Unknown
    else
      var p := pointer.value;
      var status := StatusOf(p);
      if p.completed && IsSuccess(status) then Recovered
      else if status == "paused" && p.actionIndex == Some(target.actionIndex) && p.actionCommand == Some(target.actionCommand)
      then Failed
      else if IsBeyond(p, target) then Recovered
      else if IsSuccess(status) && p.actionIndex.Some? && p.actionIndex.value >= target.actionIndex then Recovered
      else Unknown
  }

  /** `_execution_outcome_predicate`: whether this frame decides, and whether execution has been seen to start. */
  function Decide(started: bool, pointer: Option<FlowPointer>, target: Target, generation: nat): (bool, bool) {
    if pointer.None? || pointer.value.generation != generation || pointer.value.flowId != target.flowId then (true, started)
    else
      var p := pointer.value;
      var status := StatusOf(p);
      if p.completed && IsSuccess(status) then (true, started)
      else if IsBeyond(p, target) then (true, started)
      else if IsSuccess(status) then (true, started)
      else if !started then
        if status == "paused" then (false, false)
        else if status == "in_progress" then (false, true)
        else (true, false)
      else (status == "paused" || status == "aborted" || status == "error", true)
  }

  /** The index of the first decisive frame. */
  function FirstDecisive(frames: seq<Option<FlowPointer>>, started: bool, target: Target, generation: nat): (i: Option<nat>)
    ensures i.Some? ==> i.value < |frames|
  {
    if frames == [] then None
    else
      var (decisive, next) := Decide(started, frames[0], target, generation);
      if decisive then Some(0)
      else
        var rest := FirstDecisive(frames[1..], next, target, generation);
        if rest.Some? then Some(rest.value + 1) else None
  }

  /** The result of an attempt over everything published after its acknowledgement; no decision is a timeout. */
  function AttemptOutcome(frames: seq<Option<FlowPointer>>, target: Target, generation: nat): Outcome {
    var i := FirstDecisive(frames, false, target, generation);
    if i.None? then Unknown else Classify(frames[i.value], target)
  }

  // ---------------------------------------------------------------- what the automaton means

  /** A frame of this run that shows neither success nor progress past the failed step. */
  predicate IsPending(pointer: Option<FlowPointer>, target: Target, generation: nat) {
    pointer.Some? && pointer.value.generation == generation && pointer.value.flowId == target.flowId
    && !(pointer.value.actionIndex.Some? && pointer.value.actionIndex.value > target.actionIndex)
    && StatusOf(pointer.value) !in SUCCESS_STATUSES
  }

  predicate IsJumpPause(pointer: Option<FlowPointer>, target: Target, generation: nat) {
    IsPending(pointer, target, generation) && StatusOf(pointer.value) == "paused"
  }

  predicate IsRunning(pointer: Option<FlowPointer>, target: Target, generation: nat) {
    IsPending(pointer, target, generation) && StatusOf(pointer.value) == "in_progress"
  }

  predicate IsStillRunning(pointer: Option<FlowPointer>, target: Target, generation: nat) {
    IsPending(pointer, target, generation)
    && StatusOf(pointer.value) != "paused" && StatusOf(pointer.value) != "aborted" && StatusOf(pointer.value) != "error"
  }

  predicate IsExactPause(pointer: Option<FlowPointer>, target: Target, generation: nat) {
    IsJumpPause(pointer, target, generation)
    && pointer.value.actionIndex == Some(target.actionIndex) && pointer.value.actionCommand == Some(target.actionCommand)
  }

  /** The only history that counts as the same failure again: jump pauses, a start, running, the exact pause. */
  predicate IsRecurrence(frames: seq<Option<FlowPointer>>, start: nat, end: nat, target: Target, generation: nat) {
    start < end < |frames|
    && (forall k | 0 <= k < start :: IsJumpPause(frames[k], target, generation))
    && IsRunning(frames[start], target, generation)
    && (forall k | start < k < end :: IsStillRunning(frames[k], target, generation))
    && IsExactPause(frames[end], target, generation)
  }

  predicate FromConnection(frames: seq<Option<FlowPointer>>, generation: nat) {
    forall i | 0 <= i < |frames| :: frames[i].Some? ==> frames[i].value.generation == generation
  }

  /** Whatever has been seen before, a frame that classifies as recovered ends the wait. */
  lemma RecoveredIsDecisive(started: bool, pointer: Option<FlowPointer>, target: Target, generation: nat)
    requires Classify(pointer, target) == Recovered
    ensures Decide(started, pointer, target, generation).0
  {
  }

  /** So evidence of recovery is never passed over. */
  lemma {:induction false} RecoveryIsNeverSkipped(
      frames: seq<Option<FlowPointer>>, started: bool, target: Target, generation: nat, k: nat)
    requires k < |frames| && Classify(frames[k], target) == Recovered
    ensures var i := FirstDecisive(frames, started, target, generation); i.Some? && i.value <= k
  {
    if k == 0 {
      RecoveredIsDecisive(started, frames[0], target, generation);
    } else if !Decide(started, frames[0], target, generation).0 {
      RecoveryIsNeverSkipped(frames[1..], Decide(started, frames[0], target, generation).1, target, generation, k - 1);
    }
  }

  lemma Steps(pointer: Option<FlowPointer>, target: Target, generation: nat)
    ensures IsJumpPause(pointer, target, generation) ==>
      Decide(false, pointer, target, generation) == (false, false) && Decide(true, pointer, target, generation).0
    ensures IsRunning(pointer, target, generation) ==> Decide(false, pointer, target, generation) == (false, true)
    ensures IsStillRunning(pointer, target, generation) ==> Decide(true, pointer, target, generation) == (false, true)
    ensures IsExactPause(pointer, target, generation) ==>
      IsJumpPause(pointer, target, generation) && Classify(pointer, target) == Failed
  {
  }

  /** A recurrence is decided at its final pause, not before. */
  lemma {:induction false} DecisionTrace(frames: seq<Option<FlowPointer>>, target: Target, generation: nat, start: nat, end: nat)
    requires IsRecurrence(frames, start, end, target, generation)
    ensures FirstDecisive(frames, false, target, generation) == Some(end)
    decreases start
  {
    hide Decide, IsJumpPause, IsRunning, IsStillRunning, IsExactPause;
    Steps(frames[0], target, generation);
    if start == 0 {
      Steps(frames[end], target, generation);
      RunTrace(frames[1..], target, generation, end - 1);
    } else {
      DecisionTrace(frames[1..], target, generation, start - 1, end - 1);
    }
  }

  lemma {:induction false} RunTrace(frames: seq<Option<FlowPointer>>, target: Target, generation: nat, end: nat)
    requires end < |frames|
    requires forall k | 0 <= k < end :: IsStillRunning(frames[k], target, generation)
    requires IsJumpPause(frames[end], target, generation)
    ensures FirstDecisive(frames, true, target, generation) == Some(end)
    decreases end
  {
    hide Decide, IsJumpPause, IsRunning, IsStillRunning, IsExactPause;
    Steps(frames[0], target, generation);
    if end > 0 {
      RunTrace(frames[1..], target, generation, end - 1);
    }
  }

  lemma FirstFrame(pointer: Option<FlowPointer>, target: Target, generation: nat)
    requires !Decide(false, pointer, target, generation).0
    ensures !Decide(false, pointer, target, generation).1 ==> IsJumpPause(pointer, target, generation)
    ensures Decide(false, pointer, target, generation).1 ==> IsRunning(pointer, target, generation)
  {
  }

  lemma RecurrenceShift(frames: seq<Option<FlowPointer>>, start: nat, end: nat, target: Target, generation: nat)
    requires frames != [] && IsJumpPause(frames[0], target, generation)
    requires IsRecurrence(frames[1..], start, end, target, generation)
    ensures IsRecurrence(frames, start + 1, end + 1, target, generation)
  {
    hide IsJumpPause, IsRunning, IsStillRunning, IsExactPause;
    assert forall k | 1 <= k < |frames| :: frames[k] == frames[1..][k - 1];
  }

  lemma RecurrenceStart(frames: seq<Option<FlowPointer>>, end: nat, target: Target, generation: nat)
    requires end + 1 < |frames| && IsRunning(frames[0], target, generation)
    requires forall k | 0 <= k < end :: IsStillRunning(frames[1..][k], target, generation)
    requires IsExactPause(frames[1..][end], target, generation)
    ensures IsRecurrence(frames, 0, end + 1, target, generation)
  {
    hide IsJumpPause, IsRunning, IsStillRunning, IsExactPause;
    assert forall k | 1 <= k < |frames| :: frames[k] == frames[1..][k - 1];
  }

  lemma ExactPauseOnly(pointer: Option<FlowPointer>, target: Target, generation: nat)
    requires pointer.Some? ==> pointer.value.generation == generation
    requires Decide(false, pointer, target, generation).0
    ensures Classify(pointer, target) != Failed
  {
  }

  lemma {:induction false} FailureHasStart(frames: seq<Option<FlowPointer>>, target: Target, generation: nat) returns (start: nat)
    requires FromConnection(frames, generation)
    requires AttemptOutcome(frames, target, generation) == Failed
    ensures IsRecurrence(frames, start, FirstDecisive(frames, false, target, generation).value, target, generation)
    decreases |frames|
  {
    hide Decide, Classify, IsJumpPause, IsRunning, IsStillRunning, IsExactPause, IsRecurrence;
    var (decisive, next) := Decide(false, frames[0], target, generation);
    if decisive {
      ExactPauseOnly(frames[0], target, generation);
    }
    FirstFrame(frames[0], target, generation);
    if next {
      RunUntilDecision(frames[1..], target, generation);
      RecurrenceStart(frames, FirstDecisive(frames[1..], true, target, generation).value, target, generation);
      start := 0;
    } else {
      var later := FailureHasStart(frames[1..], target, generation);
      RecurrenceShift(frames, later, FirstDecisive(frames[1..], false, target, generation).value, target, generation);
      start := later + 1;
    }
  }

  lemma {:induction false} RunUntilDecision(frames: seq<Option<FlowPointer>>, target: Target, generation: nat)
    requires FromConnection(frames, generation)
    requires FirstDecisive(frames, true, target, generation).Some?
    requires Classify(frames[FirstDecisive(frames, true, target, generation).value], target) == Failed
    ensures
      var end := FirstDecisive(frames, true, target, generation).value;
      && (forall k | 0 <= k < end :: IsStillRunning(frames[k], target, generation))
      && IsExactPause(frames[end], target, generation)
    decreases |frames|
  {
    if !Decide(true, frames[0], target, generation).0 {
      RunUntilDecision(frames[1..], target, generation);
      var end := FirstDecisive(frames, true, target, generation).value;
      assert forall k | 1 <= k < end :: frames[k] == frames[1..][k - 1];
    }
  }

  /**
   An attempt fails, the one retryable result, exactly when this Flow was seen executing after the acknowledgement
   and then paused again on the very same step with nothing else in between.
   */
  lemma FailedIff(frames: seq<Option<FlowPointer>>, target: Target, generation: nat)
    requires FromConnection(frames, generation)
    ensures AttemptOutcome(frames, target, generation) == Failed
      <==> exists start: nat, end: nat :: IsRecurrence(frames, start, end, target, generation)
  {
    if AttemptOutcome(frames, target, generation) == Failed {
      var start := FailureHasStart(frames, target, generation);
    }
    if exists start: nat, end: nat :: IsRecurrence(frames, start, end, target, generation) {
      var start: nat, end: nat :| IsRecurrence(frames, start, end, target, generation);
      DecisionTrace(frames, target, generation, start, end);
      Steps(frames[end], target, generation);
    }
  }

  // ---------------------------------------------------------------- when an attempt recovered

  /** A frame of this Flow that is completed successfully, past the failed step, or successful at or after it. */
  predicate ShowsRecovery(pointer: Option<FlowPointer>, target: Target) {
    pointer.Some? && pointer.value.flowId == target.flowId
    && var p, succeeded := pointer.value, StatusOf(pointer.value) in SUCCESS_STATUSES;
    (p.completed && succeeded)
    || (p.actionIndex.Some? && p.actionIndex.value > target.actionIndex)
    || (p.actionIndex.Some? && p.actionIndex.value >= target.actionIndex && succeeded)
  }

  /** Jump pauses, then a start, then nothing but running, up to this frame. */
  predicate HasStarted(frames: seq<Option<FlowPointer>>, start: nat, end: nat, target: Target, generation: nat) {
    start < end <= |frames|
    && (forall k | 0 <= k < start :: IsJumpPause(frames[k], target, generation))
    && IsRunning(frames[start], target, generation)
    && (forall k | start < k < end :: IsStillRunning(frames[k], target, generation))
  }

  /** Nothing is decided before this frame: jump pauses only, or a start and running. */
  predicate IsOpenUntil(frames: seq<Option<FlowPointer>>, end: nat, target: Target, generation: nat) {
    end <= |frames|
    && ((forall k | 0 <= k < end :: IsJumpPause(frames[k], target, generation))
        || exists start | 0 <= start < end :: HasStarted(frames, start, end, target, generation))
  }

  /** The only history that counts as recovered. */
  predicate IsRecovery(frames: seq<Option<FlowPointer>>, end: nat, target: Target, generation: nat) {
    end < |frames| && ShowsRecovery(frames[end], target) && IsOpenUntil(frames, end, target, generation)
  }

  /** One frame is classified as recovered exactly when it shows recovery. */
  lemma RecoveredFrameIff(pointer: Option<FlowPointer>, target: Target)
    ensures Classify(pointer, target) == Recovered <==> ShowsRecovery(pointer, target)
  {
    assert "paused" !in SUCCESS_STATUSES;
  }

  lemma ClosedFrame(pointer: Option<FlowPointer>, target: Target, generation: nat)
    ensures ShowsRecovery(pointer, target) ==>
      Decide(false, pointer, target, generation).0 && Decide(true, pointer, target, generation).0
    ensures !Decide(true, pointer, target, generation).0 ==> IsStillRunning(pointer, target, generation)
  {
  }

  lemma {:induction false} OpenWhileRunning(frames: seq<Option<FlowPointer>>, target: Target, generation: nat)
    requires FirstDecisive(frames, true, target, generation).Some?
    ensures forall k | 0 <= k < FirstDecisive(frames, true, target, generation).value ::
      IsStillRunning(frames[k], target, generation)
    decreases |frames|
  {
    hide Decide, IsStillRunning;
    ClosedFrame(frames[0], target, generation);
    if !Decide(true, frames[0], target, generation).0 {
      Steps(frames[0], target, generation);
      OpenWhileRunning(frames[1..], target, generation);
      var end := FirstDecisive(frames, true, target, generation).value;
      assert forall k | 1 <= k < end :: frames[k] == frames[1..][k - 1];
    }
  }

  lemma OpenAfterPause(frames: seq<Option<FlowPointer>>, end: nat, target: Target, generation: nat)
    requires frames != [] && IsJumpPause(frames[0], target, generation) && IsOpenUntil(frames[1..], end, target, generation)
    ensures IsOpenUntil(frames, end + 1, target, generation)
  {
    hide IsJumpPause, IsRunning, IsStillRunning;
    assert forall k | 1 <= k < |frames| :: frames[k] == frames[1..][k - 1];
    if !(forall k | 0 <= k < end :: IsJumpPause(frames[1..][k], target, generation)) {
      var start :| 0 <= start < end && HasStarted(frames[1..], start, end, target, generation);
      assert HasStarted(frames, start + 1, end + 1, target, generation);
    }
  }

  lemma OpenAfterStart(frames: seq<Option<FlowPointer>>, end: nat, target: Target, generation: nat)
    requires end < |frames| && IsRunning(frames[0], target, generation)
    requires forall k | 0 <= k < end :: IsStillRunning(frames[1..][k], target, generation)
    ensures IsOpenUntil(frames, end + 1, target, generation)
  {
    hide IsJumpPause, IsRunning, IsStillRunning;
    assert forall k | 1 <= k < |frames| :: frames[k] == frames[1..][k - 1];
    assert HasStarted(frames, 0, end + 1, target, generation);
  }

  /** Everything before the first decisive frame leaves the attempt open. */
  lemma {:induction false} OpenUntilDecided(frames: seq<Option<FlowPointer>>, target: Target, generation: nat)
    requires FirstDecisive(frames, false, target, generation).Some?
    ensures IsOpenUntil(frames, FirstDecisive(frames, false, target, generation).value, target, generation)
    decreases |frames|
  {
    hide Decide, IsJumpPause, IsRunning, IsStillRunning, IsOpenUntil;
    var (decisive, next) := Decide(false, frames[0], target, generation);
    if decisive {
      NothingYet(frames, target, generation);
    } else {
      FirstFrame(frames[0], target, generation);
      var end := FirstDecisive(frames[1..], next, target, generation).value;
      if next {
        OpenWhileRunning(frames[1..], target, generation);
        OpenAfterStart(frames, end, target, generation);
      } else {
        OpenUntilDecided(frames[1..], target, generation);
        OpenAfterPause(frames, end, target, generation);
      }
    }
  }

  lemma NothingYet(frames: seq<Option<FlowPointer>>, target: Target, generation: nat)
    ensures IsOpenUntil(frames, 0, target, generation)
  {
  }

  lemma {:induction false} RunningUntilRecovery(frames: seq<Option<FlowPointer>>, end: nat, target: Target, generation: nat)
    requires end < |frames| && ShowsRecovery(frames[end], target)
    requires forall k | 0 <= k < end :: IsStillRunning(frames[k], target, generation)
    ensures FirstDecisive(frames, true, target, generation) == Some(end)
    decreases end
  {
    hide Decide, IsJumpPause, IsRunning, IsStillRunning, ShowsRecovery;
    Steps(frames[0], target, generation);
    ClosedFrame(frames[0], target, generation);
    if end > 0 {
      RunningUntilRecovery(frames[1..], end - 1, target, generation);
    }
  }

  /** A recovery is decided at its own frame. */
  lemma {:induction false} RecoveryTrace(frames: seq<Option<FlowPointer>>, end: nat, target: Target, generation: nat)
    requires IsRecovery(frames, end, target, generation)
    ensures FirstDecisive(frames, false, target, generation) == Some(end)
    decreases end
  {
    hide Decide, IsJumpPause, IsRunning, IsStillRunning, ShowsRecovery;
    Steps(frames[0], target, generation);
    ClosedFrame(frames[0], target, generation);
    if end > 0 {
      if IsJumpPause(frames[0], target, generation) {
        OpenTail(frames, end, target, generation);
        RecoveryTrace(frames[1..], end - 1, target, generation);
      } else {
        var start :| 0 <= start < end && HasStarted(frames, start, end, target, generation);
        assert start == 0;
        forall k | 0 <= k < end - 1 ensures IsStillRunning(frames[1..][k], target, generation) {
          assert frames[1..][k] == frames[k + 1];
        }
        RunningUntilRecovery(frames[1..], end - 1, target, generation);
      }
    }
  }

  lemma OpenTail(frames: seq<Option<FlowPointer>>, end: nat, target: Target, generation: nat)
    requires 0 < end && IsOpenUntil(frames, end, target, generation) && IsJumpPause(frames[0], target, generation)
    ensures IsOpenUntil(frames[1..], end - 1, target, generation)
  {
    hide IsStillRunning;
    assert forall k | 1 <= k < |frames| :: frames[k] == frames[1..][k - 1];
    if !(forall k | 0 <= k < end :: IsJumpPause(frames[k], target, generation)) {
      var start :| 0 <= start < end && HasStarted(frames, start, end, target, generation);
      PauseIsNoStart(frames[0], target, generation);
      assert HasStarted(frames[1..], start - 1, end - 1, target, generation);
    }
  }

  lemma PauseIsNoStart(pointer: Option<FlowPointer>, target: Target, generation: nat)
    ensures !(IsJumpPause(pointer, target, generation) && IsRunning(pointer, target, generation))
  {
  }

  /**
   An attempt recovered exactly when some frame of this Flow published after the acknowledgement shows recovery, and
   before it there were only jump pauses, or jump pauses, a start and running.
   */
  lemma RecoveredIff(frames: seq<Option<FlowPointer>>, target: Target, generation: nat)
    ensures AttemptOutcome(frames, target, generation) == Recovered
      <==> exists end: nat :: IsRecovery(frames, end, target, generation)
  {
    hide Decide, Classify, ShowsRecovery, IsOpenUntil, FirstDecisive;
    var i := FirstDecisive(frames, false, target, generation);
    if i.Some? {
      RecoveredFrameIff(frames[i.value], target);
      OpenUntilDecided(frames, target, generation);
    }
    if exists end: nat :: IsRecovery(frames, end, target, generation) {
      var end: nat :| IsRecovery(frames, end, target, generation);
      RecoveryTrace(frames, end, target, generation);
    } else if i.Some? && Classify(frames[i.value], target) == Recovered {
      assert IsRecovery(frames, i.value, target, generation);
    }
  }
}
