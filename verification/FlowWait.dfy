/** Waiting for a decisive Flow frame across wake-ups (`wait_for_flow` in `robot_session.py`). */
module FlowWait {
  import opened Text
  import opened FlowPointers
  import opened FlowOutcome

  const FLOW_HISTORY_LIMIT: nat := 512

  datatype FlowFrame = FlowFrame(revision: nat, generation: nat, pointer: Option<FlowPointer>)

  /** A stateful predicate: from its state and a frame, whether the frame decides, and the next state. */
  type Judge<!Q> = (Q, Option<FlowPointer>) -> (bool, Q)

  /** The nonlocals of the wait. */
  datatype Wait<Q> = Wait(cursor: nat, state: Q, selected: Option<Option<FlowPointer>>)

  predicate IsRelevant(frame: FlowFrame, cursor: nat, generation: nat) {
    frame.revision > cursor && frame.generation == generation
  }

  /** One pass of `changed_and_matches` over the retained frames. */
  function Scan<Q>(frames: seq<FlowFrame>, generation: nat, judge: Judge<Q>, wait: Wait<Q>): Wait<Q> {
    if frames == [] || wait.selected.Some? then wait
    else Scan(frames[1..], generation, judge, ScanOne(frames[0], generation, judge, wait))
  }

  function ScanOne<Q>(frame: FlowFrame, generation: nat, judge: Judge<Q>, wait: Wait<Q>): Wait<Q> {
    if !IsRelevant(frame, wait.cursor, generation) then wait
    else
      var (hit, state) := judge(wait.state, frame.pointer);
      Wait(frame.revision, state, if hit then Some(frame.pointer) else None)
  }

  /** The live objects of one wait. */
  class FlowWaiter<Q> {
    const generation: nat
    var wait: Wait<Q>

    constructor (afterRevision: nat, generation: nat, state: Q)
      ensures this.generation == generation && wait == Wait(afterRevision, state, None)
    {
      this.generation := generation;
      wait := Wait(afterRevision, state, None);
    }

    /** `changed_and_matches`: raises when the connection changed, otherwise scans the retained frames. */
    method Wake(connected: bool, currentGeneration: nat, history: seq<FlowFrame>, judge: Judge<Q>)
      returns (matched: Result<bool>)
      requires wait.selected.None?
      modifies this
      ensures !connected || currentGeneration != generation ==> matched.Err? && wait == old(wait)
      ensures connected && currentGeneration == generation ==>
        wait == Scan(history, generation, judge, old(wait)) && matched == Ok(wait.selected.Some?)
    {
      if !connected || currentGeneration != generation {
        return Err("robot connection changed while waiting for Flow");
      }
      for i := 0 to |history|
        invariant wait.selected.None?
        invariant Scan(history, generation, judge, old(wait)) == Scan(history[i..], generation, judge, wait)
      {
        var frame := history[i];
        if frame.revision <= wait.cursor || frame.generation != generation {
          continue;
        }
        var (hit, state) := judge(wait.state, frame.pointer);
        wait := Wait(frame.revision, state, if hit then Some(frame.pointer) else None);
        if hit {
          return Ok(true);
        }
      }
      return Ok(false);
    }
  }

  // ---------------------------------------------------------------- the pure stream

  predicate IsAscending(frames: seq<FlowFrame>) {
    forall i, j | 0 <= i < j < |frames| :: frames[i].revision < frames[j].revision
  }

  /** The frames of one connection published after a revision, in order. */
  function Stream(frames: seq<FlowFrame>, cursor: nat, generation: nat): seq<Option<FlowPointer>> {
    if frames == [] then []
    else
      Shown(frames[0], cursor, generation)
      + Stream(frames[1..], cursor, generation)
  }

  /** The first decisive element of a stream, by a plain fold. */
  function FirstHit<Q>(stream: seq<Option<FlowPointer>>, judge: Judge<Q>, state: Q): Option<Option<FlowPointer>> {
    if stream == [] then None
    else
      var (hit, next) := judge(state, stream[0]);
      if hit then Some(stream[0]) else FirstHit(stream[1..], judge, next)
  }

  function LastN(frames: seq<FlowFrame>): (kept: seq<FlowFrame>)
    ensures |kept| <= FLOW_HISTORY_LIMIT
  {
    if |frames| <= FLOW_HISTORY_LIMIT then frames else frames[|frames| - FLOW_HISTORY_LIMIT..]
  }

  function Evicted(frames: seq<FlowFrame>): seq<FlowFrame> {
    frames[..|frames| - |LastN(frames)|]
  }

  function Shown(frame: FlowFrame, cursor: nat, generation: nat): seq<Option<FlowPointer>> {
    if IsRelevant(frame, cursor, generation) then [frame.pointer] else []
  }

  lemma StreamStep(frames: seq<FlowFrame>, cursor: nat, generation: nat)
    ensures Stream([], cursor, generation) == []
    ensures frames != [] ==>
      Stream(frames, cursor, generation) == Shown(frames[0], cursor, generation) + Stream(frames[1..], cursor, generation)
  {
  }

  lemma ConcatAssociates<T>(a: seq<T>, b: seq<T>, c: seq<T>)
    ensures (a + b) + c == a + (b + c)
  {
  }

  lemma {:induction false} StreamAppend(a: seq<FlowFrame>, b: seq<FlowFrame>, cursor: nat, generation: nat)
    ensures Stream(a + b, cursor, generation) == Stream(a, cursor, generation) + Stream(b, cursor, generation)
  {
    hide Shown, Stream;
    StreamStep(a, cursor, generation);
    StreamStep(a + b, cursor, generation);
    if a == [] {
      assert a + b == b;
    } else {
      assert (a + b)[1..] == a[1..] + b;
      StreamAppend(a[1..], b, cursor, generation);
      ConcatAssociates(
        Shown(a[0], cursor, generation), Stream(a[1..], cursor, generation), Stream(b, cursor, generation));
    }
  }

  lemma {:induction false} StreamEmptyIff(frames: seq<FlowFrame>, cursor: nat, generation: nat)
    ensures Stream(frames, cursor, generation) == [] <==> forall frame <- frames :: !IsRelevant(frame, cursor, generation)
  {
    if frames != [] {
      StreamEmptyIff(frames[1..], cursor, generation);
      assert frames == [frames[0]] + frames[1..];
    }
  }

  /** The bounded history loses nothing exactly when no evicted frame was still unseen. */
  lemma NothingLostIff(frames: seq<FlowFrame>, cursor: nat, generation: nat)
    ensures Stream(LastN(frames), cursor, generation) == Stream(frames, cursor, generation)
      <==> forall frame <- Evicted(frames) :: !IsRelevant(frame, cursor, generation)
  {
    assert frames == Evicted(frames) + LastN(frames);
    StreamAppend(Evicted(frames), LastN(frames), cursor, generation);
    StreamEmptyIff(Evicted(frames), cursor, generation);
  }

  lemma {:induction false} StreamCursor(frames: seq<FlowFrame>, low: nat, high: nat, generation: nat)
    requires low <= high && forall i | 0 <= i < |frames| :: frames[i].revision > high
    ensures Stream(frames, low, generation) == Stream(frames, high, generation)
  {
    if frames != [] {
      StreamCursor(frames[1..], low, high, generation);
    }
  }

  /** A pass selects what the fold over the unseen frames selects. */
  lemma {:induction false} ScanIsFold<Q>(frames: seq<FlowFrame>, generation: nat, judge: Judge<Q>, wait: Wait<Q>)
    requires IsAscending(frames) && wait.selected.None?
    ensures Scan(frames, generation, judge, wait).selected
         == FirstHit(Stream(frames, wait.cursor, generation), judge, wait.state)
  {
    if frames != [] {
      var next := ScanOne(frames[0], generation, judge, wait);
      if !IsRelevant(frames[0], wait.cursor, generation) {
        assert Stream(frames, wait.cursor, generation) == Stream(frames[1..], wait.cursor, generation);
        ScanIsFold(frames[1..], generation, judge, wait);
      } else {
        StreamCursor(frames[1..], wait.cursor, frames[0].revision, generation);
        assert Stream(frames, wait.cursor, generation)[1..] == Stream(frames[1..], wait.cursor, generation);
        if next.selected.None? {
          ScanIsFold(frames[1..], generation, judge, next);
        } else {
          ScanKeepsSelected(frames[1..], generation, judge, next);
        }
      }
    }
  }

  lemma {:induction false} ScanAppend<Q>(a: seq<FlowFrame>, b: seq<FlowFrame>, generation: nat, judge: Judge<Q>, wait: Wait<Q>)
    ensures Scan(a + b, generation, judge, wait) == Scan(b, generation, judge, Scan(a, generation, judge, wait))
  {
    if a == [] {
      assert a + b == b;
    } else if wait.selected.None? {
      ScanAppend(a[1..], b, generation, judge, ScanOne(a[0], generation, judge, wait));
      assert (a + b)[1..] == a[1..] + b;
    }
  }

  /** Frames already seen, or of another connection, are passed over. */
  lemma {:induction false} ScanSkips<Q>(frames: seq<FlowFrame>, generation: nat, judge: Judge<Q>, wait: Wait<Q>)
    requires forall frame <- frames :: !IsRelevant(frame, wait.cursor, generation)
    ensures Scan(frames, generation, judge, wait) == wait
  {
    if frames != [] && wait.selected.None? {
      assert frames[0] in frames;
      ScanSkips(frames[1..], generation, judge, wait);
    }
  }

  /** After an indecisive pass nothing in it is unseen. */
  lemma {:induction false} ScanSeesAll<Q>(frames: seq<FlowFrame>, generation: nat, judge: Judge<Q>, wait: Wait<Q>)
    requires IsAscending(frames) && Scan(frames, generation, judge, wait).selected.None?
    ensures var after := Scan(frames, generation, judge, wait);
      after.cursor >= wait.cursor && forall frame <- frames :: !IsRelevant(frame, after.cursor, generation)
  {
    if frames != [] {
      ScanSeesAll(frames[1..], generation, judge, ScanOne(frames[0], generation, judge, wait));
      assert frames == [frames[0]] + frames[1..];
    }
  }

  lemma {:induction false} ScanKeepsSelected<Q>(frames: seq<FlowFrame>, generation: nat, judge: Judge<Q>, wait: Wait<Q>)
    requires wait.selected.Some?
    ensures Scan(frames, generation, judge, wait) == wait
  {
  }

  /** A wake-up schedule: how many frames the session had published at each wake-up. */
  predicate IsSchedule(counts: seq<nat>, published: nat) {
    && (forall i | 0 <= i < |counts| :: counts[i] <= published)
    && (forall i, j | 0 <= i < j < |counts| :: counts[i] <= counts[j])
  }

  /** The state of the wait after waking on this schedule; every wake-up sees only the retained history. */
  function AfterWakes<Q>(
      frames: seq<FlowFrame>, counts: seq<nat>, generation: nat, judge: Judge<Q>, wait: Wait<Q>): Wait<Q>
    requires IsSchedule(counts, |frames|)
    decreases |counts|
  {
    if counts == [] then wait
    else
      var last := |counts| - 1;
      Scan(LastN(frames[..counts[last]]), generation, judge, AfterWakes(frames, counts[..last], generation, judge, wait))
  }

  /** At every wake-up, no frame the wait had not seen was already evicted from the history. */
  ghost predicate NothingLost<Q>(
      frames: seq<FlowFrame>, counts: seq<nat>, generation: nat, judge: Judge<Q>, wait: Wait<Q>)
    requires IsSchedule(counts, |frames|)
    decreases |counts|
  {
    counts == [] ||
    var last := |counts| - 1;
    NothingLost(frames, counts[..last], generation, judge, wait)
    && forall frame <- Evicted(frames[..counts[last]]) ::
      !IsRelevant(frame, AfterWakes(frames, counts[..last], generation, judge, wait).cursor, generation)
  }

  /** One more wake-up over the retained history is a pass over everything published so far. */
  lemma WakeIsFullScan<Q>(seen: seq<FlowFrame>, generation: nat, judge: Judge<Q>, wait: Wait<Q>)
    requires forall frame <- Evicted(seen) :: !IsRelevant(frame, wait.cursor, generation)
    ensures Scan(LastN(seen), generation, judge, wait) == Scan(seen, generation, judge, wait)
  {
    hide Scan;
    ScanAppend(Evicted(seen), LastN(seen), generation, judge, wait);
    ScanSkips(Evicted(seen), generation, judge, wait);
    assert seen == Evicted(seen) + LastN(seen);
  }

  /** Scanning again from the start adds nothing but the frames published since. */
  lemma RescanResumes<Q>(before: seq<FlowFrame>, more: seq<FlowFrame>, generation: nat, judge: Judge<Q>, wait: Wait<Q>)
    requires IsAscending(before)
    ensures Scan(before + more, generation, judge, Scan(before, generation, judge, wait))
         == Scan(before + more, generation, judge, wait)
  {
    hide Scan;
    var earlier := Scan(before, generation, judge, wait);
    ScanAppend(before, more, generation, judge, earlier);
    ScanAppend(before, more, generation, judge, wait);
    if earlier.selected.None? {
      ScanSeesAll(before, generation, judge, wait);
      ScanSkips(before, generation, judge, earlier);
    } else {
      ScanKeepsSelected(before, generation, judge, earlier);
    }
  }

  lemma WakeStep<Q>(frames: seq<FlowFrame>, counts: seq<nat>, generation: nat, judge: Judge<Q>, wait: Wait<Q>)
    requires counts != [] && IsSchedule(counts, |frames|)
    requires NothingLost(frames, counts, generation, judge, wait)
    ensures IsSchedule(counts[..|counts| - 1], |frames|)
    ensures NothingLost(frames, counts[..|counts| - 1], generation, judge, wait)
    ensures AfterWakes(frames, counts, generation, judge, wait) == Scan(
      frames[..counts[|counts| - 1]], generation, judge,
      AfterWakes(frames, counts[..|counts| - 1], generation, judge, wait))
  {
    hide Scan;
    var last := |counts| - 1;
    WakeIsFullScan(frames[..counts[last]], generation, judge, AfterWakes(frames, counts[..last], generation, judge, wait));
  }

  /** Waking repeatedly is one pass over everything published up to the last wake-up. */
  lemma {:induction false} WakesAreOneScan<Q>(
      frames: seq<FlowFrame>, counts: seq<nat>, generation: nat, judge: Judge<Q>, wait: Wait<Q>)
    requires IsAscending(frames) && counts != [] && IsSchedule(counts, |frames|)
    requires NothingLost(frames, counts, generation, judge, wait)
    ensures AfterWakes(frames, counts, generation, judge, wait)
      == Scan(frames[..counts[|counts| - 1]], generation, judge, wait)
    decreases |counts|
  {
    hide Scan, NothingLost;
    WakeStep(frames, counts, generation, judge, wait);
    if |counts| > 1 {
      hide AfterWakes;
      var earlier := counts[..|counts| - 1];
      WakesAreOneScan(frames, earlier, generation, judge, wait);
      var seen, before := frames[..counts[|counts| - 1]], frames[..counts[|counts| - 2]];
      assert seen == before + seen[|before|..];
      RescanResumes(before, seen[|before|..], generation, judge, wait);
    }
  }

  /**
   Whatever the wake-up schedule, the wait returns the first decisive frame of the connection's frames after the
   starting revision: each is judged exactly once, in order.
   */
  lemma WaitIsFold<Q>(frames: seq<FlowFrame>, counts: seq<nat>, generation: nat, judge: Judge<Q>, after: nat, state: Q)
    requires IsAscending(frames) && counts != [] && IsSchedule(counts, |frames|)
    requires NothingLost(frames, counts, generation, judge, Wait(after, state, None))
    ensures AfterWakes(frames, counts, generation, judge, Wait(after, state, None)).selected
      == FirstHit(Stream(frames[..counts[|counts| - 1]], after, generation), judge, state)
  {
    hide Scan, AfterWakes, NothingLost, Stream, FirstHit;
    WakesAreOneScan(frames, counts, generation, judge, Wait(after, state, None));
    ScanIsFold(frames[..counts[|counts| - 1]], generation, judge, Wait(after, state, None));
  }

  /** Frames published later do not matter to the wake-ups before. */
  lemma {:induction false} WakesStay<Q>(
      frames: seq<FlowFrame>, later: seq<FlowFrame>, counts: seq<nat>, generation: nat, judge: Judge<Q>, wait: Wait<Q>)
    requires frames <= later && IsSchedule(counts, |frames|)
    ensures IsSchedule(counts, |later|)
    ensures AfterWakes(later, counts, generation, judge, wait) == AfterWakes(frames, counts, generation, judge, wait)
    decreases |counts|
  {
    hide Scan;
    if counts != [] {
      var last := |counts| - 1;
      WakesStay(frames, later, counts[..last], generation, judge, wait);
      assert later[..counts[last]] == frames[..counts[last]];
    }
  }

  lemma OneMoreWake<Q>(frames: seq<FlowFrame>, counts: seq<nat>, generation: nat, judge: Judge<Q>, wait: Wait<Q>)
    requires IsSchedule(counts, |frames|)
    ensures IsSchedule(counts + [|frames|], |frames|)
    ensures AfterWakes(frames, counts + [|frames|], generation, judge, wait)
      == Scan(LastN(frames), generation, judge, AfterWakes(frames, counts, generation, judge, wait))
  {
    hide Scan;
    var longer := counts + [|frames|];
    assert longer[..|counts|] == counts && frames[..|frames|] == frames;
  }

  lemma {:induction false} ScanMovesOn<Q>(frames: seq<FlowFrame>, generation: nat, judge: Judge<Q>, wait: Wait<Q>)
    ensures Scan(frames, generation, judge, wait).cursor >= wait.cursor
  {
    if frames != [] && wait.selected.None? {
      ScanMovesOn(frames[1..], generation, judge, ScanOne(frames[0], generation, judge, wait));
    }
  }

  lemma {:induction false} WakesMoveOn<Q>(
      frames: seq<FlowFrame>, counts: seq<nat>, generation: nat, judge: Judge<Q>, wait: Wait<Q>)
    requires IsSchedule(counts, |frames|)
    ensures AfterWakes(frames, counts, generation, judge, wait).cursor >= wait.cursor
    decreases |counts|
  {
    hide Scan;
    if counts != [] {
      var last := |counts| - 1;
      WakesMoveOn(frames, counts[..last], generation, judge, wait);
      ScanMovesOn(
        LastN(frames[..counts[last]]), generation, judge, AfterWakes(frames, counts[..last], generation, judge, wait));
    }
  }

  /** With no more frames since the cursor than the history holds, nothing is lost. */
  lemma {:induction false} FewFramesLoseNothing<Q>(
      frames: seq<FlowFrame>, counts: seq<nat>, generation: nat, judge: Judge<Q>, wait: Wait<Q>)
    requires IsSchedule(counts, |frames|) && forall i | 0 <= i < |frames| :: frames[i].revision == i + 1
    requires |frames| <= wait.cursor + FLOW_HISTORY_LIMIT
    ensures NothingLost(frames, counts, generation, judge, wait)
    decreases |counts|
  {
    hide Scan, AfterWakes;
    if counts != [] {
      var last := |counts| - 1;
      FewFramesLoseNothing(frames, counts[..last], generation, judge, wait);
      WakesMoveOn(frames, counts[..last], generation, judge, wait);
      forall frame <- Evicted(frames[..counts[last]])
        ensures !IsRelevant(frame, AfterWakes(frames, counts[..last], generation, judge, wait).cursor, generation)
      {
        var i :| 0 <= i < |Evicted(frames[..counts[last]])| && Evicted(frames[..counts[last]])[i] == frame;
        assert frame == frames[i] && i < counts[last] - FLOW_HISTORY_LIMIT;
      }
    }
  }

  // ---------------------------------------------------------------- the outcome wait

  function OutcomeJudge(target: Target, generation: nat): Judge<bool> {
    (started: bool, pointer: Option<FlowPointer>) => Decide(started, pointer, target, generation)
  }

  lemma {:induction false} FirstHitIsFirstDecisive(
      stream: seq<Option<FlowPointer>>, target: Target, generation: nat, started: bool)
    ensures
      var i := FirstDecisive(stream, started, target, generation);
      FirstHit(stream, OutcomeJudge(target, generation), started) == if i.Some? then Some(stream[i.value]) else None
  {
    hide Decide;
    if stream != [] {
      FirstHitIsFirstDecisive(stream[1..], target, generation, Decide(started, stream[0], target, generation).1);
    }
  }

  /** The outcome the executor records for a finished or timed-out wait. */
  function WaitOutcome(selected: Option<Option<FlowPointer>>, target: Target): Outcome {
    if selected.None? then Unknown else Classify(selected.value, target)
  }

  /** The executed wait and the pure outcome of the post-acknowledgement stream agree. */
  lemma OutcomeOfWait(frames: seq<FlowFrame>, counts: seq<nat>, generation: nat, ack: nat, target: Target)
    requires IsAscending(frames) && counts != [] && IsSchedule(counts, |frames|)
    requires NothingLost(frames, counts, generation, OutcomeJudge(target, generation), Wait(ack, false, None))
    ensures
      var wait := AfterWakes(frames, counts, generation, OutcomeJudge(target, generation), Wait(ack, false, None));
      WaitOutcome(wait.selected, target)
        == AttemptOutcome(Stream(frames[..counts[|counts| - 1]], ack, generation), target, generation)
  {
    hide AfterWakes, NothingLost, Stream, FirstHit, FirstDecisive, Classify, OutcomeJudge;
    WaitIsFold(frames, counts, generation, OutcomeJudge(target, generation), ack, false);
    FirstHitIsFirstDecisive(Stream(frames[..counts[|counts| - 1]], ack, generation), target, generation, false);
  }
}
