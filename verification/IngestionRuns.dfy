/**
 Whole runs of the workers in `Ingestion`: who holds a claim, what an acknowledgement means, and the runs in which
 either goes wrong.
 */
module IngestionRuns {
  import opened Text
  import opened GitMemory
  import opened Ingestion
  import opened IngestionDurability

  predicate IsRun(s: State, steps: seq<Step>)
    decreases |steps|
  {
    steps == [] || (Enabled(s, steps[0]) && IsRun(Apply(s, steps[0]), steps[1..]))
  }

  function ApplyAll(s: State, steps: seq<Step>): State
    requires IsRun(s, steps)
    decreases |steps|
  {
    if steps == [] then s else ApplyAll(Apply(s, steps[0]), steps[1..])
  }

  /** A run in which no resolution is made pending while a worker that claimed it still runs. */
  predicate IsOrderlyRun(s: State, steps: seq<Step>)
    requires IsRun(s, steps)
    decreases |steps|
  {
    steps == [] || (IsOrderly(s, steps[0]) && IsOrderlyRun(Apply(s, steps[0]), steps[1..]))
  }

  /** A run in which both shortcuts are taken with care. */
  predicate IsCarefulRun(s: State, steps: seq<Step>)
    requires IsRun(s, steps)
    decreases |steps|
  {
    steps == [] || (IsCareful(s, steps[0]) && IsCarefulRun(Apply(s, steps[0]), steps[1..]))
  }

  /** Nobody has started, and the row records a commit of the branch if any. */
  predicate IsInitial(s: State) {
    && s.workers == map[] && s.caches == map[] && s.acks == {}
    && (s.row.commit.Some? ==> HasCommit(s.remote, MemoryPath(s.row.resolution), s.row.commit.value))
  }

  // ---------------------------------------------------------------- what every run keeps

  lemma {:induction false} RunKeepsExclusive(s: State, steps: seq<Step>)
    requires IsExclusive(s) && IsRun(s, steps) && IsOrderlyRun(s, steps)
    ensures IsExclusive(ApplyAll(s, steps))
    decreases |steps|
  {
    hide IsExclusive, Apply, Enabled, IsOrderly;
    if steps != [] {
      ExclusiveKept(s, steps[0]);
      RunKeepsExclusive(Apply(s, steps[0]), steps[1..]);
    }
  }

  lemma {:induction false} RunKeepsRecorded(s: State, steps: seq<Step>)
    requires IsRecorded(s) && IsRun(s, steps)
    ensures IsRecorded(ApplyAll(s, steps))
    decreases |steps|
  {
    hide IsRecorded, Apply, Enabled;
    if steps != [] {
      RecordedKept(s, steps[0]);
      RunKeepsRecorded(Apply(s, steps[0]), steps[1..]);
    }
  }

  lemma {:induction false} RunKeepsFresh(s: State, steps: seq<Step>)
    requires IsFresh(s) && IsRun(s, steps) && IsCarefulRun(s, steps)
    ensures IsFresh(ApplyAll(s, steps))
    decreases |steps|
  {
    hide IsFresh, Apply, Enabled, IsCareful;
    if steps != [] {
      FreshKept(s, steps[0]);
      RunKeepsFresh(Apply(s, steps[0]), steps[1..]);
    }
  }

  lemma {:induction false} RunKeepsDiligent(s: State, steps: seq<Step>)
    requires AreDiligent(s) && IsRun(s, steps)
    ensures AreDiligent(ApplyAll(s, steps))
    decreases |steps|
  {
    hide AreDiligent, Apply, Enabled;
    if steps != [] {
      DiligentKept(s, steps[0]);
      RunKeepsDiligent(Apply(s, steps[0]), steps[1..]);
    }
  }

  /**
   In every run, a worker goes on only after it saw the row free, or settled, for its resolution, never while it saw it
   being ingested; and what it replaces is a commit that it saw on an ingested row.
   */
  lemma EveryWorkerIsDiligent(s: State, steps: seq<Step>, w: nat)
    requires IsInitial(s) && IsRun(s, steps) && w in ApplyAll(s, steps).workers
    ensures IsDiligent(ApplyAll(s, steps).workers[w])
  {
    hide IsDiligent;
    RunKeepsDiligent(s, steps);
  }

  /** Two workers never hold a claim on one resolution at the same time. */
  lemma EveryOrderlyRunIsExclusive(s: State, steps: seq<Step>, w: nat, v: nat)
    requires IsInitial(s) && IsRun(s, steps) && IsOrderlyRun(s, steps)
    ensures
      var after := ApplyAll(s, steps).workers;
      w in after && v in after && IsClaimed(after[w]) && IsClaimed(after[v]) && after[w].resolution == after[v].resolution
      ==> w == v
  {
    RunKeepsExclusive(s, steps);
    hide ApplyAll, IsRun, IsOrderlyRun, IsClaimed;
  }

  /** A commit on record is on the remote branch and touches the document, in every run. */
  lemma EveryRecordedCommitIsDurable(s: State, steps: seq<Step>)
    requires IsInitial(s) && IsRun(s, steps)
    ensures
      var after := ApplyAll(s, steps);
      after.row.commit.Some? ==> HasCommit(after.remote, MemoryPath(after.row.resolution), after.row.commit.value)
  {
    hide HasCommit, MemoryPath;
    RunKeepsRecorded(s, steps);
  }

  /** Every acknowledged version of a document is on the remote branch. */
  lemma EveryCarefulAckIsDurable(s: State, steps: seq<Step>, a: Ack)
    requires IsInitial(s) && IsRun(s, steps) && IsCarefulRun(s, steps) && a in ApplyAll(s, steps).acks
    ensures Holds(ApplyAll(s, steps).remote, MemoryPath(a.resolution), a.hash)
  {
    hide Holds, MemoryPath;
    RunKeepsFresh(s, steps);
  }

  /** Once a resolution is ingested, only a refresh of its commit or a new pending resolution touches the row. */
  lemma {:induction false} IngestedStays(s: State, steps: seq<Step>)
    requires IsRun(s, steps) && s.row.status.Ingested?
    requires forall i | 0 <= i < |steps| :: !steps[i].MakePending?
    ensures
      var after := ApplyAll(s, steps).row;
      after.status.Ingested? && after.resolution == s.row.resolution
    decreases |steps|
  {
    hide Apply, Enabled;
    if steps != [] {
      OnlyTheseMoves(s, steps[0]);
      IngestedStays(Apply(s, steps[0]), steps[1..]);
    }
  }

  // ---------------------------------------------------------------- putting runs together

  /** `steps` is a run that leads from one state to the other. */
  predicate Leads(s: State, steps: seq<Step>, t: State) {
    IsRun(s, steps) && ApplyAll(s, steps) == t
  }

  lemma {:induction false} LeadsOn(s: State, a: seq<Step>, t: State, b: seq<Step>, u: State)
    requires Leads(s, a, t) && Leads(t, b, u)
    ensures Leads(s, a + b, u)
    decreases |a|
  {
    hide Enabled, Apply;
    if a == [] {
      assert a + b == b;
    } else {
      assert (a + b)[1..] == a[1..] + b;
      LeadsOn(Apply(s, a[0]), a[1..], t, b, u);
    }
  }

  lemma StepLeads(s: State, e: Step, t: State)
    requires Enabled(s, e) && Apply(s, e) == t
    ensures Leads(s, [e], t)
  {
    hide Enabled, Apply;
    assert [e][1..] == [] && IsRun(t, []) && ApplyAll(t, []) == t;
  }

  // ---------------------------------------------------------------- runs that break exclusion

  function Claimed(s: State, x: Worker, w: nat): State {
    s.(row := Row(Ingesting, x.resolution, None),
       workers := s.workers[w := x.(phase := Busy(true, s.row, Looking))])
  }

  function ClaimSteps(w: nat, x: Worker): seq<Step> {
    [Start(w, x.process, x.checkout, x.resolution, x.hash), Fetch(w), Claim(w, Answered)]
  }

  /** A claimable row is there for the first worker that comes. */
  lemma ClaimLeads(s: State, x: Worker, w: nat)
    requires w !in s.workers && IsClaimable(s.row, x.resolution)
    ensures Leads(s, ClaimSteps(w, x), Claimed(s, x, w))
  {
    hide IsRun, ApplyAll, Leads;
    var a := Apply(s, Start(w, x.process, x.checkout, x.resolution, x.hash));
    var b := Apply(a, Fetch(w));
    StepLeads(s, Start(w, x.process, x.checkout, x.resolution, x.hash), a);
    StepLeads(a, Fetch(w), b);
    assert b.workers[w].phase == Deciding(s.row);
    var c := Apply(b, Claim(w, Answered));
    assert c == Claimed(s, x, w) by {
      assert c.workers == Claimed(s, x, w).workers;
    }
    StepLeads(b, Claim(w, Answered), c);
    LeadsOn(s, [Start(w, x.process, x.checkout, x.resolution, x.hash)], a, [Fetch(w)], b);
    LeadsOn(s, [Start(w, x.process, x.checkout, x.resolution, x.hash)] + [Fetch(w)], b, [Claim(w, Answered)], c);
    assert [Start(w, x.process, x.checkout, x.resolution, x.hash)] + [Fetch(w)] + [Claim(w, Answered)] == ClaimSteps(w, x);
  }

  /** Working on a resolution it claimed, not just about to mark it as failed. */
  predicate IsWorking(s: State, w: nat, resolution: string) {
    w in s.workers && s.workers[w].phase.Busy? && s.workers[w].phase.claimed && s.workers[w].resolution == resolution
  }

  /** One new worker claims, the late failure mark of the old one hits its claim, and another new worker claims. */
  function LateMark(v: nat, x: Worker, w: nat, u: nat): seq<Step> {
    [MakePending(x.resolution)] + ClaimSteps(w, x) + [MarkFailed(v, Answered)] + ClaimSteps(u, x)
  }

  /**
   The condition is needed. If a resolution is made pending while a worker that claimed it still runs, exclusion is
   lost as soon as somebody claims it; and if the old worker is about to mark it as failed, a third one can join.
   */
  lemma ResetUnderHolderBreaksExclusion(s: State, v: nat, x: Worker, w: nat)
    requires v in s.workers && IsClaimed(s.workers[v]) && s.workers[v].resolution == x.resolution && w !in s.workers
    ensures
      var steps := [MakePending(x.resolution)] + ClaimSteps(w, x);
      IsRun(s, steps) && !IsExclusive(ApplyAll(s, steps))
  {
    hide IsRun, ApplyAll, ClaimSteps;
    var reset := Apply(s, MakePending(x.resolution));
    StepLeads(s, MakePending(x.resolution), reset);
    ClaimLeads(reset, x, w);
    LeadsOn(s, [MakePending(x.resolution)], reset, ClaimSteps(w, x), Claimed(reset, x, w));
    assert IsClaimed(Claimed(reset, x, w).workers[w]) && Claimed(reset, x, w).workers[v] == s.workers[v];
  }

  lemma LateMarkBreaksExclusion(s: State, v: nat, x: Worker, w: nat, u: nat)
    requires v in s.workers && s.workers[v].phase.Failing? && s.workers[v].resolution == x.resolution
    requires w !in s.workers && u !in s.workers && w != u
    ensures
      && IsRun(s, LateMark(v, x, w, u))
      && IsWorking(ApplyAll(s, LateMark(v, x, w, u)), w, x.resolution)
      && IsWorking(ApplyAll(s, LateMark(v, x, w, u)), u, x.resolution)
  {
    hide IsRun, ApplyAll, ClaimSteps, Leads, Claimed;
    var reset := Apply(s, MakePending(x.resolution));
    StepLeads(s, MakePending(x.resolution), reset);
    ClaimLeads(reset, x, w);
    var a := Claimed(reset, x, w);
    LeadsOn(s, [MakePending(x.resolution)], reset, ClaimSteps(w, x), a);
    ClaimedOnly(reset, x, w);
    var b := Apply(a, MarkFailed(v, Answered));
    StepLeads(a, MarkFailed(v, Answered), b);
    LeadsOn(s, [MakePending(x.resolution)] + ClaimSteps(w, x), a, [MarkFailed(v, Answered)], b);
    ClaimLeads(b, x, u);
    LeadsOn(s, [MakePending(x.resolution)] + ClaimSteps(w, x) + [MarkFailed(v, Answered)], b, ClaimSteps(u, x), Claimed(b, x, u));
    ClaimedOnly(b, x, u);
    assert Leads(s, LateMark(v, x, w, u), Claimed(b, x, u));
    LeadsUnfolds(s, LateMark(v, x, w, u), Claimed(b, x, u));
  }

  lemma ClaimedOnly(s: State, x: Worker, w: nat)
    ensures Claimed(s, x, w).row == Row(Ingesting, x.resolution, None)
    ensures w in Claimed(s, x, w).workers && IsWorking(Claimed(s, x, w), w, x.resolution)
    ensures forall v <- s.workers | v != w :: v in Claimed(s, x, w).workers && Claimed(s, x, w).workers[v] == s.workers[v]
    ensures forall v <- Claimed(s, x, w).workers :: v == w || v in s.workers
  {
  }

  lemma LeadsUnfolds(s: State, steps: seq<Step>, t: State)
    requires Leads(s, steps, t)
    ensures IsRun(s, steps) && ApplyAll(s, steps) == t
  {
  }

  /**
   It does not help to make rows pending only when they are not being ingested. If the answer to an acknowledgement is
   lost, the row is ingested while the worker goes on to mark it as failed; two others then work on the resolution.
   */
  lemma LostAnswerBreaksExclusion(s: State, v: nat, x: Worker, w: nat, u: nat)
    requires IsExclusive(s) && IsAcknowledging(s, v) && IsClaimed(s.workers[v]) && s.workers[v].resolution == x.resolution
    requires s.row.resolution == x.resolution
    requires w !in s.workers && u !in s.workers && w != u
    ensures
      var steps := [MarkIngested(v, AnswerLost)] + LateMark(v, x, w, u);
      && Enabled(s, MarkIngested(v, AnswerLost)) && Apply(s, MarkIngested(v, AnswerLost)).row.status.Ingested?
      && IsRun(s, steps) && IsWorking(ApplyAll(s, steps), w, x.resolution) && IsWorking(ApplyAll(s, steps), u, x.resolution)
  {
    hide IsRun, ApplyAll, LateMark, Leads, IsWorking;
    var lost := Apply(s, MarkIngested(v, AnswerLost));
    StepLeads(s, MarkIngested(v, AnswerLost), lost);
    LateMarkBreaksExclusion(lost, v, x, w, u);
    LeadsFolds(lost, LateMark(v, x, w, u));
    LeadsOn(s, [MarkIngested(v, AnswerLost)], lost, LateMark(v, x, w, u), ApplyAll(lost, LateMark(v, x, w, u)));
    LeadsUnfolds(s, [MarkIngested(v, AnswerLost)] + LateMark(v, x, w, u), ApplyAll(lost, LateMark(v, x, w, u)));
  }

  lemma LeadsFolds(s: State, steps: seq<Step>)
    requires IsRun(s, steps)
    ensures Leads(s, steps, ApplyAll(s, steps))
  {
  }
}
