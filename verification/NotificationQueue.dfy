/** Coalescing failure notifications (`notify_failure` and `_process_notified` in `recovery_executor.py`). */
module NotificationQueue {
  import opened Text
  import opened Json
  import opened Contracts

  const MAX_PENDING_FAILURES: nat := 512

  datatype Phase = Queued | Running

  /** A `_process_notified` task. */
  datatype Job = Job(id: string, phase: Phase)

  datatype Effect = Enqueued | Coalesced | Ignored

  datatype Entry = Notified(id: string, effect: Effect) | Started(id: string) | Ended(id: string) | Stopped

  datatype Queue = Queue(
    enabled: bool, stopped: bool, pending: set<string>, dirty: set<string>, jobs: map<nat, Job>, created: nat,
    log: seq<Entry>)

  datatype Event = Notify(failureId: string) | Begin(job: nat) | Finish(job: nat) | Stop

  function Empty(enabled: bool): Queue {
    Queue(enabled, false, {}, {}, map[], 0, [])
  }

  /** `notify_failure` */
  function Accept(q: Queue, failureId: string): Queue {
    var canonical := UuidText(Str(failureId));
    if !q.enabled || q.stopped || canonical.None? then q
    else
      var id := canonical.value;
      if id in q.pending then q.(dirty := q.dirty + {id}, log := q.log + [Notified(id, Coalesced)])
      else if |q.pending| >= MAX_PENDING_FAILURES then q.(log := q.log + [Notified(id, Ignored)])
      else
        q.(pending := q.pending + {id}, jobs := q.jobs[q.created := Job(id, Queued)], created := q.created + 1,
           log := q.log + [Notified(id, Enqueued)])
  }

  function Freed(q: Queue, job: nat): Queue
    requires job in q.jobs
  {
    var id := q.jobs[job].id;
    q.(pending := q.pending - {id}, dirty := q.dirty - {id}, jobs := q.jobs - {job}, log := q.log + [Ended(id)])
  }

  /** The `finally` block of `_process_notified`. */
  function FinishJob(q: Queue, job: nat): Queue
    requires job in q.jobs
  {
    var id := q.jobs[job].id;
    if id in q.dirty && !q.stopped then Accept(Freed(q, job), id) else Freed(q, job)
  }

  predicate Enabled(q: Queue, e: Event) {
    match e
    case Begin(job) => job in q.jobs && q.jobs[job].phase.Queued?
    case Finish(job) => job in q.jobs && q.jobs[job].phase.Running?
    case _ => true
  }

  function Apply(q: Queue, e: Event): Queue
    requires Enabled(q, e)
  {
    match e
    case Notify(failureId) => Accept(q, failureId)
    case Begin(job) =>
      var id := q.jobs[job].id;
      q.(jobs := q.jobs[job := Job(id, Running)], log := q.log + [Started(id)])
    case Finish(job) => FinishJob(q, job)
    case Stop => q.(stopped := true, log := q.log + [Stopped])
  }

  /** A running service takes a notification, and only under an identifier; it starts a job, joins the one there is, or is full. */
  lemma AcceptIff(q: Queue, failureId: string, id: string)
    requires UuidText(Str(failureId)) == Some(id)
    ensures
      var after := Accept(q, failureId);
      && (after != q <==> q.enabled && !q.stopped)
      && (after.jobs != q.jobs || after.created != q.created <==>
            q.enabled && !q.stopped && id !in q.pending && |q.pending| < 512)
      && (after.log == q.log + [Notified(id, Coalesced)] <==> q.enabled && !q.stopped && id in q.pending)
      && (after.log == q.log + [Notified(id, Ignored)] <==> q.enabled && !q.stopped && id !in q.pending && |q.pending| >= 512)
  {
    hide UuidText;
    assert Accept(q, failureId).log == q.log || |Accept(q, failureId).log| == |q.log| + 1;
    assert |Accept(q, failureId).log| == |q.log| + 1 ==> Accept(q, failureId).log[|q.log|].Notified?;
  }

  // ---------------------------------------------------------------- invariants

  /** At most one live job per id, and only for pending ids. */
  predicate JobsOk(jobs: map<nat, Job>, pending: set<string>, created: nat) {
    && (forall j <- jobs :: j < created && jobs[j].id in pending)
    && (forall j, k | j in jobs && k in jobs && jobs[j].id == jobs[k].id :: j == k)
  }

  /** Every pending id is canonical and has a live job. */
  predicate AllServed(jobs: map<nat, Job>, pending: set<string>) {
    forall id <- pending :: IsUuid(id) && exists j :: j in jobs && jobs[j].id == id
  }

  /** At every await point: one live job per pending id, dirty ids pending, the cap respected. */
  predicate Coherent(q: Queue) {
    && JobsOk(q.jobs, q.pending, q.created) && AllServed(q.jobs, q.pending)
    && q.dirty <= q.pending
    && |q.pending| <= MAX_PENDING_FAILURES
  }

  lemma AddJob(jobs: map<nat, Job>, pending: set<string>, created: nat, id: string)
    requires JobsOk(jobs, pending, created) && AllServed(jobs, pending) && id !in pending && IsUuid(id)
    ensures JobsOk(jobs[created := Job(id, Queued)], pending + {id}, created + 1)
    ensures AllServed(jobs[created := Job(id, Queued)], pending + {id})
  {
    hide IsUuid;
    var more := jobs[created := Job(id, Queued)];
    forall other <- pending + {id} ensures IsUuid(other) && exists j :: j in more && more[j].id == other {
      if other == id {
        assert created in more && more[created].id == id;
      } else {
        var j :| j in jobs && jobs[j].id == other;
        assert j in more && more[j].id == other;
      }
    }
  }

  lemma DropJob(jobs: map<nat, Job>, pending: set<string>, created: nat, job: nat)
    requires JobsOk(jobs, pending, created) && AllServed(jobs, pending) && job in jobs
    ensures JobsOk(jobs - {job}, pending - {jobs[job].id}, created)
    ensures AllServed(jobs - {job}, pending - {jobs[job].id})
  {
    hide IsUuid;
    var fewer := jobs - {job};
    forall other <- pending - {jobs[job].id} ensures IsUuid(other) && exists j :: j in fewer && fewer[j].id == other {
      var j :| j in jobs && jobs[j].id == other;
      assert j in fewer && fewer[j].id == other;
    }
  }

  lemma MarkJob(jobs: map<nat, Job>, pending: set<string>, created: nat, job: nat, phase: Phase)
    requires JobsOk(jobs, pending, created) && AllServed(jobs, pending) && job in jobs
    ensures JobsOk(jobs[job := jobs[job].(phase := phase)], pending, created)
    ensures AllServed(jobs[job := jobs[job].(phase := phase)], pending)
  {
    hide IsUuid;
    var marked := jobs[job := jobs[job].(phase := phase)];
    forall other <- pending ensures IsUuid(other) && exists j :: j in marked && marked[j].id == other {
      var j :| j in jobs && jobs[j].id == other;
      assert j in marked && marked[j].id == other;
    }
  }

  predicate HasStartAfter(log: seq<Entry>, i: nat, id: string) {
    exists j | i < j < |log| :: log[j] == Started(id)
  }

  /** A job for this id is waiting to start, or the running one will be replayed. */
  predicate IsOwed(q: Queue, id: string) {
    id in q.dirty || exists j :: j in q.jobs && q.jobs[j] == Job(id, Queued)
  }

  predicate IsAccepted(e: Entry) {
    e.Notified? && !e.effect.Ignored?
  }

  /** Every accepted notification has been followed by a start, or is still owed one. */
  predicate NothingLost(q: Queue) {
    forall i | 0 <= i < |q.log| && IsAccepted(q.log[i]) :: HasStartAfter(q.log, i, q.log[i].id) || IsOwed(q, q.log[i].id)
  }

  predicate Invariant(q: Queue) {
    Coherent(q) && (!q.stopped ==> NothingLost(q))
  }

  lemma StartStays(log: seq<Entry>, more: seq<Entry>, i: nat, id: string)
    requires HasStartAfter(log, i, id)
    ensures HasStartAfter(log + more, i, id)
  {
    var j :| i < j < |log| && log[j] == Started(id);
    assert (log + more)[j] == Started(id);
  }

  lemma NotifyCoherent(q: Queue, failureId: string)
    requires Coherent(q)
    ensures Coherent(Accept(q, failureId))
  {
    hide IsUuid, UuidText, JobsOk, AllServed;
    var canonical := UuidText(Str(failureId));
    if canonical.Some? && canonical.value !in q.pending {
      AddJob(q.jobs, q.pending, q.created, canonical.value);
    }
  }

  lemma OwedStays(q: Queue, failureId: string, id: string)
    requires Coherent(q) && IsOwed(q, id)
    ensures IsOwed(Accept(q, failureId), id)
  {
    hide IsUuid, UuidText;
    var after := Accept(q, failureId);
    if id !in q.dirty {
      var j :| j in q.jobs && q.jobs[j] == Job(id, Queued);
      assert j in after.jobs && after.jobs[j] == Job(id, Queued);
    }
  }

  lemma NotifyOwes(q: Queue, failureId: string)
    requires Coherent(q)
    ensures
      var after := Accept(q, failureId);
      |after.log| >= |q.log| && after.log[..|q.log|] == q.log
      && forall i | |q.log| <= i < |after.log| && IsAccepted(after.log[i]) :: IsOwed(after, after.log[i].id)
  {
    hide IsUuid, UuidText;
    var after := Accept(q, failureId);
    if q.created in after.jobs {
      assert after.jobs[q.created].phase.Queued?;
    }
  }

  lemma NotifyKeeps(q: Queue, failureId: string)
    requires Coherent(q) && NothingLost(q)
    ensures NothingLost(Accept(q, failureId))
  {
    hide Coherent, IsOwed, HasStartAfter, Accept;
    var after := Accept(q, failureId);
    NotifyOwes(q, failureId);
    forall i | 0 <= i < |after.log| && IsAccepted(after.log[i])
      ensures HasStartAfter(after.log, i, after.log[i].id) || IsOwed(after, after.log[i].id)
    {
      if i < |q.log| {
        assert after.log[i] == after.log[..|q.log|][i];
        if HasStartAfter(q.log, i, q.log[i].id) {
          StartStays(q.log, after.log[|q.log|..], i, q.log[i].id);
          assert q.log + after.log[|q.log|..] == after.log;
        } else {
          OwedStays(q, failureId, q.log[i].id);
        }
      }
    }
  }

  lemma BeginKeeps(q: Queue, job: nat)
    requires Invariant(q) && Enabled(q, Begin(job))
    ensures Invariant(Apply(q, Begin(job)))
  {
    hide IsUuid, JobsOk, AllServed;
    var after, started := Apply(q, Begin(job)), q.jobs[job].id;
    MarkJob(q.jobs, q.pending, q.created, job, Running);
    if !q.stopped {
      forall i | 0 <= i < |after.log| && IsAccepted(after.log[i])
        ensures HasStartAfter(after.log, i, after.log[i].id) || IsOwed(after, after.log[i].id)
      {
        var id := after.log[i].id;
        assert after.log[i] == q.log[i];
        if id == started {
          assert after.log[|q.log|] == Started(id);
        } else if HasStartAfter(q.log, i, id) {
          StartStays(q.log, [Started(started)], i, id);
        } else if id !in q.dirty {
          var j :| j in q.jobs && q.jobs[j] == Job(id, Queued);
          assert j in after.jobs && after.jobs[j] == Job(id, Queued);
        }
      }
    }
  }

  lemma FreedCoherent(q: Queue, job: nat)
    requires Coherent(q) && job in q.jobs
    ensures Coherent(Freed(q, job))
    ensures |Freed(q, job).pending| < MAX_PENDING_FAILURES
  {
    hide IsUuid, JobsOk, AllServed;
    assert q.jobs[job].id in q.pending by { JobIsPending(q, job); }
    DropJob(q.jobs, q.pending, q.created, job);
    assert q.pending == Freed(q, job).pending + {q.jobs[job].id};
  }

  lemma JobIsPending(q: Queue, job: nat)
    requires Coherent(q) && job in q.jobs
    ensures q.jobs[job].id in q.pending
  {
    hide AllServed;
  }

  /** A replay is never turned away by the cap: the finished job has just made room for it. */
  lemma ReplayIsEnqueued(q: Queue, job: nat)
    requires Coherent(q) && job in q.jobs && q.jobs[job].id in q.dirty && !q.stopped && q.enabled
    ensures
      var id, after := q.jobs[job].id, FinishJob(q, job);
      after.log == q.log + [Ended(id), Notified(id, Enqueued)] && id in after.pending && IsOwed(after, id)
  {
    var id, freed := q.jobs[job].id, Freed(q, job);
    hide IsUuid, UuidText, JobsOk;
    FreedCoherent(q, job);
    JobIsPending(q, job);
    UuidTextIdentity(id);
    hide AllServed;
    var after := FinishJob(q, job);
    assert q.created in after.jobs && after.jobs[q.created] == Job(id, Queued);
    assert q.log + [Ended(id)] + [Notified(id, Enqueued)] == q.log + [Ended(id), Notified(id, Enqueued)];
  }

  lemma FreedOwes(q: Queue, job: nat, id: string)
    requires Coherent(q) && job in q.jobs && q.jobs[job].phase.Running? && IsOwed(q, id) && id != q.jobs[job].id
    ensures IsOwed(Freed(q, job), id)
  {
    hide IsUuid;
    if id !in q.dirty {
      var j :| j in q.jobs && q.jobs[j] == Job(id, Queued);
      assert j in Freed(q, job).jobs && Freed(q, job).jobs[j] == Job(id, Queued);
    }
  }

  /** The obligations of the finished job itself are exactly those the dirty mark remembers. */
  lemma OwedByRunningIsDirty(q: Queue, job: nat)
    requires Coherent(q) && job in q.jobs && q.jobs[job].phase.Running? && IsOwed(q, q.jobs[job].id)
    ensures q.jobs[job].id in q.dirty
  {
    hide IsUuid;
  }

  lemma FinishKeepsPromises(q: Queue, job: nat)
    requires Coherent(q) && NothingLost(q) && !q.stopped && q.enabled && job in q.jobs && q.jobs[job].phase.Running?
    ensures NothingLost(FinishJob(q, job))
  {
    hide Coherent, IsOwed, HasStartAfter, Accept;
    var id, freed, after := q.jobs[job].id, Freed(q, job), FinishJob(q, job);
    FreedCoherent(q, job);
    if id in q.dirty {
      ReplayIsEnqueued(q, job);
    }
    forall i | 0 <= i < |after.log| && IsAccepted(after.log[i])
      ensures HasStartAfter(after.log, i, after.log[i].id) || IsOwed(after, after.log[i].id)
    {
      if i < |q.log| {
        var more := if id in q.dirty then [Ended(id), Notified(id, Enqueued)] else [Ended(id)];
        assert after.log == q.log + more && after.log[i] == q.log[i];
        if HasStartAfter(q.log, i, q.log[i].id) {
          StartStays(q.log, more, i, q.log[i].id);
        } else if q.log[i].id == id {
          OwedByRunningIsDirty(q, job);
        } else {
          FreedOwes(q, job, q.log[i].id);
          OwedStays(freed, id, q.log[i].id);
        }
      }
    }
  }

  lemma FinishKeeps(q: Queue, job: nat)
    requires Invariant(q) && q.enabled && Enabled(q, Finish(job))
    ensures Invariant(Apply(q, Finish(job)))
  {
    hide Coherent, NothingLost;
    FreedCoherent(q, job);
    NotifyCoherent(Freed(q, job), q.jobs[job].id);
    if !q.stopped {
      FinishKeepsPromises(q, job);
    }
  }

  lemma InvariantKept(q: Queue, e: Event)
    requires Invariant(q) && q.enabled && Enabled(q, e)
    ensures Invariant(Apply(q, e)) && Apply(q, e).enabled
  {
    hide Coherent, NothingLost, UuidText;
    match e
    case Notify(failureId) =>
      NotifyCoherent(q, failureId);
      if !q.stopped {
        NotifyKeeps(q, failureId);
      }
    case Begin(job) => BeginKeeps(q, job);
    case Finish(job) => FinishKeeps(q, job);
    case Stop => StopCoherent(q);
  }

  lemma StopCoherent(q: Queue)
    requires Coherent(q)
    ensures Coherent(q.(stopped := true, log := q.log + [Stopped]))
  {
    hide JobsOk, AllServed;
  }

  predicate IsRun(q: Queue, events: seq<Event>)
    decreases |events|
  {
    events == [] || (Enabled(q, events[0]) && IsRun(Apply(q, events[0]), events[1..]))
  }

  function ApplyAll(q: Queue, events: seq<Event>): Queue
    requires IsRun(q, events)
    decreases |events|
  {
    if events == [] then q else ApplyAll(Apply(q, events[0]), events[1..])
  }

  lemma {:induction false} RunInvariant(q: Queue, events: seq<Event>)
    requires Invariant(q) && q.enabled && IsRun(q, events)
    ensures Invariant(ApplyAll(q, events))
    decreases |events|
  {
    hide Invariant, Apply, Enabled;
    if events != [] {
      InvariantKept(q, events[0]);
      RunInvariant(Apply(q, events[0]), events[1..]);
    }
  }

  /**
   Whenever no job is live and the service was not stopped, every notification that was enqueued or coalesced has been
   followed by a processing that started after it.
   */
  lemma QuietMeansProcessed(events: seq<Event>, i: nat)
    requires IsRun(Empty(true), events)
    requires
      var q := ApplyAll(Empty(true), events);
      !q.stopped && q.jobs == map[] && i < |q.log| && IsAccepted(q.log[i])
    ensures var q := ApplyAll(Empty(true), events);
      HasStartAfter(q.log, i, q.log[i].id)
  {
    assert Invariant(Empty(true));
    RunInvariant(Empty(true), events);
    hide ApplyAll, IsRun, HasStartAfter, IsUuid;
    var q := ApplyAll(Empty(true), events);
    assert AllServed(q.jobs, q.pending);
  }

  // ---------------------------------------------------------------- the live object

  class Coordinator {
    const enabled: bool
    var stopped: bool
    var pending: set<string>
    var dirty: set<string>
    var jobs: map<nat, Job>
    var created: nat
    ghost var log: seq<Entry>

    ghost function Abs(): Queue
      reads this
    {
      Queue(enabled, stopped, pending, dirty, jobs, created, log)
    }

    constructor (enabled: bool)
      ensures Abs() == Empty(enabled)
    {
      this.enabled, stopped, pending, dirty, jobs, created, log := enabled, false, {}, {}, map[], 0, [];
    }

    method NotifyFailure(failureId: string)
      requires Coherent(Abs())
      modifies this
      ensures Abs() == Accept(old(Abs()), failureId) && Coherent(Abs())
    {
      hide Coherent, UuidText;
      NotifyCoherent(Abs(), failureId);
      if !enabled || stopped {
        return;
      }
      var canonical := UuidText(Str(failureId));
      if canonical.None? {
        return;
      }
      var id := canonical.value;
      if id in pending {
        dirty := dirty + {id};
        log := log + [Notified(id, Coalesced)];
        return;
      }
      if |pending| >= MAX_PENDING_FAILURES {
        log := log + [Notified(id, Ignored)];
        return;
      }
      pending := pending + {id};
      jobs := jobs[created := Job(id, Queued)];
      created := created + 1;
      log := log + [Notified(id, Enqueued)];
    }

    /** The end of a job, whatever `process_failure` did. */
    method FinishProcessing(job: nat)
      requires Coherent(Abs()) && job in jobs
      modifies this
      ensures Abs() == FinishJob(old(Abs()), job) && Coherent(Abs())
    {
      hide Coherent, Accept;
      FreedCoherent(Abs(), job);
      var id := jobs[job].id;
      jobs := jobs - {job};
      pending := pending - {id};
      var replay := id in dirty;
      dirty := dirty - {id};
      log := log + [Ended(id)];
      if replay && !stopped {
        NotifyFailure(id);
      }
    }
  }
}
