/**
 Learning resolutions of one failure (`learn_resolution` in `resolver.py`): a worker claims the failure row by
 compare-and-set, finds the document in its checkout of the memory branch or writes it, and acknowledges the row.
 Any number of workers in any number of processes run at once, over checkouts that outlive their process; each process
 caches the commits it wrote. An update filters on the row's status, resolution and, for a refresh, commit; it takes
 effect atomically if it arrives, and its answer may still get lost. A worker or process may die anywhere, every Git
 call may fail, and others may push at any time. Environment assumption: an update does not arrive after its call ended.
 */
module Ingestion {
  import opened Text
  import opened GitMemory

  datatype Status = Unset | Pending | Ingesting | Ingested | Failed

  /** The memory columns of the failure row. */
  datatype Row = Row(status: Status, resolution: string, commit: Option<string>)

  /** A checkout of the memory branch on some disk. */
  datatype Checkout = Checkout(cloned: bool, local: History, worktree: map<string, Content>)

  datatype Stage =
    | Looking
    | Found
    | Missing
    | Acknowledging(commit: Option<string>, refreshes: bool)

  /** A worker with a claim that meets an error still has to mark the row as failed. */
  datatype Phase =
    | Reading
    | Deciding(seen: Row)
    | Busy(claimed: bool, seen: Row, stage: Stage)
    | Failing

  /** A running `learn_resolution`; `hash` is the hash of the source it works on. */
  datatype Worker = Worker(process: nat, checkout: nat, resolution: string, hash: string, phase: Phase)

  /** The record that a document was acknowledged as ingested. */
  datatype Ack = Ack(resolution: string, hash: string)

  datatype State = State(
    row: Row, remote: History, checkouts: map<nat, Checkout>, caches: map<nat, map<string, string>>,
    workers: map<nat, Worker>, acks: set<Ack>)

  datatype Reply = NeverArrives | AnswerLost | Answered

  datatype Step =
    | Start(worker: nat, process: nat, checkout: nat, resolution: string, hash: string)
    | Fetch(worker: nat)
    | Claim(worker: nat, reply: Reply)
    | Look(worker: nat, ch: Circumstances)
    | TakeCached(worker: nat)
    | TakeLatest(worker: nat, ch: Circumstances)
    | WriteDocument(worker: nat, text: string, ch: Circumstances)
    | MarkIngested(worker: nat, reply: Reply)
    | Refresh(worker: nat, reply: Reply)
    | Fail(worker: nat)
    | MarkFailed(worker: nat, reply: Reply)
    | Die(worker: nat)
    | Restart(process: nat)
    | MakePending(resolution: string)
    | OthersPush(more: History)

  function MemoryPath(resolution: string): string {
    "memories/" + resolution + ".md"
  }

  function Path(w: Worker): string {
    MemoryPath(w.resolution)
  }

  predicate IsClaimable(row: Row, resolution: string) {
    row.resolution == resolution && (row.status.Pending? || row.status.Failed?)
  }

  /** Between a successful claim and the end of the worker. */
  predicate IsClaimed(w: Worker) {
    (w.phase.Busy? && w.phase.claimed) || w.phase.Failing?
  }

  predicate IsAt(s: State, w: nat, stage: Stage) {
    w in s.workers && s.workers[w].phase.Busy? && s.workers[w].phase.stage == stage
  }

  predicate IsAcknowledging(s: State, w: nat) {
    w in s.workers && s.workers[w].phase.Busy? && s.workers[w].phase.stage.Acknowledging?
  }

  // ---------------------------------------------------------------- parts of the state

  function CheckoutOf(s: State, checkout: nat): Checkout {
    if checkout in s.checkouts then s.checkouts[checkout] else Checkout(false, [], map[])
  }

  function RepoOf(s: State, checkout: nat): Repo {
    var c := CheckoutOf(s, checkout);
    Repo(s.remote, c.cloned, c.local, c.worktree)
  }

  function WithRepo(s: State, checkout: nat, r: Repo): State {
    s.(remote := r.remote, checkouts := s.checkouts[checkout := Checkout(r.cloned, r.local, r.worktree)])
  }

  function CacheOf(s: State, process: nat): map<string, string> {
    if process in s.caches then s.caches[process] else map[]
  }

  function Remember(s: State, w: Worker, sha: string): State {
    s.(caches := s.caches[w.process := CacheOf(s, w.process)[w.resolution := sha]])
  }

  function Enter(s: State, w: nat, phase: Phase): State
    requires w in s.workers
  {
    s.(workers := s.workers[w := s.workers[w].(phase := phase)])
  }

  function Advance(s: State, w: nat, stage: Stage): State
    requires w in s.workers && s.workers[w].phase.Busy?
  {
    Enter(s, w, s.workers[w].phase.(stage := stage))
  }

  function End(s: State, w: nat): State {
    s.(workers := s.workers - {w})
  }

  /** An error: a worker with a claim goes on to mark the row as failed. */
  function Raise(s: State, w: nat): State
    requires w in s.workers && s.workers[w].phase.Busy?
  {
    if s.workers[w].phase.claimed then Enter(s, w, Failing) else End(s, w)
  }

  // ---------------------------------------------------------------- steps of a worker

  /** `_claim_memory_ingestion`, from the row that was read. */
  function TryClaim(s: State, w: nat, reply: Reply): State
    requires w in s.workers && s.workers[w].phase.Deciding?
  {
    var seen, resolution := s.workers[w].phase.seen, s.workers[w].resolution;
    if !IsClaimable(seen, resolution) then
      if seen.resolution == resolution && seen.status.Ingesting? then End(s, w)
      else Enter(s, w, Busy(false, seen, Looking))
    else if reply.NeverArrives? || s.row.status != seen.status || s.row.resolution != resolution then End(s, w)
    else
      var claimed := s.(row := Row(Ingesting, resolution, None));
      if reply.Answered? then Enter(claimed, w, Busy(true, seen, Looking)) else End(claimed, w)
  }

  function LookUp(s: State, w: nat, ch: Circumstances): State
    requires IsAt(s, w, Looking)
  {
    var x := s.workers[w];
    var (repo, found) := HasSourceHash(RepoOf(s, x.checkout), Path(x), x.hash, ch);
    var looked := WithRepo(s, x.checkout, repo);
    if found.None? then Raise(looked, w) else Advance(looked, w, if found.value then Found else Missing)
  }

  predicate SawIngested(x: Worker)
    requires x.phase.Busy?
  {
    x.phase.seen.status.Ingested? && x.phase.seen.resolution == x.resolution
  }

  /** Going on with the commit of a document that was found. */
  function Take(s: State, w: nat, sha: string): State
    requires w in s.workers && s.workers[w].phase.Busy?
  {
    var x := s.workers[w];
    Advance(s, w, Acknowledging(Some(sha), SawIngested(x) && x.phase.seen.commit != Some(sha)))
  }

  function AskLatest(s: State, w: nat, ch: Circumstances): State
    requires IsAt(s, w, Found)
  {
    var x := s.workers[w];
    var (repo, result) := LatestMemoryCommit(RepoOf(s, x.checkout), Path(x), false, ch);
    var asked := WithRepo(s, x.checkout, repo);
    if result.Err? || result.value.None? then Raise(asked, w) else Take(asked, w, result.value.value)
  }

  function WriteIt(s: State, w: nat, text: string, ch: Circumstances): State
    requires IsAt(s, w, Missing)
  {
    var x := s.workers[w];
    var (repo, result) := Write(RepoOf(s, x.checkout), Path(x), Content(x.hash, text), ch);
    var written := WithRepo(s, x.checkout, repo);
    if result.Err? then Raise(written, w)
    else if result.value.changed && result.value.commitSha.Some? then
      Advance(Remember(written, x, result.value.commitSha.value), w, Acknowledging(result.value.commitSha, SawIngested(x)))
    else Advance(written, w, Acknowledging(result.value.commitSha, false))
  }

  predicate IsBeingIngested(s: State, x: Worker) {
    s.row.status.Ingesting? && s.row.resolution == x.resolution
  }

  /** `_mark_memory_ingested`; an error while awaiting the answer is one inside the `try`. */
  function Acknowledge(s: State, w: nat, reply: Reply): State
    requires IsAcknowledging(s, w)
  {
    var x := s.workers[w];
    var marked :=
      if reply.NeverArrives? || !IsBeingIngested(s, x) then s
      else s.(row := Row(Ingested, x.resolution, x.phase.stage.commit), acks := s.acks + {Ack(x.resolution, x.hash)});
    if reply.Answered? then End(marked, w) else Raise(marked, w)
  }

  /** `_refresh_memory_ingested` */
  function RefreshCommit(s: State, w: nat, reply: Reply): State
    requires IsAcknowledging(s, w)
  {
    var x := s.workers[w];
    var commit := x.phase.stage.commit;
    var matches := s.row.status.Ingested? && s.row.resolution == x.resolution && s.row.commit == x.phase.seen.commit;
    var refreshed :=
      if reply.NeverArrives? || !matches || commit.None? then s
      else s.(row := s.row.(commit := commit), acks := s.acks + {Ack(x.resolution, x.hash)});
    End(refreshed, w)
  }

  /** `_mark_memory_failed`; the worker ends whatever comes of it. */
  function GiveUp(s: State, w: nat, reply: Reply): State
    requires w in s.workers
  {
    var x := s.workers[w];
    End(if reply.NeverArrives? || !IsBeingIngested(s, x) then s else s.(row := Row(Failed, x.resolution, None)), w)
  }

  /** The workers of a process and its cache are gone; checkouts stay on disk. */
  function Restarted(s: State, process: nat): State {
    s.(workers := map w | w in s.workers && s.workers[w].process != process :: s.workers[w], caches := s.caches - {process})
  }

  predicate Enabled(s: State, e: Step) {
    match e
    case Start(w, _, _, _, _) => w !in s.workers
    case Fetch(w) => w in s.workers && s.workers[w].phase.Reading?
    case Claim(w, _) => w in s.workers && s.workers[w].phase.Deciding?
    case Look(w, _) => IsAt(s, w, Looking)
    case TakeCached(w) => IsAt(s, w, Found) && s.workers[w].resolution in CacheOf(s, s.workers[w].process)
    case TakeLatest(w, _) => IsAt(s, w, Found) && s.workers[w].resolution !in CacheOf(s, s.workers[w].process)
    case WriteDocument(w, _, _) => IsAt(s, w, Missing)
    case MarkIngested(w, _) => IsAcknowledging(s, w) && s.workers[w].phase.claimed
    case Refresh(w, _) => IsAcknowledging(s, w) && !s.workers[w].phase.claimed && s.workers[w].phase.stage.refreshes
    case Fail(w) => w in s.workers && s.workers[w].phase.Busy?
    case MarkFailed(w, _) => w in s.workers && s.workers[w].phase.Failing?
    case Die(w) => w in s.workers
    case Restart(_) => true
    case MakePending(_) => true
    case OthersPush(_) => true
  }

  function Apply(s: State, e: Step): State
    requires Enabled(s, e)
  {
    match e
    case Start(w, process, checkout, resolution, hash) =>
      s.(workers := s.workers[w := Worker(process, checkout, resolution, hash, Reading)])
    case Fetch(w) => Enter(s, w, Deciding(s.row))
    case Claim(w, reply) => TryClaim(s, w, reply)
    case Look(w, ch) => LookUp(s, w, ch)
    case TakeCached(w) => Take(s, w, CacheOf(s, s.workers[w].process)[s.workers[w].resolution])
    case TakeLatest(w, ch) => AskLatest(s, w, ch)
    case WriteDocument(w, text, ch) => WriteIt(s, w, text, ch)
    case MarkIngested(w, reply) => Acknowledge(s, w, reply)
    case Refresh(w, reply) => RefreshCommit(s, w, reply)
    case Fail(w) => Raise(s, w)
    case MarkFailed(w, reply) => GiveUp(s, w, reply)
    case Die(w) => End(s, w)
    case Restart(process) => Restarted(s, process)
    case MakePending(resolution) => s.(row := Row(Pending, resolution, None))
    case OthersPush(more) => s.(remote := s.remote + more)
  }

  // ---------------------------------------------------------------- one holder per resolution

  /**
   At most one worker holds a claim on a resolution. While it does, the row, if it is still about that resolution, can
   not be claimed: it is being ingested, or its acknowledgement has arrived without the worker hearing of it.
   */
  predicate IsExclusive(s: State) {
    && (forall w, v | w in s.workers && v in s.workers && IsClaimed(s.workers[w]) && IsClaimed(s.workers[v])
                      && s.workers[w].resolution == s.workers[v].resolution :: w == v)
    && (forall w <- s.workers | IsClaimed(s.workers[w]) && s.row.resolution == s.workers[w].resolution ::
          s.row.status.Ingesting? || (s.row.status.Ingested? && s.workers[w].phase.Failing?))
  }

  predicate HasHolder(s: State, resolution: string) {
    exists w <- s.workers :: IsClaimed(s.workers[w]) && s.workers[w].resolution == resolution
  }

  /** Nobody makes a resolution pending while a worker that claimed it still runs. */
  predicate IsOrderly(s: State, e: Step) {
    e.MakePending? ==> !HasHolder(s, e.resolution)
  }

  /** A step that leaves the row alone and makes nobody a holder. */
  predicate IsQuiet(s: State, t: State) {
    && t.row == s.row
    && forall w <- t.workers | IsClaimed(t.workers[w]) ::
         && w in s.workers && IsClaimed(s.workers[w]) && s.workers[w].resolution == t.workers[w].resolution
         && (s.workers[w].phase.Failing? ==> t.workers[w].phase.Failing?)
  }

  lemma QuietKeeps(s: State, t: State)
    requires IsExclusive(s) && IsQuiet(s, t)
    ensures IsExclusive(t)
  {
    hide IsClaimed;
  }

  predicate TouchesRow(e: Step) {
    e.Claim? || e.MarkIngested? || e.Refresh? || e.MarkFailed? || e.MakePending?
  }

  lemma OthersAreQuiet(s: State, e: Step)
    requires Enabled(s, e) && !TouchesRow(e)
    ensures IsQuiet(s, Apply(s, e))
  {
    hide HasSourceHash, LatestMemoryCommit, Write, MemoryPath;
  }

  lemma ClaimKeepsExclusive(s: State, w: nat, reply: Reply)
    requires IsExclusive(s) && Enabled(s, Claim(w, reply))
    ensures IsExclusive(TryClaim(s, w, reply))
  {
  }

  lemma AcknowledgeKeepsExclusive(s: State, w: nat, reply: Reply)
    requires IsExclusive(s) && Enabled(s, MarkIngested(w, reply))
    ensures IsExclusive(Acknowledge(s, w, reply))
  {
  }

  lemma RefreshKeepsExclusive(s: State, w: nat, reply: Reply)
    requires IsExclusive(s) && Enabled(s, Refresh(w, reply))
    ensures IsExclusive(RefreshCommit(s, w, reply))
  {
  }

  lemma GiveUpKeepsExclusive(s: State, w: nat, reply: Reply)
    requires IsExclusive(s) && Enabled(s, MarkFailed(w, reply))
    ensures IsExclusive(GiveUp(s, w, reply))
  {
  }

  lemma ExclusiveKept(s: State, e: Step)
    requires IsExclusive(s) && Enabled(s, e) && IsOrderly(s, e)
    ensures IsExclusive(Apply(s, e))
  {
    hide IsQuiet, TryClaim, Acknowledge, RefreshCommit, GiveUp, HasSourceHash, LatestMemoryCommit, Write;
    if e.Claim? {
      ClaimKeepsExclusive(s, e.worker, e.reply);
    } else if e.MarkIngested? {
      AcknowledgeKeepsExclusive(s, e.worker, e.reply);
    } else if e.Refresh? {
      RefreshKeepsExclusive(s, e.worker, e.reply);
    } else if e.MarkFailed? {
      GiveUpKeepsExclusive(s, e.worker, e.reply);
    } else if e.MakePending? {
      hide IsClaimed;
    } else {
      hide Apply, Enabled, IsExclusive;
      OthersAreQuiet(s, e);
      QuietKeeps(s, Apply(s, e));
    }
  }

  /** The moves a row can make in one step of a worker. */
  predicate IsMove(before: Row, after: Row) {
    || after == before
    || (before.status.Pending? && after.status.Ingesting? && after.resolution == before.resolution)
    || (before.status.Failed? && after.status.Ingesting? && after.resolution == before.resolution)
    || (before.status.Ingesting? && after.status.Ingested? && after.resolution == before.resolution)
    || (before.status.Ingesting? && after.status.Failed? && after.resolution == before.resolution)
    || (before.status.Ingested? && after.status.Ingested? && after.resolution == before.resolution)
  }

  lemma OnlyTheseMoves(s: State, e: Step)
    requires Enabled(s, e) && !e.MakePending?
    ensures IsMove(s.row, Apply(s, e).row)
  {
    hide HasSourceHash, LatestMemoryCommit, Write, MemoryPath;
  }

  /** What the holder of a claim sends about its resolution takes effect, if it arrives and nobody moved the row on. */
  lemma ReleaseAlwaysLands(s: State, w: nat, reply: Reply)
    requires IsExclusive(s) && w in s.workers && IsClaimed(s.workers[w]) && s.row.resolution == s.workers[w].resolution
    requires !reply.NeverArrives?
    ensures s.workers[w].phase.Failing? && s.row.status.Ingesting? ==>
      Enabled(s, MarkFailed(w, reply)) && Apply(s, MarkFailed(w, reply)).row == Row(Failed, s.workers[w].resolution, None)
    ensures IsAcknowledging(s, w) ==>
      Enabled(s, MarkIngested(w, reply))
      && Apply(s, MarkIngested(w, reply)).row == Row(Ingested, s.workers[w].resolution, s.workers[w].phase.stage.commit)
  {
  }

  /** A refresh replaces exactly the commit it had seen, never a newer one. */
  lemma RefreshIsCompareAndSet(s: State, w: nat, reply: Reply)
    requires Enabled(s, Refresh(w, reply)) && Apply(s, Refresh(w, reply)).row != s.row
    ensures s.row == Row(Ingested, s.workers[w].resolution, s.workers[w].phase.seen.commit)
    ensures Apply(s, Refresh(w, reply)).row == s.row.(commit := s.workers[w].phase.stage.commit)
  {
    hide HasSourceHash, LatestMemoryCommit, Write, MemoryPath;
  }

  // ---------------------------------------------------------------- what a worker saw before it works

  /**
   A worker that holds a claim had seen the row free for its resolution. One that works without a claim had seen the row
   neither free nor being ingested for it, and replaces a commit only if it had seen the row ingested.
   */
  predicate IsDiligent(x: Worker) {
    x.phase.Busy? ==>
      var seen := x.phase.seen;
      && (x.phase.claimed <==> seen.resolution == x.resolution && (seen.status == Pending || seen.status == Failed))
      && !(seen.resolution == x.resolution && seen.status == Ingesting)
      && (x.phase.stage.Acknowledging? && x.phase.stage.refreshes ==>
            seen.resolution == x.resolution && seen.status == Ingested && x.phase.stage.commit.Some?)
  }

  predicate AreDiligent(s: State) {
    forall w <- s.workers :: IsDiligent(s.workers[w])
  }

  lemma EnterDiligent(s: State, w: nat, phase: Phase)
    requires AreDiligent(s) && w in s.workers && IsDiligent(s.workers[w].(phase := phase))
    ensures AreDiligent(Enter(s, w, phase))
  {
    hide IsDiligent;
  }

  lemma EndDiligent(s: State, w: nat)
    requires AreDiligent(s)
    ensures AreDiligent(End(s, w))
  {
    hide IsDiligent;
  }

  lemma RaiseDiligent(s: State, w: nat)
    requires AreDiligent(s) && w in s.workers && s.workers[w].phase.Busy?
    ensures AreDiligent(Raise(s, w))
  {
    EndDiligent(s, w);
    EnterDiligent(s, w, Failing);
  }

  lemma AdvanceDiligent(s: State, w: nat, stage: Stage)
    requires AreDiligent(s) && w in s.workers && s.workers[w].phase.Busy?
    requires stage.Acknowledging? && stage.refreshes ==> SawIngested(s.workers[w]) && stage.commit.Some?
    ensures AreDiligent(Advance(s, w, stage))
  {
    EnterDiligent(s, w, s.workers[w].phase.(stage := stage));
  }

  lemma ClaimDiligent(s: State, w: nat, reply: Reply)
    requires AreDiligent(s) && Enabled(s, Claim(w, reply))
    ensures AreDiligent(TryClaim(s, w, reply))
  {
    var seen, resolution := s.workers[w].phase.seen, s.workers[w].resolution;
    var claimed := s.(row := Row(Ingesting, resolution, None));
    EndDiligent(s, w);
    EndDiligent(claimed, w);
    if IsClaimable(seen, resolution) {
      EnterDiligent(claimed, w, Busy(true, seen, Looking));
    } else if !(seen.resolution == resolution && seen.status.Ingesting?) {
      EnterDiligent(s, w, Busy(false, seen, Looking));
    }
  }

  lemma StoreStepDiligent(s: State, e: Step)
    requires AreDiligent(s) && Enabled(s, e) && (e.Look? || e.TakeCached? || e.TakeLatest? || e.WriteDocument?)
    ensures AreDiligent(Apply(s, e))
  {
    hide HasSourceHash, LatestMemoryCommit, Write, MemoryPath, Raise, Advance, IsDiligent, AreDiligent;
    var x := s.workers[e.worker];
    match e
    case Look(w, ch) =>
      var (repo, found) := HasSourceHash(RepoOf(s, x.checkout), Path(x), x.hash, ch);
      SameWorkersDiligent(s, WithRepo(s, x.checkout, repo));
      if found.None? {
        RaiseDiligent(WithRepo(s, x.checkout, repo), w);
      } else {
        AdvanceDiligent(WithRepo(s, x.checkout, repo), w, if found.value then Found else Missing);
      }
    case TakeCached(w) =>
      TakeDiligent(s, w, CacheOf(s, x.process)[x.resolution]);
    case TakeLatest(w, ch) =>
      var (repo, result) := LatestMemoryCommit(RepoOf(s, x.checkout), Path(x), false, ch);
      SameWorkersDiligent(s, WithRepo(s, x.checkout, repo));
      if result.Err? || result.value.None? {
        RaiseDiligent(WithRepo(s, x.checkout, repo), w);
      } else {
        TakeDiligent(WithRepo(s, x.checkout, repo), w, result.value.value);
      }
    case WriteDocument(w, text, ch) =>
      var (repo, result) := Write(RepoOf(s, x.checkout), Path(x), Content(x.hash, text), ch);
      var written := WithRepo(s, x.checkout, repo);
      SameWorkersDiligent(s, written);
      if result.Err? {
        RaiseDiligent(written, w);
      } else if result.value.changed && result.value.commitSha.Some? {
        SameWorkersDiligent(s, Remember(written, x, result.value.commitSha.value));
        AdvanceDiligent(
          Remember(written, x, result.value.commitSha.value), w, Acknowledging(result.value.commitSha, SawIngested(x)));
      } else {
        AdvanceDiligent(written, w, Acknowledging(result.value.commitSha, false));
      }
  }

  lemma SameWorkersDiligent(s: State, t: State)
    requires AreDiligent(s) && t.workers == s.workers
    ensures AreDiligent(t)
  {
    hide IsDiligent;
  }

  lemma TakeDiligent(s: State, w: nat, sha: string)
    requires AreDiligent(s) && w in s.workers && s.workers[w].phase.Busy?
    ensures AreDiligent(Take(s, w, sha))
  {
    hide AreDiligent, Advance;
    var x := s.workers[w];
    AdvanceDiligent(s, w, Acknowledging(Some(sha), SawIngested(x) && x.phase.seen.commit != Some(sha)));
  }

  lemma MarkDiligent(s: State, e: Step)
    requires AreDiligent(s) && Enabled(s, e) && (e.MarkIngested? || e.Refresh? || e.MarkFailed?)
    ensures AreDiligent(Apply(s, e))
  {
    hide IsDiligent;
    if e.MarkIngested? && !e.reply.Answered? {
      FailingIsDiligent(s.workers[e.worker]);
    }
  }

  lemma FailingIsDiligent(x: Worker)
    ensures IsDiligent(x.(phase := Failing))
  {
  }

  lemma {:induction false} DiligentKept(s: State, e: Step)
    requires AreDiligent(s) && Enabled(s, e)
    ensures AreDiligent(Apply(s, e))
  {
    hide TryClaim, LookUp, Take, AskLatest, WriteIt, Acknowledge, RefreshCommit, GiveUp, AreDiligent, Raise, End;
    match e
    case Start(w, process, checkout, resolution, hash) => StartDiligent(s, w, Worker(process, checkout, resolution, hash, Reading));
    case Fetch(w) => EnterDiligent(s, w, Deciding(s.row));
    case Claim(w, reply) => ClaimDiligent(s, w, reply);
    case Look(_, _) => StoreStepDiligent(s, e);
    case TakeCached(_) => StoreStepDiligent(s, e);
    case TakeLatest(_, _) => StoreStepDiligent(s, e);
    case WriteDocument(_, _, _) => StoreStepDiligent(s, e);
    case MarkIngested(_, _) => MarkDiligent(s, e);
    case Refresh(_, _) => MarkDiligent(s, e);
    case MarkFailed(_, _) => MarkDiligent(s, e);
    case Fail(w) => RaiseDiligent(s, w);
    case Die(w) => EndDiligent(s, w);
    case Restart(process) => RestartDiligent(s, process);
    case MakePending(resolution) => SameWorkersDiligent(s, s.(row := Row(Pending, resolution, None)));
    case OthersPush(more) => SameWorkersDiligent(s, s.(remote := s.remote + more));
  }

  lemma StartDiligent(s: State, w: nat, x: Worker)
    requires AreDiligent(s) && x.phase.Reading?
    ensures AreDiligent(s.(workers := s.workers[w := x]))
  {
  }

  lemma RestartDiligent(s: State, process: nat)
    requires AreDiligent(s)
    ensures AreDiligent(Restarted(s, process))
  {
    hide IsDiligent;
  }
}
