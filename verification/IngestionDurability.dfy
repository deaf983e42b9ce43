/**
 What acknowledging an ingestion says about the remote memory branch. A recorded commit is always on it. That the
 acknowledged version of the document is on it too needs care at two places, where a worker trusts the file in its
 checkout and the commit in its cache.
 */
module IngestionDurability {
  import opened Text
  import opened GitMemory
  import opened Ingestion

  // ---------------------------------------------------------------- what is on the remote branch

  /** Every commit on record, cached or about to be recorded is a commit of that document on the remote branch. */
  predicate IsRecorded(s: State) {
    && (s.row.commit.Some? ==> HasCommit(s.remote, MemoryPath(s.row.resolution), s.row.commit.value))
    && (forall p <- s.caches :: forall id <- s.caches[p] :: HasCommit(s.remote, MemoryPath(id), s.caches[p][id]))
    && (forall w <- s.workers | IsAcknowledging(s, w) && s.workers[w].phase.stage.commit.Some? ::
          HasCommit(s.remote, Path(s.workers[w]), s.workers[w].phase.stage.commit.value))
  }

  /** The checkout of this worker has committed a version of its document with its hash. */
  predicate IsCommittedFor(s: State, w: nat)
    requires w in s.workers
  {
    var x := s.workers[w];
    CheckoutOf(s, x.checkout).cloned && Holds(CheckoutOf(s, x.checkout).local, Path(x), x.hash)
  }

  /**
   Every version that was acknowledged, or is about to be, is on the remote branch; one that was found is at least
   committed in the checkout.
   */
  predicate IsFresh(s: State) {
    && (forall a <- s.acks :: Holds(s.remote, MemoryPath(a.resolution), a.hash))
    && (forall w <- s.workers | IsAcknowledging(s, w) :: Holds(s.remote, Path(s.workers[w]), s.workers[w].hash))
    && (forall w <- s.workers | IsAt(s, w, Found) :: IsCommittedFor(s, w))
  }

  /** Every commit of a checkout that touches this path is on the remote branch. */
  predicate IsPushed(r: Repo, path: string) {
    forall i | 0 <= i < |r.local| && r.local[i].path == path :: r.local[..i + 1] <= r.remote
  }

  /**
   The two places where a worker trusts what it finds: the file in the checkout, which need not be committed, and the
   cached commit, which need not be the newest one. This says that there the trust is justified.
   */
  predicate IsCareful(s: State, e: Step)
    requires Enabled(s, e)
  {
    match e
    case Look(w, ch) =>
      var x := s.workers[w];
      var (r, found) := HasSourceHash(RepoOf(s, x.checkout), Path(x), x.hash, ch);
      found == Some(true) ==> IsCommitted(r, Path(x))
    case TakeCached(w) => IsPushed(RepoOf(s, s.workers[w].checkout), Path(s.workers[w]))
    case _ => true
  }

  // ---------------------------------------------------------------- the parts of a step keep it

  lemma RepoKeeps(s: State, checkout: nat, r: Repo)
    requires OnlyExtends(RepoOf(s, checkout), r)
    ensures IsRecorded(s) ==> IsRecorded(WithRepo(s, checkout, r))
    ensures IsFresh(s) ==> IsFresh(WithRepo(s, checkout, r))
  {
    hide Holds, HasCommit, MemoryPath, IsRecorded, IsFresh;
    var t := WithRepo(s, checkout, r);
    if IsRecorded(s) {
      RecordedExtends(s, t);
    }
    if IsFresh(s) {
      FreshExtends(s, t);
    }
  }

  lemma RecordedExtends(s: State, t: State)
    requires IsRecorded(s) && s.remote <= t.remote && t == s.(remote := t.remote, checkouts := t.checkouts)
    ensures IsRecorded(t)
  {
    hide Holds, HasCommit, MemoryPath;
    if s.row.commit.Some? {
      HeldForever(s.remote, t.remote, MemoryPath(s.row.resolution), "", s.row.commit.value);
    }
    forall p, id | p in s.caches && id in s.caches[p] ensures HasCommit(t.remote, MemoryPath(id), s.caches[p][id]) {
      HeldForever(s.remote, t.remote, MemoryPath(id), "", s.caches[p][id]);
    }
    forall w | IsAcknowledging(s, w) && s.workers[w].phase.stage.commit.Some?
      ensures HasCommit(t.remote, Path(s.workers[w]), s.workers[w].phase.stage.commit.value)
    {
      HeldForever(s.remote, t.remote, Path(s.workers[w]), "", s.workers[w].phase.stage.commit.value);
    }
  }

  predicate CheckoutsExtend(s: State, t: State) {
    forall k <- s.checkouts | s.checkouts[k].cloned ::
      k in t.checkouts && t.checkouts[k].cloned && s.checkouts[k].local <= t.checkouts[k].local
  }

  lemma FreshExtends(s: State, t: State)
    requires IsFresh(s) && s.remote <= t.remote && t == s.(remote := t.remote, checkouts := t.checkouts)
    requires CheckoutsExtend(s, t)
    ensures IsFresh(t)
  {
    hide Holds, HasCommit, MemoryPath;
    forall a <- s.acks ensures Holds(t.remote, MemoryPath(a.resolution), a.hash) {
      HeldForever(s.remote, t.remote, MemoryPath(a.resolution), a.hash, "");
    }
    forall w | IsAcknowledging(s, w) ensures Holds(t.remote, Path(s.workers[w]), s.workers[w].hash) {
      HeldForever(s.remote, t.remote, Path(s.workers[w]), s.workers[w].hash, "");
    }
    forall w | IsAt(s, w, Found) ensures IsCommittedFor(t, w) {
      var x := s.workers[w];
      HeldForever(CheckoutOf(s, x.checkout).local, CheckoutOf(t, x.checkout).local, Path(x), x.hash, "");
    }
  }

  lemma AdvanceKeepsRecorded(s: State, w: nat, stage: Stage)
    requires IsRecorded(s) && w in s.workers && s.workers[w].phase.Busy?
    requires stage.Acknowledging? && stage.commit.Some? ==> HasCommit(s.remote, Path(s.workers[w]), stage.commit.value)
    ensures IsRecorded(Advance(s, w, stage))
  {
    hide HasCommit, MemoryPath;
  }

  lemma AdvanceKeepsFresh(s: State, w: nat, stage: Stage)
    requires IsFresh(s) && w in s.workers && s.workers[w].phase.Busy?
    requires stage.Acknowledging? ==> Holds(s.remote, Path(s.workers[w]), s.workers[w].hash)
    requires stage.Found? ==> IsCommittedFor(s, w)
    ensures IsFresh(Advance(s, w, stage))
  {
    hide Holds, MemoryPath;
  }

  lemma RaiseKeeps(s: State, w: nat)
    requires w in s.workers && s.workers[w].phase.Busy?
    ensures IsRecorded(s) ==> IsRecorded(Raise(s, w))
    ensures IsFresh(s) ==> IsFresh(Raise(s, w))
  {
    hide HasCommit, Holds, MemoryPath;
  }

  lemma RememberKeeps(s: State, x: Worker, sha: string)
    requires HasCommit(s.remote, Path(x), sha)
    ensures IsRecorded(s) ==> IsRecorded(Remember(s, x, sha))
    ensures IsFresh(s) ==> IsFresh(Remember(s, x, sha))
  {
    hide HasCommit, Holds, MemoryPath;
  }

  // ---------------------------------------------------------------- every step keeps it

  lemma LookKeepsRecorded(s: State, w: nat, ch: Circumstances)
    requires IsRecorded(s) && IsAt(s, w, Looking)
    ensures IsRecorded(LookUp(s, w, ch))
  {
    hide HasSourceHash, IsRecorded, OnlyExtends, Advance, Raise, WithRepo;
    var x := s.workers[w];
    HasSourceHashOnlyExtends(RepoOf(s, x.checkout), Path(x), x.hash, ch);
    var (r, found) := HasSourceHash(RepoOf(s, x.checkout), Path(x), x.hash, ch);
    RepoKeeps(s, x.checkout, r);
    WorkersStay(s, x.checkout, r);
    if found.None? {
      RaiseKeeps(WithRepo(s, x.checkout, r), w);
    } else {
      AdvanceKeepsRecorded(WithRepo(s, x.checkout, r), w, if found.value then Found else Missing);
    }
  }

  lemma WorkersStay(s: State, checkout: nat, r: Repo)
    ensures WithRepo(s, checkout, r).workers == s.workers && WithRepo(s, checkout, r).remote == r.remote
    ensures RepoOf(WithRepo(s, checkout, r), checkout) == r
    ensures WithRepo(s, checkout, r).caches == s.caches && WithRepo(s, checkout, r).row == s.row
  {
  }

  lemma LookKeepsFresh(s: State, w: nat, ch: Circumstances)
    requires IsFresh(s) && IsAt(s, w, Looking) && IsCareful(s, Look(w, ch))
    ensures IsFresh(LookUp(s, w, ch))
  {
    hide HasSourceHash, IsFresh, OnlyExtends, Advance, Raise, WithRepo, IsCommitted;
    var x := s.workers[w];
    HasSourceHashOnlyExtends(RepoOf(s, x.checkout), Path(x), x.hash, ch);
    var (r, found) := HasSourceHash(RepoOf(s, x.checkout), Path(x), x.hash, ch);
    RepoKeeps(s, x.checkout, r);
    WorkersStay(s, x.checkout, r);
    if found.None? {
      RaiseKeeps(WithRepo(s, x.checkout, r), w);
    } else {
      if found.value {
        FoundIsCommitted(RepoOf(s, x.checkout), Path(x), x.hash, ch);
      }
      AdvanceKeepsFresh(WithRepo(s, x.checkout, r), w, if found.value then Found else Missing);
    }
  }

  lemma FoundIsCommitted(r: Repo, path: string, hash: string, ch: Circumstances)
    requires HasSourceHash(r, path, hash, ch).1 == Some(true) && IsCommitted(HasSourceHash(r, path, hash, ch).0, path)
    ensures HasSourceHash(r, path, hash, ch).0.cloned && Holds(HasSourceHash(r, path, hash, ch).0.local, path, hash)
  {
    hide OpenAndPull, ContentAt, Holds;
    OpenAndPullExtends(r, ch);
    var t := HasSourceHash(r, path, hash, ch).0;
    ContentIsHeld(t.local, path, t.worktree[path]);
  }

  lemma CachedKeepsRecorded(s: State, w: nat)
    requires IsRecorded(s) && Enabled(s, TakeCached(w))
    ensures IsRecorded(Apply(s, TakeCached(w)))
  {
    hide Advance, HasCommit, MemoryPath;
    var x := s.workers[w];
    var sha := CacheOf(s, x.process)[x.resolution];
    assert HasCommit(s.remote, MemoryPath(x.resolution), sha);
    AdvanceKeepsRecorded(s, w, Acknowledging(Some(sha), SawIngested(x) && x.phase.seen.commit != Some(sha)));
  }

  lemma PushedIsHeld(r: Repo, path: string, hash: string)
    requires Holds(r.local, path, hash) && IsPushed(r, path)
    ensures Holds(r.remote, path, hash)
  {
    var i :| 0 <= i < |r.local| && r.local[i].path == path && r.local[i].content.sourceHash == hash;
    assert r.local[..i + 1] <= r.remote;
    assert r.remote[i] == r.local[..i + 1][i];
  }

  lemma CachedKeepsFresh(s: State, w: nat)
    requires IsFresh(s) && Enabled(s, TakeCached(w)) && IsCareful(s, TakeCached(w))
    ensures IsFresh(Apply(s, TakeCached(w)))
  {
    hide Advance, Holds, MemoryPath, IsPushed;
    var x := s.workers[w];
    var sha := CacheOf(s, x.process)[x.resolution];
    assert IsCommittedFor(s, w);
    PushedIsHeld(RepoOf(s, x.checkout), Path(x), x.hash);
    AdvanceKeepsFresh(s, w, Acknowledging(Some(sha), SawIngested(x) && x.phase.seen.commit != Some(sha)));
  }

  lemma LatestKeepsRecorded(s: State, w: nat, ch: Circumstances)
    requires IsRecorded(s) && IsAt(s, w, Found)
    ensures IsRecorded(AskLatest(s, w, ch))
  {
    hide LatestMemoryCommit, IsRecorded, OnlyExtends, Advance, Raise, WithRepo, HasCommit, LastTouching, MemoryPath;
    var x := s.workers[w];
    LatestOnlyExtends(RepoOf(s, x.checkout), Path(x), false, ch);
    var (r, result) := LatestMemoryCommit(RepoOf(s, x.checkout), Path(x), false, ch);
    RepoKeeps(s, x.checkout, r);
    WorkersStay(s, x.checkout, r);
    var t := WithRepo(s, x.checkout, r);
    if result.Err? || result.value.None? {
      RaiseKeeps(t, w);
    } else {
      LatestIsDurable(RepoOf(s, x.checkout), Path(x), false, ch);
      var sha := result.value.value;
      AdvanceKeepsRecorded(t, w, Acknowledging(Some(sha), SawIngested(x) && x.phase.seen.commit != Some(sha)));
    }
  }

  lemma LatestKeepsFresh(s: State, w: nat, ch: Circumstances)
    requires IsFresh(s) && IsAt(s, w, Found)
    ensures IsFresh(AskLatest(s, w, ch))
  {
    hide LatestMemoryCommit, OnlyExtends, Advance, Raise, WithRepo, HasCommit, LastTouching, MemoryPath, Holds;
    var x := s.workers[w];
    assert IsCommittedFor(s, w);
    hide IsFresh;
    LatestOnlyExtends(RepoOf(s, x.checkout), Path(x), false, ch);
    var (r, result) := LatestMemoryCommit(RepoOf(s, x.checkout), Path(x), false, ch);
    RepoKeeps(s, x.checkout, r);
    WorkersStay(s, x.checkout, r);
    var t := WithRepo(s, x.checkout, r);
    if result.Err? || result.value.None? {
      RaiseKeeps(t, w);
    } else {
      LatestIsDurable(RepoOf(s, x.checkout), Path(x), false, ch);
      var sha := result.value.value;
      HeldForever(CheckoutOf(s, x.checkout).local, r.remote, Path(x), x.hash, "");
      AdvanceKeepsFresh(t, w, Acknowledging(Some(sha), SawIngested(x) && x.phase.seen.commit != Some(sha)));
    }
  }

  /** What `WriteIsDurable` says, for the worker. */
  lemma WrittenIsReady(r: Repo, path: string, content: Content, ch: Circumstances)
    requires Write(r, path, content, ch).1.Ok?
    ensures
      var (after, result) := Write(r, path, content, ch);
      && Holds(after.remote, path, content.sourceHash)
      && (result.value.commitSha.Some? ==> HasCommit(after.remote, path, result.value.commitSha.value))
  {
    hide OpenAndPull, LastTouching, Holds;
    WriteIsDurable(r, path, content, ch);
    var (after, result) := Write(r, path, content, ch);
    if result.value.commitSha.Some? {
      var c := LastTouching(after.local, path).value;
      DurableForever(after.local, after.remote, c);
      var i :| 0 <= i < |after.remote| && after.remote[i] == c;
    }
  }

  lemma WriteKeepsRecorded(s: State, w: nat, text: string, ch: Circumstances)
    requires IsRecorded(s) && IsAt(s, w, Missing)
    ensures IsRecorded(WriteIt(s, w, text, ch))
  {
    hide Write, IsRecorded, OnlyExtends, Advance, Raise, WithRepo, HasCommit, LastTouching, MemoryPath, Holds, Remember;
    var x := s.workers[w];
    var content := Content(x.hash, text);
    WriteOnlyExtends(RepoOf(s, x.checkout), Path(x), content, ch);
    var (r, result) := Write(RepoOf(s, x.checkout), Path(x), content, ch);
    RepoKeeps(s, x.checkout, r);
    WorkersStay(s, x.checkout, r);
    var t := WithRepo(s, x.checkout, r);
    if result.Err? {
      RaiseKeeps(t, w);
    } else {
      WrittenIsReady(RepoOf(s, x.checkout), Path(x), content, ch);
      if result.value.changed && result.value.commitSha.Some? {
        RememberKeeps(t, x, result.value.commitSha.value);
        RememberStays(t, x, result.value.commitSha.value);
        AdvanceKeepsRecorded(Remember(t, x, result.value.commitSha.value), w, Acknowledging(result.value.commitSha, SawIngested(x)));
      } else {
        AdvanceKeepsRecorded(t, w, Acknowledging(result.value.commitSha, false));
      }
    }
  }

  lemma RememberStays(s: State, x: Worker, sha: string)
    ensures Remember(s, x, sha) == s.(caches := Remember(s, x, sha).caches)
  {
  }

  lemma WriteKeepsFresh(s: State, w: nat, text: string, ch: Circumstances)
    requires IsFresh(s) && IsAt(s, w, Missing)
    ensures IsFresh(WriteIt(s, w, text, ch))
  {
    hide Write, IsFresh, OnlyExtends, Advance, Raise, WithRepo, HasCommit, LastTouching, MemoryPath, Holds, Remember;
    var x := s.workers[w];
    var content := Content(x.hash, text);
    WriteOnlyExtends(RepoOf(s, x.checkout), Path(x), content, ch);
    var (r, result) := Write(RepoOf(s, x.checkout), Path(x), content, ch);
    RepoKeeps(s, x.checkout, r);
    WorkersStay(s, x.checkout, r);
    var t := WithRepo(s, x.checkout, r);
    if result.Err? {
      RaiseKeeps(t, w);
    } else {
      WrittenIsReady(RepoOf(s, x.checkout), Path(x), content, ch);
      if result.value.changed && result.value.commitSha.Some? {
        RememberKeeps(t, x, result.value.commitSha.value);
        RememberStays(t, x, result.value.commitSha.value);
        AdvanceKeepsFresh(Remember(t, x, result.value.commitSha.value), w, Acknowledging(result.value.commitSha, SawIngested(x)));
      } else {
        AdvanceKeepsFresh(t, w, Acknowledging(result.value.commitSha, false));
      }
    }
  }

  predicate IsPlain(e: Step) {
    e.Start? || e.Fetch? || e.Die? || e.Restart? || e.MakePending?
  }

  lemma PlainStepKeepsRecorded(s: State, e: Step)
    requires IsRecorded(s) && Enabled(s, e) && IsPlain(e)
    ensures IsRecorded(Apply(s, e))
  {
    hide HasSourceHash, LatestMemoryCommit, Write, MemoryPath, HasCommit, TryClaim, Acknowledge, RefreshCommit, GiveUp;
  }

  lemma PlainStepKeepsFresh(s: State, e: Step)
    requires IsFresh(s) && Enabled(s, e) && IsPlain(e)
    ensures IsFresh(Apply(s, e))
  {
    hide HasSourceHash, LatestMemoryCommit, Write, MemoryPath, Holds, TryClaim, Acknowledge, RefreshCommit, GiveUp;
  }

  predicate IsUpdate(e: Step) {
    e.Claim? || e.MarkIngested? || e.Refresh? || e.MarkFailed?
  }

  lemma UpdateKeepsRecorded(s: State, e: Step)
    requires IsRecorded(s) && Enabled(s, e) && IsUpdate(e)
    ensures IsRecorded(Apply(s, e))
  {
    hide HasSourceHash, LatestMemoryCommit, Write, MemoryPath, HasCommit;
  }

  /** Nothing happened to the branches, and every new acknowledgement comes from a worker that is ready for it. */
  predicate OnlyAcknowledges(s: State, t: State) {
    && t.remote == s.remote && t.checkouts == s.checkouts
    && (forall a <- t.acks | a !in s.acks ::
          exists w <- s.workers :: IsAcknowledging(s, w) && a == Ack(s.workers[w].resolution, s.workers[w].hash))
    && (forall w <- t.workers | IsAcknowledging(t, w) || IsAt(t, w, Found) :: w in s.workers && s.workers[w] == t.workers[w])
  }

  lemma AcknowledgingKeepsFresh(s: State, t: State)
    requires IsFresh(s) && OnlyAcknowledges(s, t)
    ensures IsFresh(t)
  {
    hide Holds, MemoryPath;
  }

  lemma UpdateOnlyAcknowledges(s: State, e: Step)
    requires Enabled(s, e) && IsUpdate(e)
    ensures OnlyAcknowledges(s, Apply(s, e))
  {
    hide HasSourceHash, LatestMemoryCommit, Write, MemoryPath;
  }

  lemma UpdateKeepsFresh(s: State, e: Step)
    requires IsFresh(s) && Enabled(s, e) && IsUpdate(e)
    ensures IsFresh(Apply(s, e))
  {
    hide IsFresh, OnlyAcknowledges, Apply, Enabled;
    UpdateOnlyAcknowledges(s, e);
    AcknowledgingKeepsFresh(s, Apply(s, e));
  }

  /** Whatever happens, what is on record is on the remote branch. */
  lemma RecordedKept(s: State, e: Step)
    requires IsRecorded(s) && Enabled(s, e)
    ensures IsRecorded(Apply(s, e))
  {
    hide IsRecorded, LookUp, AskLatest, WriteIt, Acknowledge, RefreshCommit, GiveUp, TryClaim, HasCommit;
    match e
    case Look(w, ch) => LookKeepsRecorded(s, w, ch);
    case TakeCached(w) => CachedKeepsRecorded(s, w);
    case TakeLatest(w, ch) => LatestKeepsRecorded(s, w, ch);
    case WriteDocument(w, text, ch) => WriteKeepsRecorded(s, w, text, ch);
    case OthersPush(more) => RecordedExtends(s, s.(remote := s.remote + more));
    case Fail(w) => RaiseKeeps(s, w);
    case _ => if IsPlain(e) { PlainStepKeepsRecorded(s, e); } else { UpdateKeepsRecorded(s, e); }
  }

  /** What is acknowledged is on the remote branch, as long as the two shortcuts are taken with care. */
  lemma FreshKept(s: State, e: Step)
    requires IsFresh(s) && Enabled(s, e) && IsCareful(s, e)
    ensures IsFresh(Apply(s, e))
  {
    hide IsFresh, LookUp, AskLatest, WriteIt, Acknowledge, RefreshCommit, GiveUp, TryClaim, Holds, IsPushed, IsCommitted;
    match e
    case Look(w, ch) => LookKeepsFresh(s, w, ch);
    case TakeCached(w) => CachedKeepsFresh(s, w);
    case TakeLatest(w, ch) => LatestKeepsFresh(s, w, ch);
    case WriteDocument(w, text, ch) => WriteKeepsFresh(s, w, text, ch);
    case OthersPush(more) => FreshExtends(s, s.(remote := s.remote + more));
    case Fail(w) => RaiseKeeps(s, w);
    case _ => if IsPlain(e) { PlainStepKeepsFresh(s, e); } else { UpdateKeepsFresh(s, e); }
  }
}
