/**
 The two shortcuts of a worker in `Ingestion`, exactly: when a found version is on the remote branch although nothing
 is pushed, and the runs in which a version is acknowledged that never reaches it.
 */
module IngestionStaleness {
  import opened Text
  import opened GitMemory
  import opened Ingestion
  import opened IngestionDurability
  import opened IngestionRuns

  // ---------------------------------------------------------------- when the cache may be trusted

  /** The newest version of the document in the checkout, and only it, has this hash. */
  predicate IsNewVersion(r: Repo, path: string, hash: string) {
    exists m | 0 <= m < |r.local| ::
      && r.local[m].path == path && r.local[m].content.sourceHash == hash
      && forall i | 0 <= i < |r.local| && r.local[i].path == path :: i <= m && (r.local[i].content.sourceHash == hash ==> i == m)
  }

  /**
   A worker that takes the cached commit for a new version acknowledges something that is on the remote branch exactly
   if all commits of the document in its checkout are pushed.
   */
  lemma CachedIsDurableIff(r: Repo, path: string, hash: string)
    requires r.remote <= r.local && IsNewVersion(r, path, hash)
    ensures Holds(r.remote, path, hash) <==> IsPushed(r, path)
  {
    var m :| 0 <= m < |r.local|
      && r.local[m].path == path && r.local[m].content.sourceHash == hash
      && forall i | 0 <= i < |r.local| && r.local[i].path == path :: i <= m && (r.local[i].content.sourceHash == hash ==> i == m);
    if Holds(r.remote, path, hash) {
      var i :| 0 <= i < |r.remote| && r.remote[i].path == path && r.remote[i].content.sourceHash == hash;
      assert r.local[i] == r.remote[i];
    }
    if IsPushed(r, path) {
      assert Holds(r.local, path, hash);
      PushedIsHeld(r, path, hash);
    }
  }

  /** A commit identifier covers the whole history of its commit. */
  predicate SharesHistory(r: Repo) {
    forall i, j | 0 <= i < |r.local| && 0 <= j < |r.remote| && r.local[i].sha == r.remote[j].sha ::
      i == j && r.local[..i + 1] == r.remote[..i + 1]
  }

  /** That is so if the cached commit is not older than the last commit of the document in the checkout. */
  lemma {:induction false} NewestCachedIsPushed(r: Repo, path: string, sha: string)
    requires SharesHistory(r) && HasCommit(r.remote, path, sha)
    requires LastTouching(r.local, path).Some? && LastTouching(r.local, path).value.sha == sha
    ensures IsPushed(r, path)
  {
    var m := LastIndex(r.local, path);
    var j :| 0 <= j < |r.remote| && r.remote[j].path == path && r.remote[j].sha == sha;
    assert r.local[..m + 1] == r.remote[..m + 1];
    forall i | 0 <= i < |r.local| && r.local[i].path == path ensures r.local[..i + 1] <= r.remote {
      assert r.local[..i + 1] == r.local[..m + 1][..i + 1];
    }
  }

  lemma {:induction false} LastIndex(history: History, path: string) returns (m: nat)
    requires LastTouching(history, path).Some?
    ensures m < |history| && history[m] == LastTouching(history, path).value
    ensures forall i | 0 <= i < |history| && history[i].path == path :: i <= m
    decreases |history|
  {
    if history[|history| - 1].path == path {
      m := |history| - 1;
    } else {
      m := LastIndex(history[..|history| - 1], path);
      forall i | 0 <= i < |history| && history[i].path == path ensures i <= m {
        assert history[..|history| - 1][i] == history[i];
      }
    }
  }

  // ---------------------------------------------------------------- undisturbed Git calls

  /** Nobody interferes; the commit and the push may still fail. */
  function Quietly(sha: Option<string>, pushes: bool): Circumstances {
    Circumstances(Opens, [], true, true, sha, [], pushes, [])
  }

  predicate IsReady(r: Repo) {
    r.cloned && r.remote <= r.local
  }

  lemma QuietOpening(r: Repo, sha: Option<string>, pushes: bool)
    requires IsReady(r)
    ensures OpenAndPull(r, Quietly(sha, pushes)) == (r, true)
  {
    assert r.remote + [] == r.remote;
  }

  lemma QuietLook(r: Repo, path: string, hash: string)
    requires IsReady(r)
    ensures HasSourceHash(r, path, hash, Quietly(None, true))
            == (r, Some(path in r.worktree && r.worktree[path].sourceHash == hash))
  {
    hide OpenAndPull;
    QuietOpening(r, None, true);
  }

  function Committed(r: Repo, sha: string, path: string, content: Content): Repo {
    r.(local := r.local + [Commit(sha, path, content)], worktree := r.worktree[path := content])
  }

  lemma NotHeldIsNotThere(history: History, path: string, content: Content)
    requires !Holds(history, path, content.sourceHash)
    ensures ContentAt(history, path) != Some(content)
  {
    hide Holds, ContentAt;
    if ContentAt(history, path) == Some(content) {
      ContentIsHeld(history, path, content);
    }
  }

  lemma QuietWrite(r: Repo, path: string, content: Content, sha: string, pushes: bool)
    requires IsReady(r) && !Holds(r.local, path, content.sourceHash)
    ensures
      var done := Committed(r, sha, path, content);
      Write(r, path, content, Quietly(Some(sha), pushes))
      == (if pushes then (done.(remote := done.local), Ok(WriteResult(path, true, Some(sha)))) else (done, Err("push")))
  {
    hide OpenAndPull, Holds, ContentAt;
    QuietOpening(r, Some(sha), pushes);
    NotHeldIsNotThere(r.local, path, content);
    var done := Committed(r, sha, path, content);
    assert done.remote + [] == done.remote && done.local + [] == done.local;
  }

  /** The file is written, but the commit fails. */
  lemma QuietWriteInterrupted(r: Repo, path: string, content: Content)
    requires IsReady(r) && !Holds(r.local, path, content.sourceHash)
    ensures Write(r, path, content, Quietly(None, true)) == (r.(worktree := r.worktree[path := content]), Err("commit"))
  {
    hide OpenAndPull, Holds, ContentAt;
    QuietOpening(r, None, true);
    NotHeldIsNotThere(r.local, path, content);
  }

  lemma QuietLatest(r: Repo, path: string)
    requires IsReady(r) && path in r.worktree && LastTouching(r.local, path).Some?
    ensures LatestMemoryCommit(r, path, false, Quietly(None, true))
            == (r.(remote := r.local), Ok(Some(LastTouching(r.local, path).value.sha)))
  {
    hide LastTouching;
    assert r.remote + [] == r.remote && r.local + [] == r.local;
  }

  /**
   A worker that asks for the newest commit of a new version, without interference, acknowledges something that is on
   the remote branch exactly if that commit is of the version it found.
   */
  lemma LatestIsDurableIff(r: Repo, path: string, hash: string)
    requires IsReady(r) && HasFile(r, path, hash) && LastTouching(r.local, path).Some?
    requires forall i, j | 0 <= i < j < |r.local| && r.local[i].path == path && r.local[j].path == path ::
      r.local[i].content.sourceHash != hash
    ensures Holds(LatestMemoryCommit(r, path, false, Quietly(None, true)).0.remote, path, hash)
      <==> LastTouching(r.local, path).value.content.sourceHash == hash
  {
    hide LatestMemoryCommit, LastTouching;
    QuietLatest(r, path);
    var m := LastIndex(r.local, path);
    if Holds(r.local, path, hash) {
      var i :| 0 <= i < |r.local| && r.local[i].path == path && r.local[i].content.sourceHash == hash;
      assert i == m;
    }
  }

  // ---------------------------------------------------------------- segments of a run

  /** A worker that has just claimed the row. */
  predicate HasJustClaimed(s: State, w: nat) {
    w in s.workers && s.workers[w].phase.Busy? && s.workers[w].phase.claimed && s.workers[w].phase.stage.Looking?
    && s.row.status.Ingesting? && s.row.resolution == s.workers[w].resolution
  }

  function RepoFor(s: State, w: nat): Repo
    requires w in s.workers
  {
    RepoOf(s, s.workers[w].checkout)
  }

  predicate HasFile(r: Repo, path: string, hash: string) {
    path in r.worktree && r.worktree[path].sourceHash == hash
  }

  lemma LookLeads(s: State, w: nat)
    requires HasJustClaimed(s, w) && IsReady(RepoFor(s, w))
    ensures
      var x := s.workers[w];
      var looked := WithRepo(s, x.checkout, RepoFor(s, w));
      Leads(s, [Look(w, Quietly(None, true))],
            Advance(looked, w, if HasFile(RepoFor(s, w), Path(x), x.hash) then Found else Missing))
  {
    hide HasSourceHash, IsRun, ApplyAll, Leads, MemoryPath;
    var x := s.workers[w];
    QuietLook(RepoFor(s, w), Path(x), x.hash);
    StepLeads(s, Look(w, Quietly(None, true)), Apply(s, Look(w, Quietly(None, true))));
  }

  /** Looking, failing to finish the write, and marking the row as failed. */
  function GiveUpSteps(w: nat, text: string, sha: Option<string>): seq<Step> {
    [Look(w, Quietly(None, true))] + [WriteDocument(w, text, Quietly(sha, sha.None?))] + [MarkFailed(w, Answered)]
  }

  /** What an interrupted write leaves in the checkout: an uncommitted file, or a commit that is not pushed. */
  function LeftBehind(r: Repo, path: string, content: Content, sha: Option<string>): Repo {
    if sha.Some? then Committed(r, sha.value, path, content) else r.(worktree := r.worktree[path := content])
  }

  function GivenUp(s: State, w: nat, text: string, sha: Option<string>): State
    requires w in s.workers
  {
    var x := s.workers[w];
    var left := WithRepo(s, x.checkout, LeftBehind(RepoFor(s, w), Path(x), Content(x.hash, text), sha));
    End(left.(row := Row(Failed, x.resolution, None)), w)
  }

  lemma GiveUpLeads(s: State, w: nat, text: string, sha: Option<string>)
    requires HasJustClaimed(s, w) && IsReady(RepoFor(s, w))
    requires
      var x := s.workers[w];
      !Holds(RepoFor(s, w).local, Path(x), x.hash) && !HasFile(RepoFor(s, w), Path(x), x.hash)
    ensures Leads(s, GiveUpSteps(w, text, sha), GivenUp(s, w, text, sha))
  {
    hide IsRun, ApplyAll, Leads, MemoryPath, Holds, Write, Committed;
    var x := s.workers[w];
    var r := RepoFor(s, w);
    LookLeads(s, w);
    var a := Advance(WithRepo(s, x.checkout, r), w, Missing);
    var content := Content(x.hash, text);
    var e := WriteDocument(w, text, Quietly(sha, sha.None?));
    if sha.Some? {
      QuietWrite(r, Path(x), content, sha.value, false);
    } else {
      QuietWriteInterrupted(r, Path(x), content);
    }
    assert RepoOf(a, x.checkout) == r;
    var b := Enter(WithRepo(a, x.checkout, LeftBehind(r, Path(x), content, sha)), w, Failing);
    assert LeftBehind(r, Path(x), content, sha).remote == s.remote by { CommittedStays(r, Path(x), content, sha); }
    StepLeads(a, e, b);
    LeadsOn(s, [Look(w, Quietly(None, true))], a, [e], b);
    var c := Apply(b, MarkFailed(w, Answered));
    assert c == GivenUp(s, w, text, sha) by {
      assert c.workers == s.workers - {w};
      assert c.checkouts == GivenUp(s, w, text, sha).checkouts;
    }
    StepLeads(b, MarkFailed(w, Answered), c);
    LeadsOn(s, [Look(w, Quietly(None, true))] + [e], b, [MarkFailed(w, Answered)], c);
  }

  lemma CommittedStays(r: Repo, path: string, content: Content, sha: Option<string>)
    ensures LeftBehind(r, path, content, sha).remote == r.remote && LeftBehind(r, path, content, sha).cloned == r.cloned
    ensures r.local <= LeftBehind(r, path, content, sha).local
    ensures HasFile(LeftBehind(r, path, content, sha), path, content.sourceHash)
  {
  }

  /** Looking, taking the cached commit, and acknowledging it. */
  function CachedSteps(w: nat): seq<Step> {
    [Look(w, Quietly(None, true))] + [TakeCached(w)] + [MarkIngested(w, Answered)]
  }

  lemma CachedLeads(s: State, w: nat)
    requires HasJustClaimed(s, w) && IsReady(RepoFor(s, w))
    requires
      var x := s.workers[w];
      HasFile(RepoFor(s, w), Path(x), x.hash) && x.resolution in CacheOf(s, x.process)
    ensures IsRun(s, CachedSteps(w))
    ensures
      var x, after := s.workers[w], ApplyAll(s, CachedSteps(w));
      && after.row == Row(Ingested, x.resolution, Some(CacheOf(s, x.process)[x.resolution]))
      && after.remote == s.remote && Ack(x.resolution, x.hash) in after.acks
  {
    hide IsRun, ApplyAll, Leads, MemoryPath;
    var x := s.workers[w];
    var r := RepoFor(s, w);
    LookLeads(s, w);
    var a := Advance(WithRepo(s, x.checkout, r), w, Found);
    var b := Apply(a, TakeCached(w));
    StepLeads(a, TakeCached(w), b);
    var c := Apply(b, MarkIngested(w, Answered));
    StepLeads(b, MarkIngested(w, Answered), c);
    LeadsOn(s, [Look(w, Quietly(None, true))], a, [TakeCached(w)], b);
    LeadsOn(s, [Look(w, Quietly(None, true))] + [TakeCached(w)], b, [MarkIngested(w, Answered)], c);
    LeadsUnfolds(s, CachedSteps(w), c);
  }

  /** Looking, asking for the newest commit, and acknowledging it. */
  function LatestSteps(w: nat): seq<Step> {
    [Look(w, Quietly(None, true))] + [TakeLatest(w, Quietly(None, true))] + [MarkIngested(w, Answered)]
  }

  lemma LatestLeads(s: State, w: nat)
    requires HasJustClaimed(s, w) && IsReady(RepoFor(s, w))
    requires
      var x := s.workers[w];
      && HasFile(RepoFor(s, w), Path(x), x.hash) && x.resolution !in CacheOf(s, x.process)
      && LastTouching(RepoFor(s, w).local, Path(x)).Some?
    ensures IsRun(s, LatestSteps(w))
    ensures
      var x, after := s.workers[w], ApplyAll(s, LatestSteps(w));
      && after.row == Row(Ingested, x.resolution, Some(LastTouching(RepoFor(s, w).local, Path(x)).value.sha))
      && after.remote == RepoFor(s, w).local && Ack(x.resolution, x.hash) in after.acks
  {
    hide IsRun, ApplyAll, Leads, MemoryPath, LatestMemoryCommit, LastTouching;
    var x := s.workers[w];
    var r := RepoFor(s, w);
    LookLeads(s, w);
    var a := Advance(WithRepo(s, x.checkout, r), w, Found);
    QuietLatest(r, Path(x));
    assert RepoOf(a, x.checkout) == r;
    var e := TakeLatest(w, Quietly(None, true));
    var b := Apply(a, e);
    StepLeads(a, e, b);
    var c := Apply(b, MarkIngested(w, Answered));
    StepLeads(b, MarkIngested(w, Answered), c);
    LeadsOn(s, [Look(w, Quietly(None, true))], a, [e], b);
    LeadsOn(s, [Look(w, Quietly(None, true))] + [e], b, [MarkIngested(w, Answered)], c);
    LeadsUnfolds(s, LatestSteps(w), c);
  }

  // ---------------------------------------------------------------- the runs

  /** The row is claimable, the checkout is up to date, and the source has changed: no version has its hash yet. */
  predicate SourceChanged(s: State, x: Worker) {
    var r := RepoOf(s, x.checkout);
    && IsClaimable(s.row, x.resolution) && IsReady(r)
    && !Holds(r.local, Path(x), x.hash) && !HasFile(r, Path(x), x.hash)
  }

  /** A first attempt that is interrupted in its write, as far as `sha` says. */
  function FirstAttempt(x: Worker, w: nat, text: string, sha: Option<string>): seq<Step> {
    ClaimSteps(w, x) + GiveUpSteps(w, text, sha)
  }

  lemma FirstAttemptLeads(s: State, x: Worker, w: nat, text: string, sha: Option<string>)
    requires w !in s.workers && SourceChanged(s, x)
    ensures
      var t := GivenUp(Claimed(s, x, w), w, text, sha);
      && Leads(s, FirstAttempt(x, w, text, sha), t)
      && w !in t.workers && t.row == Row(Failed, x.resolution, None) && t.remote == s.remote && t.caches == s.caches
      && RepoOf(t, x.checkout) == LeftBehind(RepoOf(s, x.checkout), Path(x), Content(x.hash, text), sha)
  {
    hide IsRun, ApplyAll, Leads, MemoryPath, Holds, ClaimSteps, GiveUpSteps, LeftBehind;
    ClaimLeads(s, x, w);
    var a := Claimed(s, x, w);
    GiveUpLeads(a, w, text, sha);
    LeadsOn(s, ClaimSteps(w, x), a, GiveUpSteps(w, text, sha), GivenUp(a, w, text, sha));
    CommittedStays(RepoOf(s, x.checkout), Path(x), Content(x.hash, text), sha);
  }

  /**
   A stale cache. The process wrote the document before and remembers that commit; the write of a changed source is
   committed but not pushed. The retry finds the new version in the checkout, takes the cached commit, pushes nothing,
   and acknowledges a version that is not on the remote branch.
   */
  lemma StaleCacheRun(s: State, x: Worker, w: nat, text: string, sha: string)
    requires w !in s.workers && SourceChanged(s, x) && x.resolution in CacheOf(s, x.process)
    ensures
      var steps := FirstAttempt(x, w, text, Some(sha)) + ClaimSteps(w, x) + CachedSteps(w);
      && IsRun(s, steps)
      && ApplyAll(s, steps).row == Row(Ingested, x.resolution, Some(CacheOf(s, x.process)[x.resolution]))
      && Ack(x.resolution, x.hash) in ApplyAll(s, steps).acks
      && !Holds(ApplyAll(s, steps).remote, Path(x), x.hash)
  {
    hide IsRun, ApplyAll, Leads, MemoryPath, Holds, ClaimSteps, FirstAttempt, CachedSteps, LeftBehind, GivenUp, Claimed;
    FirstAttemptLeads(s, x, w, text, Some(sha));
    ClaimedAgain(s, x, w);
    var t := GivenUp(Claimed(s, x, w), w, text, Some(sha));
    ClaimLeads(t, x, w);
    LeadsOn(s, FirstAttempt(x, w, text, Some(sha)), t, ClaimSteps(w, x), Claimed(t, x, w));
    CommittedStays(RepoOf(s, x.checkout), Path(x), Content(x.hash, text), Some(sha));
    var u := Claimed(t, x, w);
    ClaimedAgain(t, x, w);
    CachedLeads(u, w);
    LeadsFolds(u, CachedSteps(w));
    LeadsOn(s, FirstAttempt(x, w, text, Some(sha)) + ClaimSteps(w, x), u, CachedSteps(w), ApplyAll(u, CachedSteps(w)));
    LeadsUnfolds(s, FirstAttempt(x, w, text, Some(sha)) + ClaimSteps(w, x) + CachedSteps(w), ApplyAll(u, CachedSteps(w)));
    NotHeldBefore(s.remote, RepoOf(s, x.checkout).local, Path(x), x.hash);
  }

  lemma NotHeldBefore(history: History, later: History, path: string, hash: string)
    requires history <= later && !Holds(later, path, hash)
    ensures !Holds(history, path, hash)
  {
    HeldForever(history, later, path, hash, "");
  }

  lemma ClaimedAgain(s: State, x: Worker, w: nat)
    ensures
      var t := Claimed(s, x, w);
      && HasJustClaimed(t, w) && t.workers[w] == x.(phase := t.workers[w].phase)
      && t.remote == s.remote && t.caches == s.caches && RepoOf(t, x.checkout) == RepoOf(s, x.checkout)
  {
  }

  /**
   An uncommitted file. The write of a changed source is interrupted between the file and its commit, and the process
   restarts. The retry finds the new version in the checkout, and the newest commit is that of the old version.
   */
  lemma UncommittedFileRun(s: State, x: Worker, w: nat, text: string)
    requires w !in s.workers && SourceChanged(s, x) && x.resolution !in CacheOf(s, x.process)
    requires LastTouching(RepoOf(s, x.checkout).local, Path(x)).Some?
    ensures
      var steps := FirstAttempt(x, w, text, None) + ClaimSteps(w, x) + LatestSteps(w);
      && IsRun(s, steps)
      && ApplyAll(s, steps).row
         == Row(Ingested, x.resolution, Some(LastTouching(RepoOf(s, x.checkout).local, Path(x)).value.sha))
      && Ack(x.resolution, x.hash) in ApplyAll(s, steps).acks
      && !Holds(ApplyAll(s, steps).remote, Path(x), x.hash)
  {
    hide IsRun, ApplyAll, Leads, MemoryPath, Holds, ClaimSteps, FirstAttempt, LatestSteps, GivenUp, Claimed, LastTouching;
    FirstAttemptLeads(s, x, w, text, None);
    ClaimedAgain(s, x, w);
    var t := GivenUp(Claimed(s, x, w), w, text, None);
    ClaimLeads(t, x, w);
    LeadsOn(s, FirstAttempt(x, w, text, None), t, ClaimSteps(w, x), Claimed(t, x, w));
    CommittedStays(RepoOf(s, x.checkout), Path(x), Content(x.hash, text), None);
    var u := Claimed(t, x, w);
    ClaimedAgain(t, x, w);
    LatestLeads(u, w);
    LeadsFolds(u, LatestSteps(w));
    LeadsOn(s, FirstAttempt(x, w, text, None) + ClaimSteps(w, x), u, LatestSteps(w), ApplyAll(u, LatestSteps(w)));
    LeadsUnfolds(s, FirstAttempt(x, w, text, None) + ClaimSteps(w, x) + LatestSteps(w), ApplyAll(u, LatestSteps(w)));
  }

  /** A document written without trouble, and its resolution made pending again when the source changes. */
  function WriteSteps(x: Worker, w: nat, text: string, sha: string): seq<Step> {
    ClaimSteps(w, x) + [Look(w, Quietly(None, true))] + [WriteDocument(w, text, Quietly(Some(sha), true))]
    + [MarkIngested(w, Answered)] + [MakePending(x.resolution)]
  }

  function Written(s: State, x: Worker, text: string, sha: string): State {
    var done := Committed(RepoOf(s, x.checkout), sha, Path(x), Content(x.hash, text));
    var pushed := WithRepo(s, x.checkout, done.(remote := done.local));
    Remember(pushed, x, sha).(row := Row(Pending, x.resolution, None), acks := s.acks + {Ack(x.resolution, x.hash)})
  }

  /** After the document is written and its commit is remembered. */
  function Remembering(s: State, w: nat, text: string, sha: string): State
    requires HasJustClaimed(s, w)
  {
    var x := s.workers[w];
    var done := Committed(RepoFor(s, w), sha, Path(x), Content(x.hash, text));
    var t := Remember(WithRepo(s, x.checkout, done.(remote := done.local)), x, sha);
    Advance(t, w, Acknowledging(Some(sha), SawIngested(x)))
  }

  lemma DocumentLeads(s: State, w: nat, text: string, sha: string)
    requires HasJustClaimed(s, w) && IsReady(RepoFor(s, w))
    requires
      var x := s.workers[w];
      !Holds(RepoFor(s, w).local, Path(x), x.hash) && !HasFile(RepoFor(s, w), Path(x), x.hash)
    ensures Leads(s, [Look(w, Quietly(None, true))] + [WriteDocument(w, text, Quietly(Some(sha), true))],
                  Remembering(s, w, text, sha))
  {
    hide IsRun, ApplyAll, Leads, MemoryPath, Holds, Write, Committed;
    var x := s.workers[w];
    var r := RepoFor(s, w);
    LookLeads(s, w);
    var a := Advance(WithRepo(s, x.checkout, r), w, Missing);
    QuietWrite(r, Path(x), Content(x.hash, text), sha, true);
    assert RepoOf(a, x.checkout) == r;
    var e := WriteDocument(w, text, Quietly(Some(sha), true));
    var b := Apply(a, e);
    assert b == Remembering(s, w, text, sha) by {
      assert b.checkouts == Remembering(s, w, text, sha).checkouts;
      assert b.workers == Remembering(s, w, text, sha).workers;
    }
    StepLeads(a, e, b);
    LeadsOn(s, [Look(w, Quietly(None, true))], a, [e], b);
  }

  lemma MarkAndResetLeads(s: State, w: nat)
    requires IsAcknowledging(s, w) && s.workers[w].phase.claimed && IsBeingIngested(s, s.workers[w])
    ensures
      var x := s.workers[w];
      Leads(s, [MarkIngested(w, Answered)] + [MakePending(x.resolution)],
            s.(row := Row(Pending, x.resolution, None), workers := s.workers - {w},
               acks := s.acks + {Ack(x.resolution, x.hash)}))
  {
    hide IsRun, ApplyAll, Leads, MemoryPath;
    var x := s.workers[w];
    var a := Apply(s, MarkIngested(w, Answered));
    StepLeads(s, MarkIngested(w, Answered), a);
    StepLeads(a, MakePending(x.resolution), Apply(a, MakePending(x.resolution)));
    LeadsOn(s, [MarkIngested(w, Answered)], a, [MakePending(x.resolution)], Apply(a, MakePending(x.resolution)));
  }

  lemma WriteLeads(s: State, x: Worker, w: nat, text: string, sha: string)
    requires w !in s.workers && SourceChanged(s, x)
    ensures Leads(s, WriteSteps(x, w, text, sha), Written(s, x, text, sha))
  {
    hide IsRun, ApplyAll, Leads, MemoryPath, Holds, Write, Committed, ClaimSteps;
    ClaimLeads(s, x, w);
    var a := Claimed(s, x, w);
    ClaimedAgain(s, x, w);
    DocumentLeads(a, w, text, sha);
    var b := Remembering(a, w, text, sha);
    var document := [Look(w, Quietly(None, true))] + [WriteDocument(w, text, Quietly(Some(sha), true))];
    LeadsOn(s, ClaimSteps(w, x), a, document, b);
    MarkAndResetLeads(b, w);
    var t := Written(s, x, text, sha);
    RememberedIsWritten(s, x, w, text, sha);
    LeadsOn(s, ClaimSteps(w, x) + document, b, [MarkIngested(w, Answered)] + [MakePending(x.resolution)], t);
    assert WriteSteps(x, w, text, sha)
        == ClaimSteps(w, x) + document + ([MarkIngested(w, Answered)] + [MakePending(x.resolution)]);
  }

  lemma RememberedIsWritten(s: State, x: Worker, w: nat, text: string, sha: string)
    requires w !in s.workers && HasJustClaimed(Claimed(s, x, w), w)
    ensures
      var b := Remembering(Claimed(s, x, w), w, text, sha);
      && b.row == Row(Ingesting, x.resolution, None) && IsAcknowledging(b, w) && b.workers[w].phase.claimed
      && b.workers[w] == x.(phase := b.workers[w].phase)
      && b.(row := Row(Pending, x.resolution, None), workers := b.workers - {w},
            acks := b.acks + {Ack(x.resolution, x.hash)})
         == Written(s, x, text, sha)
  {
    hide Committed, MemoryPath;
    var b := Remembering(Claimed(s, x, w), w, text, sha);
    assert b.workers - {w} == s.workers;
    assert b.checkouts == Written(s, x, text, sha).checkouts;
    assert b.caches == Written(s, x, text, sha).caches;
  }

  /** A resolution that waits to be ingested, and an empty memory branch. */
  function Beginning(x: Worker): State {
    State(Row(Pending, x.resolution, None), [], map[x.checkout := Checkout(true, [], map[])], map[], map[], {})
  }

  lemma WrittenOnce(x: Worker, text: string, sha: string, hash: string)
    requires hash != x.hash
    ensures IsInitial(Beginning(x)) && SourceChanged(Beginning(x), x)
    ensures
      var t := Written(Beginning(x), x, text, sha);
      t.workers == map[] && SourceChanged(t, x.(hash := hash)) && CacheOf(t, x.process) == map[x.resolution := sha]
  {
    hide MemoryPath;
    var t := Written(Beginning(x), x, text, sha);
    assert RepoOf(t, x.checkout).local == [Commit(sha, Path(x), Content(x.hash, text))];
  }

  /** The stale cache in one run from the beginning, for any document, texts and two different hashes of its source. */
  lemma AcknowledgedButNotThere(x: Worker, w: nat, text: string, sha: string, hash: string, newer: string, later: string)
    requires hash != x.hash
    ensures
      var y := x.(hash := hash);
      var steps := WriteSteps(x, w, text, sha) + (FirstAttempt(y, w, newer, Some(later)) + ClaimSteps(w, y) + CachedSteps(w));
      && IsInitial(Beginning(x)) && IsRun(Beginning(x), steps)
      && ApplyAll(Beginning(x), steps).row == Row(Ingested, x.resolution, Some(sha))
      && Ack(x.resolution, hash) in ApplyAll(Beginning(x), steps).acks
      && !Holds(ApplyAll(Beginning(x), steps).remote, Path(x), hash)
  {
    hide IsRun, ApplyAll, Leads, MemoryPath, Holds, ClaimSteps, FirstAttempt, CachedSteps, WriteSteps, Written, SourceChanged;
    var y := x.(hash := hash);
    WrittenOnce(x, text, sha, hash);
    WriteLeads(Beginning(x), x, w, text, sha);
    var t := Written(Beginning(x), x, text, sha);
    StaleCacheRun(t, y, w, newer, later);
    var rest := FirstAttempt(y, w, newer, Some(later)) + ClaimSteps(w, y) + CachedSteps(w);
    LeadsFolds(t, rest);
    LeadsOn(Beginning(x), WriteSteps(x, w, text, sha), t, rest, ApplyAll(t, rest));
    LeadsUnfolds(Beginning(x), WriteSteps(x, w, text, sha) + rest, ApplyAll(t, rest));
  }
}
