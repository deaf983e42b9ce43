/**
 Durable writes to the shared memory branch (`GitMemoryStore` in `memory_store.py`).
 A branch is its history of commits; pulling only fast-forwards, pushing is never forced, so histories are compared by
 the prefix order. Every Git call may fail, and other writers may extend the remote branch between any two steps: both
 are choices of the operation.
 */
module GitMemory {
  import opened Text

  /** A rendered document, as far as the store looks at it: the source hash in its frontmatter, and its text. */
  datatype Content = Content(sourceHash: string, text: string)

  datatype Commit = Commit(sha: string, path: string, content: Content)

  type History = seq<Commit>

  datatype WriteResult = WriteResult(path: string, changed: bool, commitSha: Option<string>)

  /** The remote branch and one checkout of it. */
  datatype Repo = Repo(remote: History, cloned: bool, local: History, worktree: map<string, Content>)

  datatype Opening = CloneFails | VerifyFails | Opens

  /** What happens around one operation: failures, and what others push before, in between and after. */
  datatype Circumstances = Circumstances(
    opening: Opening, before: History, pulls: bool, works: bool, sha: Option<string>, between: History, pushes: bool,
    after: History)

  // ---------------------------------------------------------------- histories

  /** The newest commit that touches a path (`git log -1 -- path`). */
  function LastTouching(history: History, path: string): (commit: Option<Commit>)
    ensures commit.Some? ==> commit.value in history && commit.value.path == path
    ensures commit.None? ==> forall c <- history :: c.path != path
  {
    if history == [] then None
    else if history[|history| - 1].path == path then Some(history[|history| - 1])
    else LastTouching(history[..|history| - 1], path)
  }

  /** The file at a path in the tree of the newest commit. */
  function ContentAt(history: History, path: string): Option<Content> {
    var last := LastTouching(history, path);
    if last.Some? then Some(last.value.content) else None
  }

  lemma CommitSetsContent(history: History, c: Commit)
    ensures ContentAt(history + [c], c.path) == Some(c.content)
    ensures LastTouching(history + [c], c.path) == Some(c)
  {
  }

  /** Some commit of the branch holds this path with this source hash. */
  predicate Holds(history: History, path: string, hash: string) {
    exists i | 0 <= i < |history| :: history[i].path == path && history[i].content.sourceHash == hash
  }

  /** Some commit of the branch has this identifier and touches this path. */
  predicate HasCommit(history: History, path: string, sha: string) {
    exists i | 0 <= i < |history| :: history[i].path == path && history[i].sha == sha
  }

  /** What a branch holds it keeps holding however it is extended. */
  lemma HeldForever(history: History, later: History, path: string, hash: string, sha: string)
    requires history <= later
    ensures Holds(history, path, hash) ==> Holds(later, path, hash)
    ensures HasCommit(history, path, sha) ==> HasCommit(later, path, sha)
  {
    if Holds(history, path, hash) {
      var i :| 0 <= i < |history| && history[i].path == path && history[i].content.sourceHash == hash;
      assert later[i] == history[i];
    }
    if HasCommit(history, path, sha) {
      var i :| 0 <= i < |history| && history[i].path == path && history[i].sha == sha;
      assert later[i] == history[i];
    }
  }

  lemma ContentIsHeld(history: History, path: string, content: Content)
    requires ContentAt(history, path) == Some(content)
    ensures Holds(history, path, content.sourceHash)
  {
    hide LastTouching;
    var c := LastTouching(history, path).value;
    var i :| 0 <= i < |history| && history[i] == c;
  }

  // ---------------------------------------------------------------- single Git calls

  function Others(r: Repo, more: History): Repo {
    r.(remote := r.remote + more)
  }

  /** The files after checking out some commits on top. */
  function Updated(worktree: map<string, Content>, commits: History): map<string, Content> {
    if commits == [] then worktree
    else
      var last := commits[|commits| - 1];
      Updated(worktree, commits[..|commits| - 1])[last.path := last.content]
  }

  function FileAt(r: Repo, path: string): Option<Content> {
    if path in r.worktree then Some(r.worktree[path]) else None
  }

  /** The file at a path is the one of the newest local commit. */
  predicate IsCommitted(r: Repo, path: string) {
    FileAt(r, path) == ContentAt(r.local, path)
  }

  /** `_ensure_checkout`: clones when there is no checkout yet. */
  function Open(r: Repo, opening: Opening): Repo {
    if r.cloned || opening.CloneFails? then r else Repo(r.remote, true, r.remote, Updated(map[], r.remote))
  }

  /** `git pull --ff-only` works on equal, behind and ahead branches, and overwrites no uncommitted file. */
  predicate CanPull(r: Repo) {
    r.remote <= r.local || (r.local <= r.remote && forall c <- r.remote[|r.local|..] :: IsCommitted(r, c.path))
  }

  function Pull(r: Repo): Repo
    requires CanPull(r)
  {
    if r.remote <= r.local then r
    else r.(local := r.remote, worktree := Updated(r.worktree, r.remote[|r.local|..]))
  }

  /** `git push`, never forced: it works only when it fast-forwards the remote. */
  predicate CanPush(r: Repo) {
    r.remote <= r.local
  }

  function Pushed(r: Repo): Repo {
    r.(remote := r.local)
  }

  // ---------------------------------------------------------------- operations

  /** Opening the checkout and pulling, the start of every refreshed operation; `false` when it raises. */
  function OpenAndPull(r: Repo, ch: Circumstances): (Repo, bool) {
    var ready := Others(Open(r, ch.opening), ch.before);
    if !ch.opening.Opens? || !ch.pulls || !CanPull(ready) then (ready, false) else (Pull(ready), true)
  }

  /** Writing the file and committing it if it differs from the last commit; whether it did, or an error. */
  function Stage(r: Repo, path: string, content: Content, ch: Circumstances): (Repo, Result<bool>) {
    if FileAt(r, path) != Some(content) && !ch.works then (r, Err("write"))
    else
      var written := r.(worktree := r.worktree[path := content]);
      if ContentAt(r.local, path) == Some(content) then (written, Ok(false))
      else if ch.sha.None? then (written, Err("commit"))
      else (written.(local := r.local + [Commit(ch.sha.value, path, content)]), Ok(true))
  }

  /** Pushing while others push too; `false` when it raises. */
  function Publish(r: Repo, ch: Circumstances): (Repo, bool) {
    var moved := Others(r, ch.between);
    if !ch.pushes || !CanPush(moved) then (moved, false) else (Others(Pushed(moved), ch.after), true)
  }

  /** `write_memory`; it pushes also when nothing changed, which completes an earlier interrupted push. */
  function Write(r: Repo, path: string, content: Content, ch: Circumstances): (Repo, Result<WriteResult>) {
    var (pulled, ok) := OpenAndPull(r, ch);
    if !ok then (pulled, Err("pull"))
    else
      var (staged, changed) := Stage(pulled, path, content, ch);
      if changed.Err? then (staged, Err(changed.reason))
      else
        var (published, done) := Publish(staged, ch);
        if !done then (published, Err("push"))
        else (published, Ok(WriteResult(path, changed.value, if changed.value then ch.sha else None)))
  }

  /** `has_source_hash`, refreshed; `None` when it raises. */
  function HasSourceHash(r: Repo, path: string, hash: string, ch: Circumstances): (Repo, Option<bool>) {
    var (pulled, ok) := OpenAndPull(r, ch);
    if !ok || !ch.works then (pulled, None)
    else (pulled, Some(path in pulled.worktree && pulled.worktree[path].sourceHash == hash))
  }

  /** `latest_memory_commit` */
  function LatestMemoryCommit(r: Repo, path: string, refresh: bool, ch: Circumstances): (Repo, Result<Option<string>>) {
    var ready := Others(Open(r, ch.opening), ch.before);
    if !ch.opening.Opens? || (refresh && (!ch.pulls || !CanPull(ready))) then (ready, Err("pull"))
    else
      var pulled := if refresh then Pull(ready) else ready;
      if path !in pulled.worktree then (pulled, Ok(None))
      else
        var (published, done) := Publish(pulled, ch);
        if !done then (published, Err("push"))
        else
          var last := LastTouching(published.local, path);
          (published, Ok(if last.Some? then Some(last.value.sha) else None))
  }

  // ---------------------------------------------------------------- what they guarantee

  /** Neither branch ever loses a commit. */
  predicate OnlyExtends(before: Repo, after: Repo) {
    before.remote <= after.remote && (before.cloned ==> after.cloned && before.local <= after.local)
  }

  lemma OpenAndPullExtends(r: Repo, ch: Circumstances)
    ensures OnlyExtends(r, OpenAndPull(r, ch).0)
    ensures OpenAndPull(r, ch).1 ==> OpenAndPull(r, ch).0.cloned
  {
    hide Updated, IsCommitted;
  }

  /** Whatever fails, the remote and the local branch are only ever extended. */
  lemma WriteOnlyExtends(r: Repo, path: string, content: Content, ch: Circumstances)
    ensures OnlyExtends(r, Write(r, path, content, ch).0)
  {
    hide OpenAndPull, ContentAt;
    OpenAndPullExtends(r, ch);
  }

  /**
   When `write_memory` returns, its push left the remote at a history whose tree holds the document, whatever state an
   earlier interrupted run left behind; a reported commit is the newest of its path and on the remote.
   */
  lemma WriteIsDurable(r: Repo, path: string, content: Content, ch: Circumstances)
    requires Write(r, path, content, ch).1.Ok?
    ensures
      var (after, result) := Write(r, path, content, ch);
      && after.local <= after.remote && ContentAt(after.local, path) == Some(content) && FileAt(after, path) == Some(content)
      && Holds(after.remote, path, content.sourceHash)
      && (result.value.changed ==>
            result.value.commitSha.Some?
            && LastTouching(after.local, path) == Some(Commit(result.value.commitSha.value, path, content)))
      && (!result.value.changed ==> result.value.commitSha.None?)
  {
    hide OpenAndPull, LastTouching, Holds;
    var (pulled, ok) := OpenAndPull(r, ch);
    if ch.sha.Some? {
      CommitSetsContent(pulled.local, Commit(ch.sha.value, path, content));
    }
    var after := Write(r, path, content, ch).0;
    ContentIsHeld(after.local, path, content);
    HeldForever(after.local, after.remote, path, content.sourceHash, "");
  }

  lemma HasSourceHashOnlyExtends(r: Repo, path: string, hash: string, ch: Circumstances)
    ensures OnlyExtends(r, HasSourceHash(r, path, hash, ch).0)
  {
    hide OpenAndPull;
    OpenAndPullExtends(r, ch);
  }

  lemma LatestOnlyExtends(r: Repo, path: string, refresh: bool, ch: Circumstances)
    ensures OnlyExtends(r, LatestMemoryCommit(r, path, refresh, ch).0)
  {
    hide Updated, IsCommitted, LastTouching;
  }

  /**
   A commit that `latest_memory_commit` returns is the newest one touching the path, and with it everything committed
   locally is on the remote, even after an earlier run that committed but failed to push.
   */
  lemma LatestIsDurable(r: Repo, path: string, refresh: bool, ch: Circumstances)
    requires
      var result := LatestMemoryCommit(r, path, refresh, ch).1;
      result.Ok? && result.value.Some?
    ensures
      var (after, result) := LatestMemoryCommit(r, path, refresh, ch);
      && after.local <= after.remote && (r.cloned ==> r.local <= after.remote)
      && LastTouching(after.local, path).Some? && LastTouching(after.local, path).value.sha == result.value.value
      && HasCommit(after.remote, path, result.value.value)
  {
    hide Updated, IsCommitted, LastTouching;
    var after := LatestMemoryCommit(r, path, refresh, ch).0;
    var c := LastTouching(after.local, path).value;
    var i :| 0 <= i < |after.local| && after.local[i] == c;
    assert after.remote[i] == c;
  }

  /** An answer names a commit if and only if the checkout has the file and some commit in it touches the file. */
  lemma LatestIff(r: Repo, path: string, refresh: bool, ch: Circumstances)
    ensures
      var (after, result) := LatestMemoryCommit(r, path, refresh, ch);
      result.Ok? ==>
        (result.value.Some? <==> path in after.worktree && exists i | 0 <= i < |after.local| :: after.local[i].path == path)
  {
    hide Updated, IsCommitted, LastTouching, Pull, CanPull;
    var after := LatestMemoryCommit(r, path, refresh, ch).0;
    var last := LastTouching(after.local, path);
    if last.Some? {
      var i :| 0 <= i < |after.local| && after.local[i] == last.value;
    } else {
      assert forall i | 0 <= i < |after.local| :: after.local[i] in after.local;
    }
  }

  /** A commit on a branch stays on it. */
  lemma DurableForever(history: History, later: History, c: Commit)
    requires c in history && history <= later
    ensures c in later
  {
    var i :| 0 <= i < |history| && history[i] == c;
    assert later[i] == c;
  }

  // ---------------------------------------------------------------- the live object

  class GitMemoryStore {
    var remote: History
    var cloned: bool
    var local: History
    var worktree: map<string, Content>

    ghost function Abs(): Repo
      reads this
    {
      Repo(remote, cloned, local, worktree)
    }

    constructor (remote: History)
      ensures Abs() == Repo(remote, false, [], map[])
    {
      this.remote, cloned, local, worktree := remote, false, [], map[];
    }

    /** Other writers only ever extend the remote branch. */
    method OthersPush() returns (more: History)
      modifies this`remote
      ensures Abs() == Others(old(Abs()), more)
    {
      more := *;
      remote := remote + more;
    }

    method EnsureCheckout() returns (opening: Opening)
      modifies this
      ensures Abs() == Open(old(Abs()), opening)
    {
      opening := *;
      if !cloned && !opening.CloneFails? {
        cloned, local := true, remote;
        worktree := Updated(map[], remote);
      }
    }

    method PullFastForward() returns (ok: bool)
      modifies this
      ensures ok ==> CanPull(old(Abs())) && Abs() == Pull(old(Abs()))
      ensures !ok ==> Abs() == old(Abs())
    {
      hide IsCommitted, Updated;
      var works: bool := *;
      ok := works && CanPull(Repo(remote, cloned, local, worktree));
      if ok && !(remote <= local) {
        worktree := Updated(worktree, remote[|local|..]);
        local := remote;
      }
    }

    method OpenCheckout() returns (ok: bool, ghost ch: Circumstances)
      modifies this
      ensures (Abs(), ok) == OpenAndPull(old(Abs()), ch)
    {
      hide CanPull, Pull, Open;
      var opening := EnsureCheckout();
      var before := OthersPush();
      ch := Circumstances(opening, before, false, false, None, [], false, []);
      if !opening.Opens? {
        return false, ch;
      }
      ok := PullFastForward();
      ch := ch.(pulls := ok);
    }

    method WriteAndCommit(path: string, content: Content, ghost start: Circumstances)
      returns (changed: Result<bool>, minted: string, ghost ch: Circumstances)
      modifies this
      ensures ch == start.(works := ch.works, sha := ch.sha)
      ensures (Abs(), changed) == Stage(old(Abs()), path, content, ch)
      ensures changed == Ok(true) ==> ch.sha == Some(minted)
    {
      hide LastTouching;
      var works: bool, sha: Option<string> := *, *;
      ch, minted := start.(works := works, sha := sha), "";
      if path !in worktree || worktree[path] != content {
        if !works {
          return Err("write"), minted, ch;
        }
        worktree := worktree[path := content];
      }
      assert worktree == worktree[path := content];
      if ContentAt(local, path) == Some(content) {
        return Ok(false), minted, ch;
      }
      if sha.None? {
        return Err("commit"), minted, ch;
      }
      local := local + [Commit(sha.value, path, content)];
      return Ok(true), sha.value, ch;
    }

    method PublishBranch(ghost start: Circumstances) returns (ok: bool, ghost ch: Circumstances)
      modifies this`remote
      ensures ch == start.(between := ch.between, pushes := ch.pushes, after := ch.after)
      ensures (Abs(), ok) == Publish(old(Abs()), ch)
    {
      var between := OthersPush();
      var works: bool := *;
      ch := start.(between := between, pushes := works);
      if !works || !(remote <= local) {
        return false, ch;
      }
      remote := local;
      var after := OthersPush();
      return true, ch.(after := after);
    }

    method WriteMemory(path: string, content: Content) returns (result: Result<WriteResult>, ghost ch: Circumstances)
      modifies this
      ensures (Abs(), result) == Write(old(Abs()), path, content, ch)
      ensures OnlyExtends(old(Abs()), Abs())
      ensures result.Ok? ==> local <= remote && ContentAt(local, path) == Some(content)
    {
      hide OpenAndPull, Stage, Publish, LastTouching, OnlyExtends, Holds;
      ghost var start := Abs();
      var ok: bool;
      ok, ch := OpenCheckout();
      if !ok {
        WriteOnlyExtends(start, path, content, ch);
        return Err("pull"), ch;
      }
      ghost var pulled, opening := Abs(), ch;
      var changed: Result<bool>, minted: string;
      changed, minted, ch := WriteAndCommit(path, content, ch);
      OpeningAlone(start, opening, ch);
      if changed.Err? {
        WriteOnlyExtends(start, path, content, ch);
        return Err(changed.reason), ch;
      }
      ghost var staged, staging := Abs(), ch;
      ok, ch := PublishBranch(ch);
      OpeningAlone(start, opening, ch);
      StagingAlone(pulled, path, content, staging, ch);
      WriteOnlyExtends(start, path, content, ch);
      if !ok {
        return Err("push"), ch;
      }
      result := Ok(WriteResult(path, changed.value, if changed.value then Some(minted) else None));
      WriteIsDurable(start, path, content, ch);
    }

    method HasHash(path: string, hash: string) returns (held: Option<bool>, ghost ch: Circumstances)
      modifies this
      ensures (Abs(), held) == HasSourceHash(old(Abs()), path, hash, ch)
      ensures OnlyExtends(old(Abs()), Abs())
    {
      hide OpenAndPull, OnlyExtends;
      ghost var start := Abs();
      var ok: bool, works: bool := *, *;
      ok, ch := OpenCheckout();
      ghost var opening := ch;
      ch := ch.(works := works);
      OpeningAlone(start, opening, ch);
      HasSourceHashOnlyExtends(start, path, hash, ch);
      if !ok || !works {
        return None, ch;
      }
      return Some(path in worktree && worktree[path].sourceHash == hash), ch;
    }

    method LatestCommit(path: string, refresh: bool) returns (result: Result<Option<string>>, ghost ch: Circumstances)
      modifies this
      ensures (Abs(), result) == LatestMemoryCommit(old(Abs()), path, refresh, ch)
      ensures OnlyExtends(old(Abs()), Abs())
      ensures result.Ok? && result.value.Some? ==> local <= remote && HasCommit(remote, path, result.value.value)
    {
      hide CanPull, Pull, Open, Publish, LastTouching, OnlyExtends, HasCommit;
      ghost var start := Abs();
      var opening := EnsureCheckout();
      var before := OthersPush();
      ch := Circumstances(opening, before, false, false, None, [], false, []);
      if !opening.Opens? {
        LatestOnlyExtends(start, path, refresh, ch);
        return Err("pull"), ch;
      }
      if refresh {
        var ok := PullFastForward();
        ch := ch.(pulls := ok);
        if !ok {
          LatestOnlyExtends(start, path, refresh, ch);
          return Err("pull"), ch;
        }
      }
      if path !in worktree {
        LatestOnlyExtends(start, path, refresh, ch);
        return Ok(None), ch;
      }
      var done: bool;
      done, ch := PublishBranch(ch);
      LatestOnlyExtends(start, path, refresh, ch);
      if !done {
        return Err("push"), ch;
      }
      var last := LastTouching(local, path);
      result := Ok(if last.Some? then Some(last.value.sha) else None);
      if last.Some? {
        LatestIsDurable(start, path, refresh, ch);
      }
    }
  }

  /** Opening and pulling depend only on their own circumstances. */
  lemma OpeningAlone(r: Repo, a: Circumstances, b: Circumstances)
    requires a.opening == b.opening && a.before == b.before && a.pulls == b.pulls
    ensures OpenAndPull(r, a) == OpenAndPull(r, b)
  {
  }

  lemma StagingAlone(r: Repo, path: string, content: Content, a: Circumstances, b: Circumstances)
    requires a.works == b.works && a.sha == b.sha
    ensures Stage(r, path, content, a) == Stage(r, path, content, b)
  {
  }
}
