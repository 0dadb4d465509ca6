/**
 * `_real_get_build` as a value-level specification: from the table, the
 * master head and the answers of git and of the build master, the build
 * returned, the table left behind, the changes sent and the number of
 * invocations (the first call plus its recursive re-resolution).
 */
module Resolution {
  import opened Wrappers
  import opened Text
  import opened BuildStore
  import DiffFiles

  /** What `get_merge(commit)` reports about merging a branch head into master. */
  datatype Merge =
    | UpToDate           // GIT_UPTODATE: already in master
    | FailedMerge        // GIT_FAILED_MERGE: conflicts
    | FastForward        // GIT_FASTFORWARD: master is an ancestor of the head
    | Merged(commit: Commit) // the merge commit of the head onto master

  /** The dictionary handed to the build master's `addChange`. */
  datatype Change = Change(
    project: string,
    repository: string,
    who: string,
    files: set<string>,
    comments: string,
    branch: string,
    revision: Commit,
    category: Option<string>,
    when: Option<int>,
    tracTicket: Option<string>,
    premergeRevision: Commit,
    revlink: string,
    src: string)

  /**
   * The collaborators the hook consults: `generic_lookup(name)[1]` (`None`
   * for KeyError/ValueError), `get_merge`, the text of
   * `self._git.diff(a, b).patch`, `commit_url`, and the answer the
   * child process puts on the queue after `addChange`.
   */
  datatype Oracles = Oracles(
    lookup: string -> Option<Commit>,
    merge: Commit -> Merge,
    patch: (Commit, Commit) -> string,
    commitUrl: Commit -> string,
    submit: Change -> bool)

  /** The outcome of one resolution. */
  datatype Run = Run(result: Option<BuildInfo>, table: Table, sent: seq<Change>, calls: nat)

  /** The commit to build: none for merged or conflicting heads, the head itself on a fast-forward, else the merge commit. */
  function TargetOf(commit: Commit, merge: Merge): (target: Option<Commit>)
    ensures target.None? <==> merge == UpToDate || merge == FailedMerge
    ensures merge == FastForward ==> target == Some(commit)
    ensures merge.Merged? ==> target == Some(merge.commit)
  {
    match merge
    case UpToDate => None
    case FailedMerge => None
    case FastForward => Some(commit)
    case Merged(c) => Some(c)
  }

  /** Python's `str(tracid)`. */
  function TicketText(tracid: Option<string>): string
  {
    match tracid
    case None => "None"
    case Some(id) => id
  }

  /** The change announcing a build of `target`, the merge of the branch head `commit`. */
  function ChangeFor(master: Commit, repository: string, o: Oracles, branch: string, author: string,
                     tracid: Option<string>, commit: Commit, target: Commit): Change
  {
    Change(
      project := "",
      repository := repository,
      who := author,
      files := DiffFiles.ChangedFiles(o.patch(master, target)),
      comments := "From Trac #" + TicketText(tracid) + " (http://trac.sagemath.org/" + TicketText(tracid) + ")",
      branch := branch,
      revision := target,
      category := None,
      when := None,
      tracTicket := tracid,
      premergeRevision := commit,
      revlink := o.commitUrl(target),
      src := "git")
  }

  /**
   * The change announces the build of `target` for the head `commit`: the
   * revision is the target, the pre-merge revision the head, the files are
   * the paths the patch from master to the target names, and the comments
   * point at the ticket.
   */
  lemma ChangeAnnouncesTarget(master: Commit, repository: string, o: Oracles, branch: string, author: string,
                              tracid: Option<string>, commit: Commit, target: Commit)
    ensures var c := ChangeFor(master, repository, o, branch, author, tracid, commit, target);
      c.revision == target && c.premergeRevision == commit && c.revlink == o.commitUrl(target) &&
      (forall f :: f in c.files <==> DiffFiles.NamedIn(Split(o.patch(master, target), '\n'), f)) &&
      c.who == author && c.branch == branch && c.tracTicket == tracid && c.repository == repository &&
      c.src == "git" && c.category.None? && c.when.None? &&
      c.comments[..11] == "From Trac #"
  {
    var c := ChangeFor(master, repository, o, branch, author, tracid, commit, target);
    forall f ensures f in c.files <==> DiffFiles.NamedIn(Split(o.patch(master, target), '\n'), f) {
    }
  }

  /** 1 while a resolution of `branch` would still miss the cache, else 0. */
  function Pending(t: Table, master: Commit, o: Oracles, branch: string): nat
  {
    match o.lookup(Strip(branch))
    case None => 0
    case Some(c) => if IsCurrent(t, master, c) then 0 else 1
  }

  /**
   * `_real_get_build(branch, author, tracid)`: look the branch up, serve a
   * current cache row, skip merged and conflicting heads, announce the
   * build, record the head as queued on acceptance and resolve again.
   */
  function Resolve(t: Table, master: Commit, repository: string, o: Oracles,
                   branch: string, author: string, tracid: Option<string>): (run: Run)
    ensures run.calls >= 1
    decreases Pending(t, master, o, branch)
  {
    match o.lookup(Strip(branch))
    case None => Run(None, t, [], 1)
    case Some(commit) =>
      var cached := Fetch(t, master, commit);
      if cached.info.Some? then Run(cached.info, cached.table, [], 1)
      else
        match TargetOf(commit, o.merge(commit))
        case None => Run(None, cached.table, [], 1)
        case Some(target) =>
          var change := ChangeFor(master, repository, o, branch, author, tracid, commit, target);
          if !o.submit(change) then Run(None, cached.table, [change], 1)
          else
            var queued := Stored(cached.table, master, commit, None, None, None);
            var again := Resolve(queued, master, repository, o, branch, author, tracid);
            Run(again.result, again.table, [change] + again.sent, again.calls + 1)
  }

  /** A branch name git cannot resolve yields no build and touches nothing. */
  lemma UnknownBranchIsNoBuild(t: Table, master: Commit, repository: string, o: Oracles,
                               branch: string, author: string, tracid: Option<string>)
    requires o.lookup(Strip(branch)).None?
    ensures Resolve(t, master, repository, o, branch, author, tracid) == Run(None, t, [], 1)
  {
  }

  /** A current cache row is returned as is, without notifying the build master. */
  lemma CacheHitShortCircuits(t: Table, master: Commit, repository: string, o: Oracles,
                              branch: string, author: string, tracid: Option<string>, commit: Commit)
    requires o.lookup(Strip(branch)) == Some(commit)
    requires IsCurrent(t, master, commit)
    ensures Resolve(t, master, repository, o, branch, author, tracid) == Run(Some(InfoOf(t.value[commit])), t, [], 1)
  {
  }

  /** Heads already in master or that do not merge are never built: nothing is sent, nothing written. */
  lemma UnbuildableMergeShortCircuits(t: Table, master: Commit, repository: string, o: Oracles,
                                      branch: string, author: string, tracid: Option<string>, commit: Commit)
    requires o.lookup(Strip(branch)) == Some(commit)
    requires !IsCurrent(t, master, commit)
    requires o.merge(commit) == UpToDate || o.merge(commit) == FailedMerge
    ensures Resolve(t, master, repository, o, branch, author, tracid) == Run(None, Fetch(t, master, commit).table, [], 1)
  {
  }

  /**
   * On a cache miss for a buildable head exactly one change is sent first:
   * its revision is the head on a fast-forward and the merge commit
   * otherwise, its pre-merge revision always the head.
   */
  lemma {:induction false} AnnouncedRevisions(t: Table, master: Commit, repository: string, o: Oracles,
                                              branch: string, author: string, tracid: Option<string>, commit: Commit)
    requires o.lookup(Strip(branch)) == Some(commit)
    requires !IsCurrent(t, master, commit)
    requires o.merge(commit) != UpToDate && o.merge(commit) != FailedMerge
    ensures var run := Resolve(t, master, repository, o, branch, author, tracid);
      |run.sent| == 1 &&
      run.sent[0].revision == (if o.merge(commit) == FastForward then commit else o.merge(commit).commit) &&
      run.sent[0].premergeRevision == commit &&
      run.sent[0].branch == branch && run.sent[0].src == "git" &&
      run.sent[0].files == DiffFiles.ChangedFiles(o.patch(master, run.sent[0].revision))
  {
    var cached := Fetch(t, master, commit);
    var target := TargetOf(commit, o.merge(commit)).value;
    var change := ChangeFor(master, repository, o, branch, author, tracid, commit, target);
    if o.submit(change) {
      var queued := Stored(cached.table, master, commit, None, None, None);
      ReadYourWrite(cached.table, master, commit, None, None, None);
      assert Resolve(queued, master, repository, o, branch, author, tracid).sent == [];
    }
  }

  /** A rejected (or undeliverable) change yields no build and writes no row. */
  lemma RejectedChangeIsNoBuild(t: Table, master: Commit, repository: string, o: Oracles,
                                branch: string, author: string, tracid: Option<string>, commit: Commit, target: Commit)
    requires o.lookup(Strip(branch)) == Some(commit)
    requires !IsCurrent(t, master, commit)
    requires TargetOf(commit, o.merge(commit)) == Some(target)
    requires !o.submit(ChangeFor(master, repository, o, branch, author, tracid, commit, target))
    ensures var run := Resolve(t, master, repository, o, branch, author, tracid);
      run.result.None? && run.table == Fetch(t, master, commit).table && |run.sent| == 1
  {
  }

  /**
   * An accepted change caches the pre-merge head, not the merge commit, as
   * queued; the one re-resolution then hits that row and returns
   * `(None, None, None)`.
   */
  lemma {:induction false} AcceptedChangeIsQueued(t: Table, master: Commit, repository: string, o: Oracles,
                                                  branch: string, author: string, tracid: Option<string>, commit: Commit, target: Commit)
    requires o.lookup(Strip(branch)) == Some(commit)
    requires !IsCurrent(t, master, commit)
    requires TargetOf(commit, o.merge(commit)) == Some(target)
    requires o.submit(ChangeFor(master, repository, o, branch, author, tracid, commit, target))
    ensures var run := Resolve(t, master, repository, o, branch, author, tracid);
      run.result == Some(BuildInfo(None, None, None)) &&
      run.table == Stored(Fetch(t, master, commit).table, master, commit, None, None, None) &&
      run.calls == 2
  {
    var queued := Stored(Fetch(t, master, commit).table, master, commit, None, None, None);
    ReadYourWrite(Fetch(t, master, commit).table, master, commit, None, None, None);
    assert Resolve(queued, master, repository, o, branch, author, tracid) == Run(Some(BuildInfo(None, None, None)), queued, [], 1);
  }

  /** With master fixed the recursion stops after at most one extra call, and at most one change is sent. */
  lemma {:induction false} AtMostOneReResolution(t: Table, master: Commit, repository: string, o: Oracles,
                                                 branch: string, author: string, tracid: Option<string>)
    ensures var run := Resolve(t, master, repository, o, branch, author, tracid);
      run.calls <= 2 && |run.sent| <= 1 && (run.calls == 2 ==> run.result == Some(BuildInfo(None, None, None)))
  {
    match o.lookup(Strip(branch))
    case None =>
    case Some(commit) =>
      if !IsCurrent(t, master, commit) {
        match TargetOf(commit, o.merge(commit))
        case None =>
        case Some(target) =>
          if o.submit(ChangeFor(master, repository, o, branch, author, tracid, commit, target)) {
            AcceptedChangeIsQueued(t, master, repository, o, branch, author, tracid, commit, target);
            AnnouncedRevisions(t, master, repository, o, branch, author, tracid, commit);
          }
      }
  }

  /** Every build a resolution returns is backed by a current row of the table it leaves. */
  lemma {:induction false} ReturnedBuildIsCached(t: Table, master: Commit, repository: string, o: Oracles,
                                                 branch: string, author: string, tracid: Option<string>)
    ensures var run := Resolve(t, master, repository, o, branch, author, tracid);
      run.result.Some? ==>
        o.lookup(Strip(branch)).Some? &&
        IsCurrent(run.table, master, o.lookup(Strip(branch)).value) &&
        run.result.value == InfoOf(run.table.value[o.lookup(Strip(branch)).value])
  {
    match o.lookup(Strip(branch))
    case None =>
    case Some(commit) =>
      if !IsCurrent(t, master, commit) {
        match TargetOf(commit, o.merge(commit))
        case None =>
        case Some(target) =>
          if o.submit(ChangeFor(master, repository, o, branch, author, tracid, commit, target)) {
            AcceptedChangeIsQueued(t, master, repository, o, branch, author, tracid, commit, target);
          }
      }
  }

  /** Resolving again, master unchanged, after a resolution that found a build: a pure read, nothing sent. */
  lemma SecondResolutionIsPureRead(t: Table, master: Commit, repository: string, o: Oracles,
                                   branch: string, author: string, tracid: Option<string>)
    requires Resolve(t, master, repository, o, branch, author, tracid).result.Some?
    ensures var first := Resolve(t, master, repository, o, branch, author, tracid);
      Resolve(first.table, master, repository, o, branch, author, tracid) == Run(first.result, first.table, [], 1)
  {
    ReturnedBuildIsCached(t, master, repository, o, branch, author, tracid);
  }

  /** A head that is already merged or does not merge stays unbuilt on every later resolution, and nothing is ever sent. */
  lemma {:induction false} UnbuildableStaysUnbuilt(t: Table, master: Commit, repository: string, o: Oracles,
                                                   branch: string, author: string, tracid: Option<string>, commit: Commit)
    requires o.lookup(Strip(branch)) == Some(commit)
    requires !IsCurrent(t, master, commit)
    requires o.merge(commit) == UpToDate || o.merge(commit) == FailedMerge
    ensures var first := Resolve(t, master, repository, o, branch, author, tracid);
      var second := Resolve(first.table, master, repository, o, branch, author, tracid);
      first.result.None? && first.sent == [] && second.result.None? && second.sent == [] &&
      !HasRow(first.table, commit) && !HasRow(second.table, commit)
  {
    var first := Resolve(t, master, repository, o, branch, author, tracid);
    UnbuildableMergeShortCircuits(t, master, repository, o, branch, author, tracid, commit);
    assert !IsCurrent(first.table, master, commit);
    UnbuildableMergeShortCircuits(first.table, master, repository, o, branch, author, tracid, commit);
  }

  /**
   * When master has moved past the cached row of the head, the whole table
   * is dropped: afterwards it holds at most the head's new queued row.
   */
  lemma {:induction false} MovedMasterPurgesOtherRows(t: Table, master: Commit, repository: string, o: Oracles,
                                                      branch: string, author: string, tracid: Option<string>, commit: Commit)
    requires o.lookup(Strip(branch)) == Some(commit)
    requires HasRow(t, commit) && t.value[commit].base != master
    ensures var run := Resolve(t, master, repository, o, branch, author, tracid);
      run.table.None? || run.table == Some(map[commit := Row(master, commit, None, None, None)])
  {
    var run := Resolve(t, master, repository, o, branch, author, tracid);
    assert Fetch(t, master, commit) == Lookup(None, None);
    match TargetOf(commit, o.merge(commit))
    case None =>
      assert run.table.None?;
    case Some(target) =>
      if o.submit(ChangeFor(master, repository, o, branch, author, tracid, commit, target)) {
        AcceptedChangeIsQueued(t, master, repository, o, branch, author, tracid, commit, target);
        assert run.table == Some(map[commit := Row(master, commit, None, None, None)]);
      } else {
        assert run.table.None?;
      }
  }

  /** Resolution keeps every row under its own target. */
  lemma {:induction false} ResolveKeepsKeyed(t: Table, master: Commit, repository: string, o: Oracles,
                                             branch: string, author: string, tracid: Option<string>)
    requires Keyed(t)
    ensures Keyed(Resolve(t, master, repository, o, branch, author, tracid).table)
  {
    match o.lookup(Strip(branch))
    case None =>
    case Some(commit) =>
      OperationsKeepKeyed(t, master, commit, None, None, None);
      if !IsCurrent(t, master, commit) {
        match TargetOf(commit, o.merge(commit))
        case None =>
        case Some(target) =>
          if o.submit(ChangeFor(master, repository, o, branch, author, tracid, commit, target)) {
            AcceptedChangeIsQueued(t, master, repository, o, branch, author, tracid, commit, target);
            OperationsKeepKeyed(Fetch(t, master, commit).table, master, commit, None, None, None);
          }
      }
  }
}
