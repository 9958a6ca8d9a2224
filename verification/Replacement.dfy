/** Replacement scans: what the sweep at the end of a replacement leaves. However the source
    changes meanwhile, it leaves exactly what the job committed and the user did not delete
    since. So everything stays that was listed all the time, and everything goes that was not
    listed once while the job was active. If only its user deletes from the source meanwhile,
    the library is the source as it is at the end. */
module Replacement {
  import opened Wrappers
  import opened ScanRows
  import opened TelegramAuth
  import opened ScanTransactions
  import opened StoreRules
  import opened Scanner
  import opened ScanProtocol
  import opened ProtocolInvariant
  import opened ScanSafety
  import opened Fencing
  import opened SourceViews
  import opened ExactlyOnce
  import opened Completion
  import opened JobLibraries

  // ---------- What the user deleted ----------

  /** The user deletes a message that job `id` has committed, locally or everywhere, while the
      job is active. */
  predicate DeletesCommitted(s: World, a: Action, id: JobId, t: int) {
    && Deletes(s, a) && id in s.store.jobs && IsActive(s.store.jobs[id]) && s.store.jobs[id].user == a.user
    && t in Committed(s, id) && LibraryKey(s.store.jobs[id], t) in a.keys
  }

  predicate DeletedAfterCommit(run: seq<World>, actions: seq<Action>, i: nat, id: JobId, t: int)
    requires i <= |actions| && i < |run|
  {
    exists m :: 0 <= m < i && DeletesCommitted(run[m], actions[m], id, t)
  }

  lemma RemovedGrows(s: World, a: Action, s': World, id: JobId, t: int)
    requires Next(s, a, s') && forall j :: j in s.removed ==> j in s.store.jobs
    ensures t in Removed(s', id) <==> t in Removed(s, id) || DeletesCommitted(s, a, id, t)
  {
    hide Next, LibraryKey, Deletes;
    RemovedStays(s, a, s');
    if Deletes(s, a) { ForgottenAre(s, a, s', id, t); }
  }

  lemma ForgottenAre(s: World, a: Action, s': World, id: JobId, t: int)
    requires Deletes(s, a) && s'.removed == Forget(s, a.user, a.keys) && forall j :: j in s.removed ==> j in s.store.jobs
    ensures t in Removed(s', id) <==> t in Removed(s, id) || DeletesCommitted(s, a, id, t)
  {
    hide LibraryKey, Deletes, IsActive;
  }

  /** In every run, the removed ids of a job are exactly the committed ones the user deleted
      while it was active. */
  lemma {:induction false} RemovedIsDeleted(run: seq<World>, actions: seq<Action>, i: nat, id: JobId, t: int)
    requires IsRun(run, actions) && i < |run|
    ensures t in Removed(run[i], id) <==> DeletedAfterCommit(run, actions, i, id, t)
    ensures forall j :: j in run[i].removed ==> j in run[i].store.jobs
  {
    hide Next, Inv, DeletesCommitted;
    if i > 0 {
      RemovedIsDeleted(run, actions, i - 1, id, t);
      InvAlways(run, actions, i - 1);
      RemovedGrows(run[i - 1], actions[i - 1], run[i], id, t);
      RemovedKeysStay(run[i - 1], actions[i - 1], run[i]);
    }
  }

  // ---------- The sweep ----------

  /** The job of a slice that ends with "source exhausted" is complete, and its user's library
      holds what it committed. */
  lemma ExhaustedLibrary(s: World, w: WorkerId, now: int)
    requires Inv(s) && ImportInv(s) && LibraryFits(s) && Exhausted(WorkerOf(s, w)) && Holds(s.store, WorkerOf(s, w).lease, now)
    ensures var l := WorkerOf(s, w).lease;
            var job, committed := s.store.jobs[l.job], Committed(s, l.job);
            && IsActive(job) && job.user == l.user && job.provenance == Some(l.provenance) && job.replace == l.replace
            && HoldsCommits(l.job, job, committed, Removed(s, l.job), s.store.messages)
            && MarksCommits(l.job, job, committed, Removed(s, l.job), s.store.messages)
            && IsComplete(committed, 0, ViewOf(s, l.job))
            && forall t :: t in committed ==> t in ViewOf(s, l.job).ever
  {
    SliceFits(s, w);
    var l := WorkerOf(s, w).lease;
    assert ExhaustionIsTrue(s, s.workers[w]);
    assert HasImported(s.store.jobs[l.job], Committed(s, l.job), ViewOf(s, l.job));
    assert JobLibrary(l.job, s.store.jobs[l.job], Committed(s, l.job), Removed(s, l.job), s.store.messages);
    hide GoodStore, FreshTokens, WorkersFit, HoldsCommits, MarksCommits;
  }

  /** The only reason that completes a slice with "source exhausted" is that the worker found
      the source exhausted. */
  lemma ExhaustedDisposition(v: Worker, now: int)
    requires v.Slice? && v.ending.Some? && v.ending.value.Ended? && Disposition(v, now) == Some((Completed, SourceExhausted))
    ensures Exhausted(v)
  {
  }

  /** What the sweep leaves of the library of its user: exactly what the job committed and the
      user did not delete since. */
  lemma SweepLeavesCommitted(run: seq<World>, actions: seq<Action>, i: nat, k: Key)
    requires IsHonestRun(run, actions) && i < |actions| && IsSweep(run[i], actions[i], run[i + 1].clock)
    requires k.user == WorkerOf(run[i], actions[i].w).lease.user
    ensures var l := WorkerOf(run[i], actions[i].w).lease;
            && l.job in run[i].store.jobs && IsActive(run[i].store.jobs[l.job])
            && run[i].store.jobs[l.job].user == l.user && run[i].store.jobs[l.job].provenance == Some(l.provenance)
            && (k in run[i + 1].store.messages <==>
                  && k.principal == Some(l.provenance.principal) && k.tid in Committed(run[i], l.job)
                  && !DeletedAfterCommit(run, actions, i, l.job, k.tid))
            && IsComplete(Committed(run[i], l.job), 0, ViewOf(run[i], l.job))
            && forall t :: t in Committed(run[i], l.job) ==> t in ViewOf(run[i], l.job).ever
  {
    hide Next, Init, Honest, Inv, ImportInv, LibraryFits, DeletedAfterCommit, Finish, Disposition, IsComplete;
    var s, a, s' := run[i], actions[i], run[i + 1];
    var l := WorkerOf(s, a.w).lease;
    InvAlways(run, actions, i);
    ImportAlways(run, actions, i);
    LibraryAlways(run, actions, i);
    FinishIs(s, a, s');
    FinishShrinks(s, a.w, a.decided, s'.clock);
    ExhaustedDisposition(WorkerOf(s, a.w), a.decided);
    ExhaustedLibrary(s, a.w, s'.clock);
    RemovedIsDeleted(run, actions, i, l.job, k.tid);
  }

  /** A job with a provenance was created by a step of the run. */
  lemma {:induction false} BoundJobsWereCreated(run: seq<World>, actions: seq<Action>, i: nat, id: JobId) returns (c: nat)
    requires IsRun(run, actions) && i < |run| && id in run[i].store.jobs && run[i].store.jobs[id].provenance.Some?
    ensures c <= i && IsCreatedAt(run, actions, c, id)
  {
    hide Next, Inv;
    if i == 0 {
      assert false;
    } else if id !in run[i - 1].store.jobs {
      c := i;
    } else {
      InvAlways(run, actions, i - 1);
      JobsMoveForward(run[i - 1], actions[i - 1], run[i], id);
      c := BoundJobsWereCreated(run, actions, i - 1, id);
    }
  }

  /** Replacement correctness, however the source changes. Right after a sweep the
      library of its user is exactly what the job committed, minus what the user deleted after the
      job had committed it. So a message listed all the time while the job was active and not so
      deleted is there, and a row that is there was listed at some time: a message that had left
      Telegram before the job has left the library. */
  lemma ReplacementIsExact(run: seq<World>, actions: seq<Action>, i: nat, k: Key)
    requires IsHonestRun(run, actions) && i < |actions| && IsSweep(run[i], actions[i], run[i + 1].clock)
    requires k.user == WorkerOf(run[i], actions[i].w).lease.user
    ensures var l := WorkerOf(run[i], actions[i].w).lease;
            var mine := k.principal == Some(l.provenance.principal) && !DeletedAfterCommit(run, actions, i, l.job, k.tid);
            var kept := k in run[i + 1].store.messages;
            && (kept <==> mine && k.tid in Committed(run[i], l.job))
            && (mine && (forall m :: 0 <= m <= i ==> !Lacks(run[m], l.job, k.tid)) ==> kept)
            && (kept ==> exists m :: 0 <= m <= i && Lists(run[m], l.job, k.tid))
  {
    hide Next, Init, Honest, Lacks, Lists, DeletedAfterCommit, Disposition, Holds;
    SweepLeavesCommitted(run, actions, i, k);
    var c := BoundJobsWereCreated(run, actions, i, WorkerOf(run[i], actions[i].w).lease.job);
    ViewIsHistory(run, actions, c, i, WorkerOf(run[i], actions[i].w).lease.job, k.tid);
  }

  /** If the source stays as it is while the job is active, the sweep leaves exactly the source,
      minus what the user deleted locally after the job had committed it. */
  lemma SteadyReplacementIsTheSource(run: seq<World>, actions: seq<Action>, i: nat, source: seq<int>, k: Key)
    requires IsHonestRun(run, actions) && i < |actions| && IsSweep(run[i], actions[i], run[i + 1].clock)
    requires forall m :: 0 <= m <= i ==> IsSteady(run[m], WorkerOf(run[i], actions[i].w).lease.job, source)
    requires k.user == WorkerOf(run[i], actions[i].w).lease.user
    ensures var l := WorkerOf(run[i], actions[i].w).lease;
            k in run[i + 1].store.messages <==>
              k.principal == Some(l.provenance.principal) && k.tid in source && !DeletedAfterCommit(run, actions, i, l.job, k.tid)
  {
    hide Next, Init, Honest, DeletedAfterCommit, Disposition, Holds, IsSteady;
    SweepLeavesCommitted(run, actions, i, k);
    var c := BoundJobsWereCreated(run, actions, i, WorkerOf(run[i], actions[i].w).lease.job);
    SteadyView(run, actions, c, i, WorkerOf(run[i], actions[i].w).lease.job, source);
    assert k.tid in source <==> k.tid in IdSet(source);
  }

  /** An import that is not a replacement, too, ends with everything in the library that was
      listed ever since the job was created and not deleted after the job had committed it. */
  lemma CompletedImportIsComplete(run: seq<World>, actions: seq<Action>, i: nat, k: Key)
    requires IsHonestRun(run, actions) && i < |actions| && actions[i].FinishSlice?
    requires Exhausted(WorkerOf(run[i], actions[i].w)) && Holds(run[i].store, WorkerOf(run[i], actions[i].w).lease, run[i + 1].clock)
    requires var l := WorkerOf(run[i], actions[i].w).lease;
             && k.user == l.user && k.principal == Some(l.provenance.principal)
             && (forall m :: 0 <= m <= i ==> !Lacks(run[m], l.job, k.tid))
             && !DeletedAfterCommit(run, actions, i, l.job, k.tid)
    ensures k in run[i + 1].store.messages
  {
    hide Next, Init, Honest, Inv, ImportInv, LibraryFits, DeletedAfterCommit, Finish, Disposition, Lacks, Lists;
    var s, a, s' := run[i], actions[i], run[i + 1];
    var l := WorkerOf(s, a.w).lease;
    InvAlways(run, actions, i);
    ImportAlways(run, actions, i);
    LibraryAlways(run, actions, i);
    FinishIs(s, a, s');
    FinishShrinks(s, a.w, a.decided, s'.clock);
    ExhaustedLibrary(s, a.w, s'.clock);
    RemovedIsDeleted(run, actions, i, l.job, k.tid);
    var c := BoundJobsWereCreated(run, actions, i, l.job);
    ViewIsHistory(run, actions, c, i, l.job, k.tid);
  }

  // ---------- Deleting from the source during a replacement ----------

  /** The source of the active job `id` changes only because its user deletes from it here. */
  predicate OnlyItsUserDeletes(s: World, a: Action, id: JobId) {
    id in s.store.jobs && IsActive(s.store.jobs[id]) && SourceChange(s, a).Some?
    && Principal(s.store.jobs[id]) == Some(SourceChange(s, a).value.0) ==>
      a.DeleteRemotely? && a.user == s.store.jobs[id].user
  }

  /** What is listed now was listed all the time, and what the job committed is still listed
      unless it was deleted here. */
  predicate Mirrors(s: World, id: JobId) {
    id in s.store.jobs && IsActive(s.store.jobs[id]) ==>
      && ViewOf(s, id).always == IdSet(JobSource(s, s.store.jobs[id]))
      && forall t :: t in Committed(s, id) && t !in Removed(s, id) ==> t in JobSource(s, s.store.jobs[id])
  }

  /** A deletion of the job's own user takes the same messages from the source as from what the
      job has to show for itself. */
  lemma DeletionThinsSource(s: World, a: Action, s': World, id: JobId)
    requires Inv(s) && Next(s, a, s') && a.DeleteRemotely? && Deletes(s, a) && id in s.store.jobs && IsActive(s.store.jobs[id])
    requires s.store.jobs[id].user == a.user && Principal(s.store.jobs[id]) == Some(a.provenance.principal)
    ensures var j := s.store.jobs[id];
            && (forall t :: t in JobSource(s', j) <==> t in JobSource(s, j) && LibraryKey(j, t) !in a.keys)
            && Removed(s', id) == Removed(s, id) + set t | t in Committed(s, id) && LibraryKey(j, t) in a.keys
  {
    hide Next, Inv, DeletesRemotely, Descending, Source, Committed;
    DeletedKeysAreMine(s, a, s', id);
    SourceDescends(s, s.store.jobs[id]);
    RemovedStays(s, a, s');
    DeletionLeaves(s, a, s', s.store.jobs[id]);
    WithoutKeys(s.store.jobs[id], JobSource(s, s.store.jobs[id]), a.keys);
  }

  lemma DeletionLeaves(s: World, a: Action, s': World, j: Job)
    requires Next(s, a, s') && a.DeleteRemotely? && Deletes(s, a) && Principal(j) == Some(a.provenance.principal)
    ensures JobSource(s', j) == Without(JobSource(s, j), set k | k in a.keys :: k.tid)
  {
    hide Next, Without, Watch, FirstView, DeletesRemotely;
    ListingStep(s, a, s');
  }

  lemma WithoutKeys(j: Job, source: seq<int>, keys: set<Key>)
    requires Descending(source) && forall k :: k in keys ==> k == LibraryKey(j, k.tid)
    ensures forall t :: t in Without(source, set k | k in keys :: k.tid) <==> t in source && LibraryKey(j, t) !in keys
  {
    hide Descending, Without;
    var gone := set k | k in keys :: k.tid;
    WithoutDescends(source, gone);
    forall t ensures t in gone <==> LibraryKey(j, t) in keys {
      if LibraryKey(j, t) in keys { assert LibraryKey(j, t).tid in gone; }
    }
  }

  lemma SourceDescends(s: World, j: Job)
    requires Inv(s)
    ensures Descending(JobSource(s, j))
  {
    hide GoodStore, FreshTokens, WorkersFit;
  }

  lemma DeletedKeysAreMine(s: World, a: Action, s': World, id: JobId)
    requires Next(s, a, s') && a.DeleteRemotely? && id in s.store.jobs
    requires s.store.jobs[id].user == a.user && Principal(s.store.jobs[id]) == Some(a.provenance.principal)
    ensures forall k :: k in a.keys ==> k == LibraryKey(s.store.jobs[id], k.tid)
  {
    hide DoUser;
  }

  lemma DeletionMirrors(s: World, a: Action, s': World, id: JobId)
    requires Inv(s) && Next(s, a, s') && a.DeleteRemotely? && Deletes(s, a) && id in s.store.jobs && IsActive(s.store.jobs[id])
    requires s.store.jobs[id].user == a.user && Principal(s.store.jobs[id]) == Some(a.provenance.principal)
    requires Mirrors(s, id)
    ensures forall t :: t in Committed(s', id) && t !in Removed(s', id) ==> t in JobSource(s', s.store.jobs[id])
    ensures forall t :: t in JobSource(s', s.store.jobs[id]) ==> t in JobSource(s, s.store.jobs[id])
  {
    hide Next, Inv, JobSource, DeletesRemotely;
    DeletionThinsSource(s, a, s', id);
    assert !Persists(s, a, s'.clock);
    StepCommitsNothing(s, a, s');
  }

  /** What a prompt page adds is listed. */
  lemma PromptPageIsListed(s: World, a: Action, s': World, id: JobId)
    requires Inv(s) && Next(s, a, s') && Prompt(s, a) && id in s.store.jobs
    ensures forall t :: t in Committed(s', id) ==> t in Committed(s, id) || t in JobSource(s, s.store.jobs[id])
  {
    hide Next, Inv, Persists, BuildPage, Commit, Prompt;
    if Persists(s, a, s'.clock) {
      PersistsIs(s, a, s'.clock);
      CommitIs(s, a, s');
      CommitAdvances(s, a.w, a.raw, a.keep, s'.clock);
      FetchedIsListed(s, a);
    } else {
      StepCommitsNothing(s, a, s');
    }
  }

  lemma FetchedIsListed(s: World, a: Action)
    requires Inv(s) && Prompt(s, a) && a.CommitPage? && MayFetch(WorkerOf(s, a.w))
    requires a.keep <= |BuildPage(a.raw, Capacity(WorkerOf(s, a.w))).messages|
    ensures var l := WorkerOf(s, a.w).lease;
            && l.job in s.store.jobs
            && forall t :: t in Ids(PageFor(WorkerOf(s, a.w), a.raw, a.keep).messages) ==> t in JobSource(s, s.store.jobs[l.job])
  {
    var v := WorkerOf(s, a.w);
    SliceFits(s, a.w);
    PageIsPrefix(v, a.raw, a.keep);
    hide Inv, MayFetch, Capacity, WorkersFit;
    var page, source := PageFor(v, a.raw, a.keep).messages, Source(s, v.lease.provenance.principal);
    var n := BelowIsSuffix(source, v.offset);
    forall t | t in Ids(page) ensures t in source {
      var i :| 0 <= i < |page| && page[i].tid == t;
      assert Ids(a.raw)[i] == t && Below(source, v.offset)[i] == t;
    }
    hide GoodStore, FreshTokens, WorkersFit, BuildPage, CutPage;
  }

  lemma MirrorStep(s: World, a: Action, s': World, id: JobId)
    requires Inv(s) && ViewsFit(s') && Next(s, a, s') && Prompt(s, a) && OnlyItsUserDeletes(s, a, id) && Mirrors(s, id)
    requires id in s.store.jobs && id in s'.store.jobs && s.store.jobs[id].provenance.Some? && IsActive(s.store.jobs[id])
    ensures Mirrors(s', id)
  {
    hide Next, Inv, Prompt, Without, Watch, FirstView, DeletesRemotely;
    ListingStep(s, a, s');
    PromptPageIsListed(s, a, s', id);
    RemovedOnlyGrow(s, a, s', id);
    var j := s.store.jobs[id];
    if SourceChange(s, a).Some? && Principal(j) == Some(SourceChange(s, a).value.0) { DeletionMirrors(s, a, s', id); }
    JobsMoveForward(s, a, s', id);
    forall t ensures IsActive(s'.store.jobs[id]) ==> (t in ViewOf(s', id).always <==> t in JobSource(s', j)) {
      OldJobViews(s, a, s', id, t);
    }
  }

  lemma RemovedOnlyGrow(s: World, a: Action, s': World, id: JobId)
    requires Next(s, a, s') && id in s.store.jobs
    ensures Removed(s, id) <= Removed(s', id)
  {
    hide Next, Deletes;
    RemovedStays(s, a, s');
  }

  lemma {:induction false} MirrorsAlways(run: seq<World>, actions: seq<Action>, c: nat, i: nat, id: JobId)
    requires IsPromptRun(run, actions) && IsCreatedAt(run, actions, c, id) && c <= i < |run|
    requires forall m :: c <= m < i ==> OnlyItsUserDeletes(run[m], actions[m], id)
    ensures Mirrors(run[i], id)
  {
    hide Next, Inv, Init, Prompt, Honest, ImportInv, ViewsFit, OnlyItsUserDeletes, Mirrors;
    InvAlways(run, actions, i - 1);
    if i == c {
      PromptRunsAreHonest(run, actions);
      ImportAlways(run, actions, c);
      NewJobMirrors(run[c - 1], actions[c - 1], run[c], id);
    } else {
      MirrorsAlways(run, actions, c, i - 1, id);
      ViewsFitAlways(run, actions, i);
      ViewIsHistory(run, actions, c, i - 1, id, 0);
      JobsMoveForward(run[i - 1], actions[i - 1], run[i], id);
      if IsActive(run[i - 1].store.jobs[id]) { MirrorStep(run[i - 1], actions[i - 1], run[i], id); }
      else { OverIsMirrored(run[i], id); }
    }
  }

  lemma OverIsMirrored(s: World, id: JobId)
    requires id in s.store.jobs && !IsActive(s.store.jobs[id])
    ensures Mirrors(s, id)
  {
  }

  lemma NewJobMirrors(s: World, a: Action, s': World, id: JobId)
    requires Inv(s) && ImportInv(s') && Next(s, a, s') && id !in s.store.jobs && id in s'.store.jobs
    ensures Mirrors(s', id)
  {
    hide Next, SourceChange, GoodStore, FreshTokens, WorkersFit;
    NewJobSees(s, a, s', id);
    NewJobIs(s, a, s', id);
    assert HasImported(s'.store.jobs[id], Committed(s', id), ViewOf(s', id));
  }

  /** If Telegram answers promptly and only its user deletes from the source while the job is
      active, the sweep leaves exactly the source as it is then, minus what the user deleted
      locally after the job had committed it. */
  lemma ReplacementUnderDeletions(run: seq<World>, actions: seq<Action>, i: nat, k: Key)
    requires IsPromptRun(run, actions) && i < |actions| && IsSweep(run[i], actions[i], run[i + 1].clock)
    requires forall m :: 0 <= m < i ==> OnlyItsUserDeletes(run[m], actions[m], WorkerOf(run[i], actions[i].w).lease.job)
    requires k.user == WorkerOf(run[i], actions[i].w).lease.user
    ensures var l := WorkerOf(run[i], actions[i].w).lease;
            k in run[i + 1].store.messages <==>
              && k.principal == Some(l.provenance.principal) && k.tid in Source(run[i], l.provenance.principal)
              && !DeletedAfterCommit(run, actions, i, l.job, k.tid)
  {
    hide Next, Init, Honest, Prompt, DeletedAfterCommit, Disposition, Holds, OnlyItsUserDeletes;
    PromptRunsAreHonest(run, actions);
    SweepLeavesCommitted(run, actions, i, k);
    var id := WorkerOf(run[i], actions[i].w).lease.job;
    var c := BoundJobsWereCreated(run, actions, i, id);
    MirrorsAlways(run, actions, c, i, id);
    RemovedIsDeleted(run, actions, i, id, k.tid);
    assert k.tid in ViewOf(run[i], id).always <==> k.tid in IdSet(JobSource(run[i], run[i].store.jobs[id]));
  }

  // ---------- Sweeps and the library ----------

  /** In every run, honest or not, a row leaves the library only when its user deletes it or
      in the sweep of a replacement that was about to complete with "source exhausted". A
      replacement that is stopped, fails or reaches a limit deletes nothing. */
  lemma RowsLeaveOnlyBySweep(run: seq<World>, actions: seq<Action>, i: nat, k: Key)
    requires IsRun(run, actions) && i < |actions| && k in run[i].store.messages && k !in run[i + 1].store.messages
    ensures var s, a := run[i], actions[i];
            || ((a.DeleteLocal? || a.DeleteRemotely?) && k.user == a.user && k in a.keys)
            || (IsSweep(s, a, run[i + 1].clock) && k.user == WorkerOf(s, a.w).lease.user)
  {
    hide Next, Init, Inv, Commit, BuildPage;
    var s, a, s' := run[i], actions[i], run[i + 1];
    InvAlways(run, actions, i);
    if a.CommitPage? {
      CommitIs(s, a, s');
      if PersistsPage(s, a.w, a.raw, a.keep, s'.clock) {
        CommitImports(s, a.w, a.raw, a.keep, s'.clock);
      } else {
        UnpersistedPageKeeps(s, a.w, a.raw, a.keep, s'.clock);
      }
    } else {
      NothingElseImports(s, a, s');
    }
  }

  lemma EndOfSliceRow(s: World, w: WorkerId, decided: int, now: int)
    requires Inv(s) && Slicing(s, w) && WorkerOf(s, w).ending.Some? && WorkerOf(s, w).ending.value.Ended?
    requires Holds(s.store, WorkerOf(s, w).lease, now)
    ensures var v, job := WorkerOf(s, w), Finish(s, w, decided, now).store.jobs[WorkerOf(s, w).lease.job];
            && s.store.jobs[v.lease.job].replace == v.lease.replace
            && (job.state == Completed && job.reason == Some(SourceExhausted) <==>
                  Disposition(v, decided) == Some((Completed, SourceExhausted)))
  {
    SliceFits(s, w);
    hide GoodStore, FreshTokens, WorkersFit, Swept, ClearUserMarkers, GoodJob;
  }

  /** Seen from the row: a replacement job becomes completed with "source exhausted" exactly
      in the step that sweeps its user's library. */
  lemma SweepIsCompletion(s: World, a: Action, s': World, id: JobId)
    requires Inv(s) && Next(s, a, s') && id in s.store.jobs && id in s'.store.jobs && s.store.jobs[id].replace
    ensures IsSweep(s, a, s'.clock) && WorkerOf(s, a.w).lease.job == id <==>
              && s.store.jobs[id].state != Completed
              && s'.store.jobs[id].state == Completed && s'.store.jobs[id].reason == Some(SourceExhausted)
  {
    hide Next, Inv, Finish, Disposition, GoodStore;
    EndsAreFenced(s, a, s', id);
    if a.FinishSlice? {
      FinishIs(s, a, s');
      var l := WorkerOf(s, a.w).lease;
      if l.job == id && Holds(s.store, l, s'.clock) {
        EndOfSliceRow(s, a.w, a.decided, s'.clock);
      }
    } else if a.FailSlice? || a.ReleaseSlice? {
      OtherEndsCompleteNothing(s, a, s', id);
    }
  }
}
