/** What a worker changes takes effect only while it holds an unexpired lease, and page
    commits and session refreshes only while the connection is the job's own. The one
    effect that is not fenced by the lease is the invalidation of the connection a stale
    worker was authorized by. */
module Fencing {
  import opened Wrappers
  import opened ScanRows
  import opened TelegramAuth
  import opened ScanTransactions
  import opened StoreRules
  import opened Scanner
  import opened ScanProtocol
  import opened ProtocolInvariant

  /** The action is taken by a worker whose lease on `id` is unexpired. */
  predicate ByHolder(s: World, a: Action, w: WorkerId, id: JobId, now: int) {
    Slicing(s, w) && WorkerOf(s, w).lease.job == id && Holds(s.store, WorkerOf(s, w).lease, now)
  }

  predicate IsPageCommit(s: World, a: Action, id: JobId, now: int) {
    a.CommitPage? && ByHolder(s, a, a.w, id, now) && ConnectionMatches(s.store, WorkerOf(s, a.w).lease)
  }

  /** Counters and cursor move only with a page of the lease holder. */
  lemma ProgressIsFenced(s: World, a: Action, s': World, id: JobId)
    requires Inv(s) && Next(s, a, s') && id in s.store.jobs
    ensures id in s'.store.jobs
    ensures !SameProgress(s.store.jobs[id], s'.store.jobs[id]) ==> IsPageCommit(s, a, id, s'.clock)
  {
    hide Next, Inv, GoodStore, RowEvolves, PersistPage, BuildPage;
    InvStep(s, a, s');
    if !SameProgress(s.store.jobs[id], s'.store.jobs[id]) {
      CommitIs(s, a, s');
      if !PersistsPage(s, a.w, a.raw, a.keep, s'.clock) { UnpersistedPageKeeps(s, a.w, a.raw, a.keep, s'.clock); }
    }
  }

  lemma PersistedPageStaysInLibrary(s: Store, l: Lease, page: ScanPage, k: Key)
    requires GoodStore(s) && l.job in s.jobs
    ensures var s' := PersistPage(s, l, page);
            k in s'.messages && (k !in s.messages || !SameSource(s.messages[k], s'.messages[k])) ==>
              k in PageKeys(l, page.messages) && k.user == l.user && k.principal == Some(l.provenance.principal)
  {
    UpsertAllImports(Table(s.messages, s.nextMessage), l, page.messages);
  }

  /** The user edits the text of the message `k`; nothing else of the library changes. */
  predicate EditsText(s: World, a: Action, s': World, k: Key) {
    && a.EditContent? && a.key == k && k in s.store.messages
    && s'.store.messages == s.store.messages[k := s.store.messages[k].(content := a.content)]
  }

  /** A row appears, or one of its copied columns changes, only with a page of the lease holder
      that holds the message of this row, in the library of the job's user and under the job's own
      principal; or its text changes because the user edits it. */
  lemma ImportsAreFenced(s: World, a: Action, s': World, k: Key)
    requires Inv(s) && Next(s, a, s') && k in s'.store.messages
    requires k !in s.store.messages || !SameSource(s.store.messages[k], s'.store.messages[k])
    ensures EditsText(s, a, s', k) || (a.CommitPage? && Slicing(s, a.w))
    ensures a.CommitPage? ==>
              var v := WorkerOf(s, a.w);
              && IsPageCommit(s, a, v.lease.job, s'.clock) && k.user == v.lease.user && k.principal == Some(v.lease.provenance.principal)
              && MayFetch(v) && a.keep <= |BuildPage(a.raw, Capacity(v)).messages|
              && k in PageKeys(v.lease, PageFor(v, a.raw, a.keep).messages)
  {
    hide BuildPage;
    if a.CommitPage? {
      CommitImportsAreFenced(s, a, s', k);
    } else {
      hide Next, Inv, IsSweep;
      NothingElseImports(s, a, s');
    }
  }

  lemma FinishShrinks(s: World, w: WorkerId, decided: int, now: int)
    requires Inv(s) && Slicing(s, w) && WorkerOf(s, w).ending.Some? && WorkerOf(s, w).ending.value.Ended?
    ensures var v, messages := WorkerOf(s, w), Finish(s, w, decided, now).store.messages;
            && Shrinks(s.store.messages, messages)
            && (if v.lease.replace && Disposition(v, decided) == Some((Completed, SourceExhausted)) && Holds(s.store, v.lease, now)
                then forall k :: k in messages <==>
                       k in s.store.messages && (k.user == v.lease.user ==> s.store.messages[k].marker == Some(v.lease.job))
                else messages.Keys == s.store.messages.Keys)
  {
    SliceFits(s, w);
    EndSliceShrinks(s.store, WorkerOf(s, w).lease, Disposition(WorkerOf(s, w), decided), now);
    ClearingShrinks(s.store.messages, s.store.messages);
  }

  lemma LaunchShrinks(s: World, a: Action, now: int)
    requires Inv(s) && a.StartScan? && a.id !in s.store.jobs && 0 < a.pageSize
    ensures var messages := Launch(s, a.id, a.user, a.pageSize, a.replace, a.opens, a.answer, now).store.messages;
            Shrinks(s.store.messages, messages) && messages.Keys == s.store.messages.Keys
  {
    var messages := Launch(s, a.id, a.user, a.pageSize, a.replace, a.opens, a.answer, now).store.messages;
    LaunchInserts(s, a, now);
    ClearingShrinks(s.store.messages, messages);
  }

  lemma EraseRemotelyShrinks(s: World, a: Action, now: int)
    requires Inv(s) && a.DeleteRemotely?
    ensures var messages := EraseRemotely(s, a.user, a.provenance, a.keys, a.opens, a.answer, now).store.messages;
            Shrinks(s.store.messages, messages)
            && forall k :: k in s.store.messages && k !in messages ==> k in a.keys && k.user == a.user
  {
    DeleteEverywhereShrinks(s.store, a.user, a.provenance, a.keys, a.opens, a.answer, now);
    hide DeleteEverywhere, Forget, Inv, Shrinks;
  }

  lemma OrganizingShrinks(s: Store, k: Key, category: nat, tags: set<nat>)
    requires k in s.messages
    ensures Shrinks(s.messages, Recategorize(s, k, category).messages) && Recategorize(s, k, category).messages.Keys == s.messages.Keys
    ensures Shrinks(s.messages, Retag(s, k, tags).messages) && Retag(s, k, tags).messages.Keys == s.messages.Keys
  {
  }

  lemma CommitImportsAreFenced(s: World, a: Action, s': World, k: Key)
    requires Inv(s) && Next(s, a, s') && a.CommitPage? && k in s'.store.messages
    requires k !in s.store.messages || !SameSource(s.store.messages[k], s'.store.messages[k])
    ensures Slicing(s, a.w)
    ensures var v := WorkerOf(s, a.w);
            && IsPageCommit(s, a, v.lease.job, s'.clock) && k.user == v.lease.user && k.principal == Some(v.lease.provenance.principal)
            && MayFetch(v) && a.keep <= |BuildPage(a.raw, Capacity(v)).messages|
            && k in PageKeys(v.lease, PageFor(v, a.raw, a.keep).messages)
  {
    hide Next, GoodStore, PersistPage, BuildPage, PageKeys, FreshTokens, WorkersFit, GoodSettings;
    CommitIs(s, a, s');
    if PersistsPage(s, a.w, a.raw, a.keep, s'.clock) {
      PersistedPageStaysInLibrary(s.store, WorkerOf(s, a.w).lease, PageFor(WorkerOf(s, a.w), a.raw, a.keep), k);
    } else {
      UnpersistedPageKeeps(s, a.w, a.raw, a.keep, s'.clock);
    }
  }

  /** The slice this action finishes sweeps the library of its user. */
  predicate IsSweep(s: World, a: Action, now: int) {
    && a.FinishSlice? && Slicing(s, a.w) && WorkerOf(s, a.w).ending.Some? && WorkerOf(s, a.w).ending.value.Ended?
    && var v := WorkerOf(s, a.w);
       v.lease.replace && Disposition(v, a.decided) == Some((Completed, SourceExhausted)) && Holds(s.store, v.lease, now)
  }

  /** Every action except a page commit shrinks the library at most, or edits one text of it, and
      only deletions by the user and sweeps remove rows. */
  lemma NothingElseImports(s: World, a: Action, s': World)
    requires Inv(s) && Next(s, a, s') && !a.CommitPage?
    ensures if a.EditContent? then EditsText(s, a, s', a.key) else Shrinks(s.store.messages, s'.store.messages)
    ensures forall k :: k in s.store.messages && k !in s'.store.messages ==>
              || ((a.DeleteLocal? || a.DeleteRemotely?) && k.user == a.user && k in a.keys)
              || (IsSweep(s, a, s'.clock) && k.user == WorkerOf(s, a.w).lease.user
                  && s.store.messages[k].marker != Some(WorkerOf(s, a.w).lease.job))
  {
    hide Next, Inv, GoodStore, RowsEvolve, Evolves, Shrinks, Forget, CreateJob, DeleteMessages, DeleteEverywhere, EndSlice;
    InvStep(s, a, s');
    match a {
      case FinishSlice(w, decided) => FinishIs(s, a, s'); FinishShrinks(s, w, decided, s'.clock);
      case StartScan(_, _, _, _, _, _) =>
        LaunchIs(s, a, s'); LaunchShrinks(s, a, s'.clock);
      case DeleteLocal(user, keys) => DeletionIs(s, a, s'); DeleteMessagesShrinks(s.store, user, keys);
      case DeleteRemotely(user, p, keys, opens, answer) =>
        DeletionIs(s, a, s'); EraseRemotelyShrinks(s, a, s'.clock);
      case SetCategory(key, category) => OrganizingIs(s, a, s'); OrganizingShrinks(s.store, key, category, {});
      case SetTags(key, tags) => OrganizingIs(s, a, s'); OrganizingShrinks(s.store, key, 0, tags);
      case EditContent(_, _) => OrganizingIs(s, a, s');
      case _ => ClearingShrinks(s.store.messages, s'.store.messages);
    }
  }

  // ---------- Ends of slices ----------

  /** The row did not move to an end only a worker gives it, nor back to the queue. */
  predicate NotEnded(j: Job, j': Job) {
    && (j'.state == Completed ==> j.state == Completed)
    && (j'.state == Pending ==> j.state == Pending)
    && (j'.state == Failed ==> j.state == Failed || j.provenance.None?)
  }

  predicate NoneEnded(jobs: map<JobId, Job>, jobs': map<JobId, Job>) {
    forall id :: id in jobs ==> id in jobs' && NotEnded(jobs[id], jobs'[id])
  }

  lemma CancellingEndsNothing(s: Store, user: UserId, p: Option<Provenance>, now: int)
    ensures NoneEnded(s.jobs, CancelBound(s, user, p, now).jobs)
  {
    hide ClearUserMarkers;
  }

  lemma RequestsEndNothing(s: Store, user: UserId, effect: Effect, now: int)
    ensures NoneEnded(s.jobs, Apply(s, user, effect, now).jobs)
  {
    CancellingEndsNothing(s.(connections := s.connections[user := effect.row]), user, None, now);
    hide CancelBound;
  }

  lemma DowngradeEndsNothing(s: Store, l: Lease, now: int)
    ensures NoneEnded(s.jobs, Downgrade(s, l, now).jobs)
  {
    if ConnectionBelongsTo(s, l) {
      CancellingEndsNothing(s.(connections := s.connections[l.user := Erased(s.connections[l.user], Disconnected)]),
                            l.user, Some(l.provenance), now);
    }
    hide CancelBound;
  }

  lemma ServingEndsNothing(s: Store, user: UserId, r: Request, now: int)
    ensures NoneEnded(s.jobs, Serve(s, user, r, now).jobs)
  {
    var c := if user in s.connections then s.connections[user] else FRESH;
    RequestsEndNothing(s, user, RequestEffect(c, s.connections, user, r, now), now);
    CancellingEndsNothing(s, user, None, now);
    hide Apply, CancelBound, RequestEffect;
  }

  lemma DeletingEndsNothing(s: Store, user: UserId, p: Provenance, keys: set<Key>, opens: bool, answer: IdentityAnswer, now: int)
    ensures NoneEnded(s.jobs, DeleteEverywhere(s, user, p, keys, opens, answer, now).jobs)
  {
    if user in s.connections { RequestsEndNothing(s, user, DeleteRemote(s.connections[user], p, opens, answer), now); }
    hide Apply, DeleteRemote;
  }

  lemma ClaimEndsNothing(s: Store, id: JobId, token: Token, now: int)
    ensures NoneEnded(s.jobs, Claim(s, id, token, now).jobs)
  {
    hide ClearMarkers;
  }

  lemma SweepEndsNothing(s: Store, now: int)
    ensures NoneEnded(s.jobs, TerminalizeExpired(s, now).jobs)
  {
    hide ClearMarkers;
  }

  lemma NothingEnds(jobs: map<JobId, Job>)
    ensures NoneEnded(jobs, jobs)
  {
  }

  lemma StoppingEndsNothing(s: Store, id: JobId, now: int)
    requires id in s.jobs
    ensures NoneEnded(s.jobs, CancelStale(s, id, now).jobs) && NoneEnded(s.jobs, Stop(s, id, now).jobs)
  {
    hide ClearUserMarkers;
  }

  lemma CreatingEndsNothing(s: Store, id: JobId, user: UserId, pageSize: nat, replace: bool, maxMessages: nat, maxRuntime: nat, opens: bool,
                            answer: IdentityAnswer, now: int)
    requires id !in s.jobs
    ensures NoneEnded(s.jobs, CreateJob(s, id, user, pageSize, replace, maxMessages, maxRuntime, opens, answer, now).jobs)
  {
    hide ClearAllUserMarkers, ValidateForScan, HasActiveJob;
  }

  lemma UserActionsEndNothing(s: World, a: Action, now: int)
    requires Enabled(s, a, now) && IsUserAction(a)
    ensures NoneEnded(s.store.jobs, DoUser(s, a, now).store.jobs)
  {
    hide NoneEnded, Serve, DeleteEverywhere, CreateJob, CancelStale, Stop, DoUser, Plausible, MayConclude, BuildPage;
    UserTransaction(s, a, now);
    NothingEnds(s.store.jobs);
    match a {
      case FinishStale(id) => StoppingEndsNothing(s.store, id, now);
      case StopScan(id) => StoppingEndsNothing(s.store, id, now);
      case StartScan(id, user, pageSize, replace, opens, answer) =>
        CreatingEndsNothing(s.store, id, user, pageSize, replace, s.settings.maxMessages, s.settings.maxRuntime, opens, answer, now);
      case Ask(user, r) => ServingEndsNothing(s.store, user, r, now);
      case DeleteRemotely(user, p, keys, opens, answer) => DeletingEndsNothing(s.store, user, p, keys, opens, answer, now);
      case _ =>
    }
  }

  lemma OneRowEnds(jobs: map<JobId, Job>, id: JobId, row: Job)
    requires id in jobs && NotEnded(jobs[id], row)
    ensures NoneEnded(jobs, jobs[id := row])
  {
  }

  lemma CommitEndsNothing(s: World, w: WorkerId, raw: seq<Scanned>, keep: nat, now: int)
    requires MayFetch(WorkerOf(s, w)) && keep <= |BuildPage(raw, Capacity(WorkerOf(s, w))).messages|
    ensures NoneEnded(s.store.jobs, Commit(s, w, raw, keep, now).store.jobs)
  {
    hide NoneEnded, UpsertAll, BuildPage, AfterPage, OnlyScans, PersistOutcome;
    var l, page := WorkerOf(s, w).lease, PageFor(WorkerOf(s, w), raw, keep);
    NothingEnds(s.store.jobs);
    if PersistOutcome(s.store, l, page, now) == PagePersisted {
      PersistedJobExists(s.store, l, page, now);
      OneRowEnds(s.store.jobs, l.job, PageRow(s.store.jobs[l.job], page));
    }
  }

  lemma PersistedJobExists(s: Store, l: Lease, page: ScanPage, now: int)
    ensures PersistOutcome(s, l, page, now) == PagePersisted ==> l.job in s.jobs
  {
  }

  lemma BeatEndsNothing(s: World, w: WorkerId, now: int)
    requires Slicing(s, w)
    ensures NoneEnded(s.store.jobs, Beat(s, w, now).store.jobs)
  {
    hide NoneEnded, OnlyScans, ImportsNothing;
    var l := WorkerOf(s, w).lease;
    NothingEnds(s.store.jobs);
    if Holds(s.store, l, now) { OneRowEnds(s.store.jobs, l.job, RenewRow(s.store.jobs[l.job], now)); }
  }

  lemma WorkersEndOnlyTheirSlice(s: World, a: Action, now: int)
    requires Enabled(s, a, now) && !IsUserAction(a) && !a.FinishSlice? && !a.FailSlice? && !a.ReleaseSlice?
    ensures NoneEnded(s.store.jobs, DoWorker(s, a, now).store.jobs)
  {
    hide NoneEnded, Claim, TerminalizeExpired, Downgrade, ReadLease, Commit, MayConclude, Erased, OnlyScans, ImportsNothing, Plausible, BuildPage;
    NothingEnds(s.store.jobs);
    match a {
      case ClaimJob(_, id, token) => ClaimEndsNothing(s.store, id, token, now);
      case CommitPage(w, raw, keep) => CommitEndsNothing(s, w, raw, keep, now);
      case Heartbeat(w) => BeatEndsNothing(s, w, now);
      case Sweep => SweepEndsNothing(s.store, now);
      case LoseAuthorization(w) => DowngradeEndsNothing(s.store, WorkerOf(s, w).lease, now);
      case _ =>
    }
  }

  /** At most the job `id` of the store changed. */
  predicate OnlyJob(s: Store, s': Store, id: JobId) {
    id in s.jobs ==> s'.jobs.Keys == s.jobs.Keys && forall other :: other in s.jobs && other != id ==> s'.jobs[other] == s.jobs[other]
  }

  lemma FinishEndsItsJob(s: World, w: WorkerId, decided: int, now: int)
    requires Slicing(s, w) && WorkerOf(s, w).ending.Some? && WorkerOf(s, w).ending.value.Ended?
    ensures var l, s' := WorkerOf(s, w).lease, Finish(s, w, decided, now);
            s'.store == s.store || (Holds(s.store, l, now) && OnlyJob(s.store, s'.store, l.job))
  {
    hide ClearUserMarkers, Swept, FinalizeRow, RequeueRow, Disposition, ImportsNothing;
  }

  lemma FailEndsItsJob(s: World, w: WorkerId, now: int)
    requires Slicing(s, w)
    ensures var l, s' := WorkerOf(s, w).lease, Fail(s, w, now);
            s'.store == s.store || (Holds(s.store, l, now) && OnlyJob(s.store, s'.store, l.job))
  {
    hide ClearUserMarkers, Swept, FinalizeRow, ImportsNothing;
  }

  lemma ReleaseEndsItsJob(s: World, w: WorkerId, now: int)
    requires Slicing(s, w)
    ensures var l, s' := WorkerOf(s, w).lease, GiveBack(s, w, now);
            s'.store == s.store || (HoldsIgnoringExpiry(s.store, l) && OnlyJob(s.store, s'.store, l.job))
  {
    hide ClearUserMarkers, ReleaseRow, ImportsNothing;
  }

  /** The three ends of a slice change nothing, or only the job whose lease the worker holds. */
  lemma SlicesEndTheirJob(s: World, a: Action, now: int)
    requires Enabled(s, a, now) && (a.FinishSlice? || a.FailSlice? || a.ReleaseSlice?)
    ensures Slicing(s, a.w)
    ensures var l, s' := WorkerOf(s, a.w).lease, DoWorker(s, a, now);
            || s'.store == s.store
            || (OnlyJob(s.store, s'.store, l.job) && l.job in s.store.jobs
                && (if a.ReleaseSlice? then HoldsIgnoringExpiry(s.store, l) else Holds(s.store, l, now)))
  {
    hide OnlyJob, Finish, Fail, GiveBack, Plausible, MayConclude;
    match a {
      case FinishSlice(w, decided) => FinishEndsItsJob(s, w, decided, now);
      case FailSlice(w) => FailEndsItsJob(s, w, now);
      case ReleaseSlice(w) => ReleaseEndsItsJob(s, w, now);
      case _ =>
    }
  }

  /** A job completes, fails with provenance, or goes back to the queue only by an action of
      the worker that owns it; all but a release also need the lease to be unexpired. */
  lemma EndsAreFenced(s: World, a: Action, s': World, id: JobId)
    requires Inv(s) && Next(s, a, s') && id in s.store.jobs
    ensures id in s'.store.jobs
    ensures !NotEnded(s.store.jobs[id], s'.store.jobs[id]) ==>
              || ((a.FinishSlice? || a.FailSlice?) && ByHolder(s, a, a.w, id, s'.clock))
              || (a.ReleaseSlice? && Slicing(s, a.w) && WorkerOf(s, a.w).lease.job == id
                  && HoldsIgnoringExpiry(s.store, WorkerOf(s, a.w).lease))
  {
    hide Enabled, DoUser, DoWorker, Inv;
    if IsUserAction(a) {
      UserActionsEndNothing(s, a, s'.clock);
    } else if a.FinishSlice? || a.FailSlice? || a.ReleaseSlice? {
      SlicesEndTheirJob(s, a, s'.clock);
    } else {
      WorkersEndOnlyTheirSlice(s, a, s'.clock);
    }
  }
}
