/** What each action of the scan protocol leaves of the row it is about, column by column. */
module ScanOutcomes {
  import opened Wrappers
  import opened ScanRows
  import opened TelegramAuth
  import opened ScanTransactions
  import opened StoreRules
  import opened Scanner
  import opened ScanProtocol
  import opened ProtocolInvariant

  // ---------- Rows ----------

  /** The job is the same one, as far as it has come. */
  predicate SameTask(j: Job, j': Job) {
    && j'.user == j.user && j'.replace == j.replace && j'.provenance == j.provenance && j'.pageSize == j.pageSize
    && j'.maxMessages == j.maxMessages && j'.maxRuntime == j.maxRuntime && j'.createdAt == j.createdAt && j'.startedAt == j.startedAt
    && SameProgress(j, j')
  }

  predicate IsLeasedTo(j: Job, owner: Option<Token>, expiresAt: Option<int>) { j.owner == owner && j.expiresAt == expiresAt }

  /** The job is over, for good. */
  predicate IsOver(j: Job, state: JobState, reason: Option<Reason>, now: int) {
    j.state == state && j.reason == reason && j.finishedAt == Some(now) && IsLeasedTo(j, None, None)
  }

  predicate IsQueued(j: Job) { j.state == Pending && j.reason.None? && j.finishedAt.None? && IsLeasedTo(j, None, None) }

  /** A job that loses its worker goes back to the queue, or is cancelled if a stop was requested. */
  predicate IsReturned(j: Job, now: int, j': Job) {
    if j.stopRequested || j.state == Stopping then IsOver(j', Cancelled, Some(StoppedByUser), now) else IsQueued(j')
  }

  /** What the end of a slice makes of its job: the reason completes or cancels it, or its runtime
      is used up, or it goes back to the queue. */
  predicate EndsSlice(j: Job, reason: Reason, ranOut: bool, now: int, j': Job) {
    && SameTask(j, j') && j'.stopRequested == j.stopRequested && (j'.hasError ==> j.hasError)
    && match reason
       case StoppedByUser => IsOver(j', Cancelled, Some(StoppedByUser), now)
       case SourceExhausted => IsOver(j', Completed, Some(SourceExhausted), now)
       case MessageLimitReached => IsOver(j', Completed, Some(MessageLimitReached), now)
       case RuntimeLimitReached => IsOver(j', Completed, Some(RuntimeLimitReached), now)
       case _ =>
         if ranOut then IsOver(j', Completed, Some(RuntimeLimitReached), now)
         else IsReturned(j, now, j') && j'.heartbeatAt == Some(now)
  }

  /** Only the lease is longer. */
  predicate IsRenewed(j: Job, now: int, j': Job) {
    && SameTask(j, j') && j'.state == j.state && j'.stopRequested == j.stopRequested && j'.reason == j.reason && j'.finishedAt == j.finishedAt
    && j'.hasError == j.hasError && IsLeasedTo(j', j.owner, Some(now + SCAN_LEASE_SECONDS)) && j'.heartbeatAt == Some(now)
  }

  /** A stop cancels the job at once if nobody runs it, and else asks its worker to stop. */
  predicate IsStopped(j: Job, now: int, j': Job) {
    && SameTask(j, j') && j'.stopRequested && j'.heartbeatAt == j.heartbeatAt && j'.hasError == j.hasError
    && if j.state == Pending || LeaseExpired(j, now)
       then IsOver(j', Cancelled, Some(StoppedByUser), now)
       else j'.state == Stopping && j'.reason == j.reason && j'.finishedAt == j.finishedAt && IsLeasedTo(j', j.owner, j.expiresAt)
  }

  /** The worker has the job to itself from now on. */
  predicate IsTakenOver(j: Job, owner: Token, now: int, j': Job) {
    && j'.state == Running && IsLeasedTo(j', Some(owner), Some(now + SCAN_LEASE_SECONDS)) && j'.heartbeatAt == Some(now)
    && j'.reason.None? && j'.finishedAt.None? && !j'.hasError && j'.stopRequested == j.stopRequested
    && j'.startedAt == Some(if j.startedAt.Some? then j.startedAt.value else now) && SameTask(j, j'.(startedAt := j.startedAt))
  }

  /** Every other job is as it was. */
  predicate OnlyChanges(s: World, id: JobId, s': World) {
    s'.store.jobs.Keys == s.store.jobs.Keys && forall other :: other in s.store.jobs && other != id ==> s'.store.jobs[other] == s.store.jobs[other]
  }

  // ---------- A worker and its job ----------

  lemma HolderBindsRow(s: World, w: WorkerId)
    requires Inv(s) && Slicing(s, w) && HoldsIgnoringExpiry(s.store, WorkerOf(s, w).lease)
    ensures var l, j := WorkerOf(s, w).lease, s.store.jobs[WorkerOf(s, w).lease.job];
            GoodJob(j) && j.startedAt == Some(l.startedAt) && j.maxRuntime == l.maxRuntime && j.replace == l.replace
  {
    SliceFits(s, w);
    hide OneActivePerUser, MarkersAreLive, DistinctIds, GoodConnections, FreshTokens, WorkersFit;
  }

  lemma HoldersOwn(s: Store, l: Lease, now: int)
    requires Holds(s, l, now)
    ensures l.job in s.jobs && HoldsIgnoringExpiry(s, l)
  {
  }

  lemma OneRowChanges(s: World, id: JobId, s': World)
    requires id in s.store.jobs && id in s'.store.jobs && s'.store.jobs == s.store.jobs[id := s'.store.jobs[id]]
    ensures OnlyChanges(s, id, s')
  {
  }

  /** The worker of this action holds an unexpired lease on its job. */
  predicate ActsAsHolder(s: World, a: Action, now: int)
    requires a.FinishSlice? || a.FailSlice? || a.ReleaseSlice? || a.Heartbeat? || a.LookForStop? || a.SaveRefreshedSession?
  {
    Slicing(s, a.w) && Holds(s.store, WorkerOf(s, a.w).lease, now)
  }

  /** A worker that has lost its lease drops its job and changes nothing; only a release needs no
      more than the owner. */
  lemma LostLeasesChangeNothing(s: World, a: Action, s': World)
    requires Next(s, a, s') && (a.FinishSlice? || a.FailSlice? || a.ReleaseSlice? || a.Heartbeat? || a.LookForStop? || a.SaveRefreshedSession?)
    requires if a.ReleaseSlice? then !HoldsIgnoringExpiry(s.store, WorkerOf(s, a.w).lease) else !ActsAsHolder(s, a, s'.clock)
    ensures s'.store == s.store && WorkerOf(s', a.w).Idle?
  {
    hide Next, Holds, HoldsIgnoringExpiry, EndSlice, Finalize, Release, Renew, ImportsNothing, KeepsHistory, Disposition, SaveSession,
         ConnectionMatches, OnlyScans, TerminalizeExpired, Grab, Snapshot, Downgrade, InvalidateUnreadable;
    WorkerStepIs(s, a, s');
  }

  lemma EndOfSliceLeaves(s: Store, v: Worker, decided: int, now: int)
    requires v.Slice? && v.ending.Some? && v.ending.value.Ended? && Holds(s, v.lease, now)
    ensures var l, s' := v.lease, EndSlice(s, v.lease, Disposition(v, decided), now);
            && l.job in s'.jobs && s'.jobs == s.jobs[l.job := s'.jobs[l.job]]
            && EndsSlice(s.jobs[l.job], v.ending.value.reason, l.maxRuntime <= decided - l.startedAt, now, s'.jobs[l.job])
            && (!l.replace ==> s'.messages == s.messages)
  {
    hide ClearUserMarkers, Swept, Holds;
    HoldersOwn(s, v.lease, now);
  }

  /** The slice of a job ends as its worker found: the reason completes the job or cancels it, or
      its runtime is used up, as it was looked at before, at `decided`; or the job goes back to
      the queue, or is cancelled if a stop was requested meanwhile. */
  lemma SlicesEndAsFound(s: World, a: Action, s': World)
    requires Inv(s) && Next(s, a, s') && a.FinishSlice? && ActsAsHolder(s, a, s'.clock)
    ensures WorkerOf(s, a.w).ending.Some? && WorkerOf(s, a.w).ending.value.Ended? && WorkerOf(s', a.w).Idle?
    ensures var l, reason := WorkerOf(s, a.w).lease, WorkerOf(s, a.w).ending.value.reason;
            var j, j' := s.store.jobs[l.job], s'.store.jobs[l.job];
            && OnlyChanges(s, l.job, s') && j.startedAt.Some?
            && EndsSlice(j, reason, j.maxRuntime <= a.decided - j.startedAt.value, s'.clock, j')
            && (!j.replace ==> s'.store.messages == s.store.messages)
  {
    hide Next, Inv, EndSlice, EndsSlice, ImportsNothing, OnlyChanges, Holds, Disposition;
    WorkerStepIs(s, a, s');
    var v := WorkerOf(s, a.w);
    HoldersOwn(s.store, v.lease, s'.clock);
    HolderBindsRow(s, a.w);
    EndOfSliceLeaves(s.store, v, a.decided, s'.clock);
    OneRowChanges(s, v.lease.job, s');
  }

  /** An error ends the job of a worker that still holds it, with the error recorded. */
  lemma FailuresAreRecorded(s: World, a: Action, s': World)
    requires Next(s, a, s') && a.FailSlice? && ActsAsHolder(s, a, s'.clock)
    ensures WorkerOf(s', a.w).Idle?
    ensures var id := WorkerOf(s, a.w).lease.job;
            && OnlyChanges(s, id, s') && id in s.store.jobs
            && SameTask(s.store.jobs[id], s'.store.jobs[id]) && IsOver(s'.store.jobs[id], Failed, None, s'.clock) && s'.store.jobs[id].hasError
  {
    hide Next, Finalize, ImportsNothing, OnlyChanges, Holds, SameTask, IsOver;
    WorkerStepIs(s, a, s');
    var l := WorkerOf(s, a.w).lease;
    HoldersOwn(s.store, l, s'.clock);
    FailureLeaves(s.store, l, s'.clock);
    OneRowChanges(s, l.job, s');
  }

  lemma FailureLeaves(s: Store, l: Lease, now: int)
    requires Holds(s, l, now)
    ensures var s' := Finalize(s, l, Failed, None, now);
            && l.job in s'.jobs && s'.jobs == s.jobs[l.job := s'.jobs[l.job]]
            && SameTask(s.jobs[l.job], s'.jobs[l.job]) && IsOver(s'.jobs[l.job], Failed, None, now) && s'.jobs[l.job].hasError
  {
    hide ClearUserMarkers, Swept;
  }

  /** A job that is given back goes to the queue, or is cancelled. */
  predicate GivesBack(j: Job, now: int, j': Job) {
    && SameTask(j, j') && IsReturned(j, now, j')
    && j'.heartbeatAt == j.heartbeatAt && j'.stopRequested == j.stopRequested && j'.hasError == j.hasError
  }

  /** A worker that is shut down gives its job back, even after its lease expired; the job keeps
      its place in the queue. */
  lemma ReleasesReturnTheJob(s: World, a: Action, s': World)
    requires Inv(s) && Next(s, a, s') && a.ReleaseSlice? && HoldsIgnoringExpiry(s.store, WorkerOf(s, a.w).lease)
    ensures WorkerOf(s', a.w).Idle?
    ensures var id := WorkerOf(s, a.w).lease.job;
            OnlyChanges(s, id, s') && id in s.store.jobs && GivesBack(s.store.jobs[id], s'.clock, s'.store.jobs[id])
  {
    hide Next, Inv, Release, ImportsNothing, OnlyChanges, HoldsIgnoringExpiry, GivesBack, GoodJob;
    WorkerStepIs(s, a, s');
    var l := WorkerOf(s, a.w).lease;
    HolderBindsRow(s, a.w);
    OwnedIsActive(s.store, l);
    StopsAreSeen(s.store.jobs[l.job]);
    ReleaseLeaves(s.store, l, s'.clock);
    OneRowChanges(s, l.job, s');
  }

  lemma OwnedIsActive(s: Store, l: Lease)
    requires HoldsIgnoringExpiry(s, l)
    ensures l.job in s.jobs && IsActive(s.jobs[l.job])
  {
  }

  lemma StopsAreSeen(j: Job)
    requires GoodJob(j) && IsActive(j)
    ensures j.stopRequested <==> j.state == Stopping
  {
  }

  lemma ReleaseLeaves(s: Store, l: Lease, now: int)
    requires HoldsIgnoringExpiry(s, l) && (s.jobs[l.job].stopRequested <==> s.jobs[l.job].state == Stopping)
    ensures var s' := Release(s, l, now);
            && l.job in s'.jobs && s'.jobs == s.jobs[l.job := s'.jobs[l.job]]
            && GivesBack(s.jobs[l.job], now, s'.jobs[l.job])
  {
    hide ClearUserMarkers;
  }

  /** A heartbeat of the holder makes its lease last a full length from now on. */
  lemma HeartbeatsRenew(s: World, a: Action, s': World)
    requires Next(s, a, s') && a.Heartbeat? && ActsAsHolder(s, a, s'.clock)
    ensures s'.workers == s.workers && s'.store.messages == s.store.messages
    ensures var l := WorkerOf(s, a.w).lease;
            && OnlyChanges(s, l.job, s') && l.job in s.store.jobs && IsRenewed(s.store.jobs[l.job], s'.clock, s'.store.jobs[l.job])
            && forall t :: t < s'.clock + SCAN_LEASE_SECONDS ==> Holds(s'.store, l, t)
  {
    hide Next, ImportsNothing, OnlyChanges, IsRenewed, Renew, Holds;
    WorkerStepIs(s, a, s');
    var l := WorkerOf(s, a.w).lease;
    HoldersOwn(s.store, l, s'.clock);
    RenewalLeaves(s.store, l, s'.clock);
    OneRowChanges(s, l.job, s');
  }

  lemma RenewalLeaves(s: Store, l: Lease, now: int)
    requires Holds(s, l, now)
    ensures var s' := Renew(s, l, now);
            && l.job in s'.jobs && s'.jobs == s.jobs[l.job := s'.jobs[l.job]] && s'.messages == s.messages
            && IsRenewed(s.jobs[l.job], now, s'.jobs[l.job]) && forall t :: t < now + SCAN_LEASE_SECONDS ==> Holds(s', l, t)
  {
  }

  /** A worker that holds its job stops exactly if a stop was requested. */
  lemma StopsAreNoticed(s: World, a: Action, s': World)
    requires Next(s, a, s') && a.LookForStop? && ActsAsHolder(s, a, s'.clock)
    ensures s'.store == s.store && WorkerOf(s, a.w).lease.job in s.store.jobs
    ensures var v := WorkerOf(s, a.w);
            WorkerOf(s', a.w) == if s.store.jobs[v.lease.job].stopRequested then v.(ending := Some(Ended(StoppedByUser))) else v
  {
    hide Next, ImportsNothing, Holds;
    WorkerStepIs(s, a, s');
    HoldersOwn(s.store, WorkerOf(s, a.w).lease, s'.clock);
  }

  /** Nobody runs the job, and it says for which account it is. */
  predicate IsFree(j: Job, now: int) {
    && j.provenance.Some?
    && (j.state == Pending || (j.state == Running && (j.expiresAt.None? || j.expiresAt.value <= now)))
  }

  /** A claim takes a job that is free, fails one without provenance, finishes off one whose stop
      nobody answered, and leaves any other alone. */
  lemma ClaimsTakeFreeJobs(s: World, a: Action, s': World)
    requires Inv(s) && Next(s, a, s') && a.ClaimJob? && a.id in s.store.jobs
    ensures OnlyChanges(s, a.id, s') && a.id in s'.store.jobs
    ensures var j, j' := s.store.jobs[a.id], s'.store.jobs[a.id];
            && (WorkerOf(s', a.w) == if IsFree(j, s'.clock) then Claiming(a.id, a.token) else Idle)
            && (if IsFree(j, s'.clock) then IsTakenOver(j, a.token, s'.clock, j')
                else if IsActive(j) && j.provenance.None? then SameTask(j, j') && IsOver(j', Failed, None, s'.clock) && j'.hasError
                else if j.state == Stopping && LeaseExpired(j, s'.clock)
                then SameTask(j, j') && IsOver(j', Cancelled, Some(StoppedByUser), s'.clock) && j'.stopRequested == j.stopRequested
                else j' == j)
  {
    hide Next, Inv, Claim, ImportsNothing, OnlyChanges, IsTakenOver, IsOver, SameTask, IsFree;
    WorkerStepIs(s, a, s');
    ClaimedTokensAreNew(s, a, s', a.id);
    ClaimLeaves(s.store, a.id, a.token, s'.clock);
    OneRowChanges(s, a.id, s');
  }

  lemma ClaimLeaves(s: Store, id: JobId, token: Token, now: int)
    requires id in s.jobs && s.jobs[id].owner != Some(token)
    ensures var s' := Claim(s, id, token, now);
            && id in s'.jobs && s'.jobs == s.jobs[id := s'.jobs[id]]
            && var j, j' := s.jobs[id], s'.jobs[id];
               && (j'.owner == Some(token) <==> IsFree(j, now))
               && (if IsFree(j, now) then IsTakenOver(j, token, now, j')
                   else if IsActive(j) && j.provenance.None? then SameTask(j, j') && IsOver(j', Failed, None, now) && j'.hasError
                   else if j.state == Stopping && LeaseExpired(j, now)
                   then SameTask(j, j') && IsOver(j', Cancelled, Some(StoppedByUser), now) && j'.stopRequested == j.stopRequested
                   else j' == j)
  {
    hide ClearMarkers;
  }

  lemma ClaimedTokensAreNew(s: World, a: Action, s': World, id: JobId)
    requires Inv(s) && Next(s, a, s') && a.ClaimJob? && id in s.store.jobs
    ensures s.store.jobs[id].owner != Some(a.token)
  {
    WorkerStepIs(s, a, s');
    hide Next, GoodStore, WorkersFit, GoodSettings, Grab;
  }

  /** The worker that claimed a job and still owns it starts where the job is, and holds it until
      its lease runs out. */
  lemma SlicesStartWhereTheJobIs(s: World, a: Action, s': World)
    requires Inv(s) && Next(s, a, s') && a.TakeLease?
    ensures WorkerOf(s, a.w).Claiming? && s'.store == s.store
    ensures var c, v := WorkerOf(s, a.w), WorkerOf(s', a.w);
            if c.job in s.store.jobs && s.store.jobs[c.job].owner == Some(c.owner)
            then
              var j := s.store.jobs[c.job];
              && v.Slice? && v.local == v.pages == 0 && v.ending.None? && v.lease.job == c.job && v.lease.owner == c.owner
              && v.lease.user == j.user && Some(v.lease.provenance) == j.provenance && v.lease.pageSize == j.pageSize
              && v.lease.scanned == j.scanned && v.lease.cursor == j.cursor && v.lease.maxMessages == j.maxMessages
              && v.lease.maxRuntime == j.maxRuntime && Some(v.lease.startedAt) == j.startedAt && v.lease.replace == j.replace
              && (v.offset == if j.cursor.Some? then j.cursor.value else 0)
              && HoldsIgnoringExpiry(s'.store, v.lease) && forall t :: j.expiresAt.Some? && t < j.expiresAt.value ==> Holds(s'.store, v.lease, t)
            else v.Idle?
  {
    hide Next, FreshTokens, WorkersFit, GoodSettings, OneActivePerUser, MarkersAreLive, DistinctIds, GoodConnections, ImportsNothing;
    WorkerStepIs(s, a, s');
    var c := WorkerOf(s, a.w);
    if c.Claiming? && c.job in s.store.jobs && s.store.jobs[c.job].owner == Some(c.owner) { assert GoodJob(s.store.jobs[c.job]); }
  }

  /** Exactly the stopping jobs whose workers are gone are cancelled. */
  lemma SweepsCancelAbandonedStops(s: World, a: Action, s': World, id: JobId)
    requires Next(s, a, s') && a.Sweep? && id in s.store.jobs
    ensures id in s'.store.jobs
    ensures var j, j' := s.store.jobs[id], s'.store.jobs[id];
            if j.state == Stopping && LeaseExpired(j, s'.clock)
            then SameTask(j, j') && IsOver(j', Cancelled, Some(StoppedByUser), s'.clock) && j'.stopRequested
            else j' == j
  {
    hide Next, ClearMarkers;
    WorkerStepIs(s, a, s');
  }

  /** A persisted page advances the job by its messages. */
  lemma PagesAdvanceTheJob(s: World, w: WorkerId, raw: seq<Scanned>, keep: nat, now: int)
    requires MayFetch(WorkerOf(s, w)) && keep <= |BuildPage(raw, Capacity(WorkerOf(s, w))).messages| && PersistsPage(s, w, raw, keep, now)
    ensures var l, page, s' := WorkerOf(s, w).lease, PageFor(WorkerOf(s, w), raw, keep), Commit(s, w, raw, keep, now);
            && OnlyChanges(s, l.job, s') && l.job in s.store.jobs
            && var j, j' := s.store.jobs[l.job], s'.store.jobs[l.job];
               && j'.scanned == j.scanned + |page.messages| && j'.pages == j.pages + 1 && j'.cursor == page.next
               && j'.(scanned := j.scanned, pages := j.pages, cursor := j.cursor) == j
  {
    hide UpsertAll, BuildPage, CutPage, AfterPage, RepeatsNewMessage, OnlyScans;
  }

  // ---------- The user's requests ----------

  lemma StopsTakeEffect(s: World, a: Action, s': World)
    requires Inv(s) && Next(s, a, s') && (a.StopScan? || a.FinishStale?)
    ensures a.id in s.store.jobs && OnlyChanges(s, a.id, s')
    ensures var j, j' := s.store.jobs[a.id], s'.store.jobs[a.id];
            if a.StopScan? then IsStopped(j, s'.clock, j')
            else j.state == Stopping && SameTask(j, j') && IsOver(j', Cancelled, Some(StoppedByUser), s'.clock) && j'.stopRequested
  {
    hide Next, Inv, ClearUserMarkers, DoUser, Plausible, GoodJob;
    UserStepIs(s, a, s');
    UserTransaction(s, a, s'.clock);
    if a.FinishStale? { StoppingIsRequested(s, a.id); }
  }

  /** The store after a user's action is that of its transaction. */
  lemma UserStepIs(s: World, a: Action, s': World)
    requires Next(s, a, s') && IsUserAction(a)
    ensures Enabled(s, a, s'.clock) && s'.store == DoUser(s, a, s'.clock).store
  {
    hide DoUser, Enabled;
  }

  lemma StoppingIsRequested(s: World, id: JobId)
    requires Inv(s) && id in s.store.jobs && s.store.jobs[id].state == Stopping
    ensures s.store.jobs[id].stopRequested
  {
    hide OneActivePerUser, MarkersAreLive, DistinctIds, GoodConnections, FreshTokens, WorkersFit;
    assert GoodJob(s.store.jobs[id]);
  }

  /** Telegram confirms the account the connection is connected as. */
  predicate IsConfirmed(c: Connection, opens: bool, answer: IdentityAnswer) {
    c.state == Connected && opens && answer.up && answer.authorized && answer.identity == c.principal
  }

  /** The job asked for, queued, under the deployment's limits. */
  predicate IsAskedFor(j: Job, user: UserId, pageSize: nat, replace: bool, c: Connection, maxMessages: nat, maxRuntime: nat, now: int) {
    && IsQueued(j) && !j.stopRequested && !j.hasError && j.user == user && j.replace == replace && j.pageSize == pageSize
    && c.principal.Some? && j.provenance == Some(Provenance(c.principal.value, c.generation))
    && j.maxMessages == maxMessages && j.maxRuntime == maxRuntime && j.createdAt == now && j.startedAt.None? && j.heartbeatAt.None?
    && j.scanned == j.pages == 0 && j.cursor.None?
  }

  lemma ConfirmationSucceeds(c: Connection, opens: bool, answer: IdentityAnswer)
    requires Coherent(c)
    ensures var effect := ValidateForScan(c, opens, answer);
            && (effect.reply == ReplyConnected <==> IsConfirmed(c, opens, answer))
            && (effect.reply == ReplyConnected ==> effect.row == c.(session := Some(answer.session)) && c.principal.Some?)
  {
    ConfirmationsAreExact(c, Provenance(0, 0), opens, answer);
    hide ValidateForScan, DeleteRemote;
  }

  lemma CreationLeaves(s: Store, id: JobId, user: UserId, pageSize: nat, replace: bool, maxMessages: nat, maxRuntime: nat, opens: bool,
                       answer: IdentityAnswer, now: int)
    requires id !in s.jobs && user in s.connections && Coherent(s.connections[user])
    ensures var c := s.connections[user];
            var started := IsConfirmed(c, opens, answer) && !HasActiveJob(s.jobs, user);
            var s' := CreateJob(s, id, user, pageSize, replace, maxMessages, maxRuntime, opens, answer, now);
            && (id in s'.jobs <==> started)
            && s'.jobs == (if started then s.jobs[id := s'.jobs[id]] else s.jobs)
            && (started ==> IsAskedFor(s'.jobs[id], user, pageSize, replace, c, maxMessages, maxRuntime, now))
            && s'.connections == if started || !IsConfirmed(c, opens, answer)
                                 then s.connections[user := ValidateForScan(c, opens, answer).row] else s.connections
  {
    hide ValidateForScan, IsConfirmed, HasActiveJob, ClearAllUserMarkers, Coherent;
    ConfirmationSucceeds(s.connections[user], opens, answer);
  }

  /** A job is created exactly if Telegram confirms the connected account of a user who has no
      active job; it carries what was asked for and the deployment's limits. The connection is left
      as the validation says, unless the user has an active job and nothing is kept. */
  lemma ScansStartForConfirmedAccounts(s: World, a: Action, s': World)
    requires Inv(s) && Next(s, a, s') && a.StartScan?
    ensures a.user !in s.store.connections ==> s'.store == s.store
    ensures a.user in s.store.connections ==>
              var c := s.store.connections[a.user];
              var started := IsConfirmed(c, a.opens, a.answer) && !HasActiveJob(s.store.jobs, a.user);
              && (a.id in s'.store.jobs <==> started)
              && s'.store.jobs == (if started then s.store.jobs[a.id := s'.store.jobs[a.id]] else s.store.jobs)
              && (started ==> IsAskedFor(s'.store.jobs[a.id], a.user, a.pageSize, a.replace, c,
                                         s.settings.maxMessages, s.settings.maxRuntime, s'.clock))
              && s'.store.connections == if started || !IsConfirmed(c, a.opens, a.answer)
                                         then s.store.connections[a.user := ValidateForScan(c, a.opens, a.answer).row] else s.store.connections
  {
    hide Next, Inv, DoUser, Plausible, ValidateForScan, IsConfirmed, IsAskedFor, HasActiveJob, Coherent, ClearAllUserMarkers;
    UserStepIs(s, a, s');
    UserTransaction(s, a, s'.clock);
    LaunchIs(s, a, s');
    if a.user in s.store.connections {
      ConnectionsAreCoherent(s, a.user);
      CreationLeaves(s.store, a.id, a.user, a.pageSize, a.replace, s.settings.maxMessages, s.settings.maxRuntime, a.opens, a.answer, s'.clock);
      hide CreateJob;
    }
  }

  lemma ConnectionsAreCoherent(s: World, user: UserId)
    requires Inv(s) && user in s.store.connections
    ensures Coherent(s.store.connections[user])
  {
    hide GoodJobs, OneActivePerUser, MarkersAreLive, DistinctIds, FreshTokens, WorkersFit;
  }

  /** The user's own changes of a cached message. */
  lemma OrganizingChangesOneColumn(s: World, a: Action, s': World)
    requires Next(s, a, s') && (a.SetCategory? || a.SetTags? || a.EditContent?)
    ensures a.key in s.store.messages && s'.store.messages.Keys == s.store.messages.Keys && s'.store.jobs == s.store.jobs
    ensures forall k :: k in s.store.messages && k != a.key ==> s'.store.messages[k] == s.store.messages[k]
    ensures var m, m' := s.store.messages[a.key], s'.store.messages[a.key];
            && (a.SetCategory? ==> m'.category == a.category && m' == m.(category := m'.category))
            && (a.SetTags? ==> m'.tags == a.tags && m' == m.(tags := m'.tags))
            && (a.EditContent? ==> m'.content == a.content && m' == m.(content := m'.content))
  {
    hide Next;
    OrganizingIs(s, a, s');
  }

  // ---------- Losing the connection ----------

  /** Jobs are cancelled with the connection exactly if they are active, of the user, and bound to
      the provenance, if one is given. */
  predicate CancelsScans(s: World, user: UserId, p: Option<Provenance>, s': World) {
    && s'.store.jobs.Keys == s.store.jobs.Keys
    && forall id :: id in s.store.jobs ==>
         var j, j' := s.store.jobs[id], s'.store.jobs[id];
         if j.user == user && IsActive(j) && (p.Some? ==> j.provenance == p)
         then SameTask(j, j') && IsOver(j', Cancelled, j.reason, s'.clock) && j'.stopRequested && j'.hasError == j.hasError
         else j' == j
  }

  /** Another user is bound to the account already. */
  predicate IsTakenElsewhere(s: World, user: UserId, identity: Option<int>) {
    identity.Some? && exists u :: u in s.store.connections && u != user && s.store.connections[u].principal == identity
  }

  /** What a request comes to for the user's connection. */
  function EffectOf(s: World, user: UserId, r: Request, now: int): Effect
    requires user in s.store.connections
  {
    var c := s.store.connections[user];
    match r
    case AskStatus(opens) => Status(c, opens, now)
    case AskStart(start, opens, phoneOpens, answer) =>
      TelegramAuth.Start(c, start, opens, phoneOpens, answer, IsTakenElsewhere(s, user, answer.identity), now)
    case AskVerify(opens, answer) => Verify(c, opens, answer, IsTakenElsewhere(s, user, answer.identity), now)
    case AskDisconnect => Revoke(c)
  }

  /** A request about a connection changes that connection alone, and cancels the user's scans
      exactly if it says so. */
  lemma RequestsChangeTheirConnection(s: World, a: Action, s': World)
    requires Next(s, a, s') && a.Ask? && a.user in s.store.connections
    ensures var effect := EffectOf(s, a.user, a.request, s'.clock);
            && s'.store.connections == s.store.connections[a.user := effect.row]
            && (if effect.cancelled then CancelsScans(s, a.user, None, s') else s'.store.jobs == s.store.jobs)
  {
    hide Next, DoUser, Plausible, EffectOf, RequestEffect, Apply, CancelsScans;
    UserStepIs(s, a, s');
    UserTransaction(s, a, s'.clock);
    EffectsAreTheirs(s, a.user, a.request, s'.clock);
    AppliedEffect(s, a.user, EffectOf(s, a.user, a.request, s'.clock), s');
  }

  /** The first start of a user creates the connection, unless it is refused. */
  lemma FirstStartsCreateTheConnection(s: World, a: Action, s': World)
    requires Next(s, a, s') && a.Ask? && a.user !in s.store.connections
    ensures !a.request.AskStart? ==> s'.store.connections == s.store.connections
    ensures a.request.AskStart? ==>
              var r := a.request;
              var effect := TelegramAuth.Start(FRESH, r.start, r.sessionOpens, r.phoneOpens, r.startAnswer,
                                               IsTakenElsewhere(s, a.user, r.startAnswer.identity), s'.clock);
              s'.store.connections == if effect.reply.Rejected? then s.store.connections else s.store.connections[a.user := effect.row]
  {
    hide Next, DoUser, Plausible, Start, CancelJobs, BoundJobs, ClearUserMarkers;
    UserStepIs(s, a, s');
    UserTransaction(s, a, s'.clock);
  }

  /** A deletion in Telegram leaves the connection as the attempt does, and cancels the user's scans
      exactly if that says so. */
  lemma DeletionsChangeTheConnection(s: World, a: Action, s': World)
    requires Next(s, a, s') && a.DeleteRemotely?
    ensures a.user !in s.store.connections ==> s'.store == s.store
    ensures a.user in s.store.connections ==>
              var effect := DeleteRemote(s.store.connections[a.user], a.provenance, a.opens, a.answer);
              && s'.store.connections == s.store.connections[a.user := effect.row]
              && (if effect.cancelled then CancelsScans(s, a.user, None, s') else s'.store.jobs == s.store.jobs)
  {
    hide Next, DoUser, Plausible, DeleteRemote, ClearUserMarkers;
    UserStepIs(s, a, s');
    UserTransaction(s, a, s'.clock);
  }

  lemma EffectsAreTheirs(s: World, user: UserId, r: Request, now: int)
    requires user in s.store.connections
    ensures RequestEffect(s.store.connections[user], s.store.connections, user, r, now) == EffectOf(s, user, r, now)
  {
    hide Status, Start, Verify, Revoke;
  }

  lemma AppliedEffect(s: World, user: UserId, effect: Effect, s': World)
    requires user in s.store.connections && s'.store == Apply(s.store, user, effect, s'.clock)
    ensures s'.store.connections == s.store.connections[user := effect.row]
    ensures if effect.cancelled then CancelsScans(s, user, None, s') else s'.store.jobs == s.store.jobs
  {
    hide ClearUserMarkers;
  }

  /** A disconnect erases the connection and cancels every scan of the user. */
  lemma DisconnectsEraseEverything(s: World, a: Action, s': World)
    requires Next(s, a, s') && a.Ask? && a.request.AskDisconnect?
    ensures CancelsScans(s, a.user, None, s') && !HasActiveJob(s'.store.jobs, a.user)
    ensures s'.store.connections.Keys == s.store.connections.Keys
    ensures forall u :: u in s.store.connections ==>
              if u == a.user then IsCleared(s'.store.connections[u], Disconnected, s.store.connections[u].generation + 1)
              else s'.store.connections[u] == s.store.connections[u]
  {
    hide Next, DoUser, Plausible, Revoke, CancelsScans, CancelBound, HasActiveJob;
    UserStepIs(s, a, s');
    UserTransaction(s, a, s'.clock);
    if a.user in s.store.connections {
      RequestsChangeTheirConnection(s, a, s');
      DisconnectingErases(s.store.connections[a.user]);
    } else {
      CancellingLeaves(s, a.user, s');
    }
    CancelledMeansInactive(s, a.user, s');
  }

  lemma CancellingLeaves(s: World, user: UserId, s': World)
    requires s'.store == CancelBound(s.store, user, None, s'.clock)
    ensures CancelsScans(s, user, None, s') && s'.store.connections == s.store.connections
  {
    hide ClearUserMarkers;
  }

  lemma CancelledMeansInactive(s: World, user: UserId, s': World)
    requires CancelsScans(s, user, None, s')
    ensures !HasActiveJob(s'.store.jobs, user)
  {
  }

  /** A worker that finds itself unauthorized erases the connection its job is bound to and cancels
      the scans bound to it, and nothing if the user has reconnected. */
  lemma LostAuthorizationsErase(s: World, a: Action, s': World)
    requires Next(s, a, s') && a.LoseAuthorization?
    ensures Slicing(s, a.w) && s'.store.connections.Keys == s.store.connections.Keys
    ensures var l := WorkerOf(s, a.w).lease;
            if l.user in s.store.connections && s.store.connections[l.user].principal == Some(l.provenance.principal)
               && s.store.connections[l.user].generation == l.provenance.generation
            then
              && IsCleared(s'.store.connections[l.user], Disconnected, s.store.connections[l.user].generation + 1)
              && (forall u :: u in s.store.connections && u != l.user ==> s'.store.connections[u] == s.store.connections[u])
              && CancelsScans(s, l.user, Some(l.provenance), s')
            else s'.store == s.store
  {
    hide Next, ClearUserMarkers;
    WorkerStepIs(s, a, s');
  }

  /** A worker that cannot open the secrets erases the connection its job is bound to. */
  lemma UnreadableConnectionsAreErased(s: World, a: Action, s': World)
    requires Inv(s) && Next(s, a, s') && a.FindUnreadable?
    ensures Slicing(s, a.w) && s'.store.jobs == s.store.jobs && s'.store.connections.Keys == s.store.connections.Keys
    ensures var l := WorkerOf(s, a.w).lease;
            forall u :: u in s.store.connections ==>
              var c := s.store.connections[u];
              if u == l.user && c.state == Connected && c.principal == Some(l.provenance.principal) && c.generation == l.provenance.generation
              then IsCleared(s'.store.connections[u], Errored, c.generation + 1) else s'.store.connections[u] == c
  {
    hide Next, GoodJobs, OneActivePerUser, MarkersAreLive, DistinctIds, FreshTokens, WorkersFit, GoodSettings;
    WorkerStepIs(s, a, s');
    assert forall u :: u in s.store.connections ==> Coherent(s.store.connections[u]);
  }

  /** A refreshed session is saved for the holder exactly while the connection is connected as the
      job's own. */
  lemma RefreshedSessionsAreSaved(s: World, a: Action, s': World)
    requires Next(s, a, s') && a.SaveRefreshedSession? && ActsAsHolder(s, a, s'.clock)
    ensures s'.store.jobs == s.store.jobs && s'.store.messages == s.store.messages
    ensures var l := WorkerOf(s, a.w).lease;
            var c := if l.user in s.store.connections then s.store.connections[l.user] else FRESH;
            if c.state == Connected && c.principal == Some(l.provenance.principal) && c.generation == l.provenance.generation
            then s'.store.connections == s.store.connections[l.user := c.(session := Some(a.session))] && s'.workers == s.workers
            else s'.store == s.store
  {
    hide Next, Holds, Refresh, ConnectionMatches;
    WorkerStepIs(s, a, s');
    RefreshIs(s, a.w, a.session, s'.clock);
    MatchingConnections(s.store, WorkerOf(s, a.w).lease);
  }

  lemma RefreshIs(s: World, w: WorkerId, session: Cipher, now: int)
    requires Slicing(s, w) && Holds(s.store, WorkerOf(s, w).lease, now)
    ensures var l, s' := WorkerOf(s, w).lease, Refresh(s, w, session, now);
            && (ConnectionMatches(s.store, l) ==>
                  && l.user in s.store.connections && s'.workers == s.workers
                  && s'.store == s.store.(connections := s.store.connections[l.user := s.store.connections[l.user].(session := Some(session))]))
            && (!ConnectionMatches(s.store, l) ==> s'.store == s.store)
  {
    hide Holds, KeepsHistory;
  }

  lemma MatchingConnections(s: Store, l: Lease)
    ensures var c := if l.user in s.connections then s.connections[l.user] else FRESH;
            ConnectionMatches(s, l) <==>
              c.state == Connected && c.principal == Some(l.provenance.principal) && c.generation == l.provenance.generation
  {
  }
}
