/** The queue of claimable scans. A worker picks the job that waited longest and claims it; a
    claim puts the job at the back of the queue. With a clock that always advances nobody gets in
    front of a waiting job, so only claims from stale picks overtake it more often than there
    were jobs in front of it: not at all, if pick and claim are adjacent, and boundedly often, if
    every worker makes one claim per pick. */
module FairQueue {
  import opened Wrappers
  import opened ScanRows
  import opened TelegramAuth
  import opened ScanTransactions
  import opened StoreRules
  import opened Scanner
  import opened ScanProtocol
  import opened ProtocolInvariant
  import opened Fencing

  // ---------- The order of the queue ----------

  /** coalesce(heartbeat_at, created_at) */
  function WaitingSince(j: Job): int { if j.heartbeatAt.Some? then j.heartbeatAt.value else j.createdAt }

  predicate NotAfter(i: Job, j: Job) {
    WaitingSince(i) < WaitingSince(j) || (WaitingSince(i) == WaitingSince(j) && i.createdAt <= j.createdAt)
  }

  /** What the pick considers; unlike the claim it does not look at the provenance. */
  predicate Pickable(j: Job, now: int) { j.state == Pending || (j.state == Running && LeaseExpired(j, now)) }

  /** `id` is a first row of the ordered select. */
  predicate IsPick(jobs: map<JobId, Job>, id: JobId, now: int) {
    && id in jobs && Pickable(jobs[id], now)
    && forall other :: other in jobs && Pickable(jobs[other], now) ==> NotAfter(jobs[id], jobs[other])
  }

  /** What can be picked is what can be claimed, and jobs without provenance, which a claim fails. */
  lemma PicksFindFreeJobs(j: Job, now: int)
    requires j.provenance.Some?
    ensures Pickable(j, now) <==> Claimable(j, now)
  {
  }

  /** As long as a job can be picked, some job is. */
  lemma {:induction false} SomeJobIsPicked(jobs: map<JobId, Job>, now: int) returns (picked: JobId)
    requires exists id :: id in jobs && Pickable(jobs[id], now)
    ensures IsPick(jobs, picked, now)
  {
    var ids := set id | id in jobs && Pickable(jobs[id], now);
    var some :| some in jobs && Pickable(jobs[some], now);
    assert some in ids;
    picked := FirstOf(jobs, ids);
  }

  lemma {:induction false} FirstOf(jobs: map<JobId, Job>, ids: set<JobId>) returns (first: JobId)
    requires ids != {} && forall id :: id in ids ==> id in jobs
    ensures first in ids && forall id :: id in ids ==> NotAfter(jobs[first], jobs[id])
  {
    first :| first in ids;
    if ids != {first} {
      var other := FirstOf(jobs, ids - {first});
      if NotAfter(jobs[other], jobs[first]) { first := other; }
    }
  }

  /** The other active jobs that a pick may prefer to `id`. */
  function Before(jobs: map<JobId, Job>, id: JobId): set<JobId>
    requires id in jobs
  {
    set other | other in jobs && other != id && IsActive(jobs[other]) && NotAfter(jobs[other], jobs[id])
  }

  // ---------- Heartbeats ----------

  /** Rows are not from the future. */
  predicate Timely(s: World) {
    forall id :: id in s.store.jobs ==> s.store.jobs[id].createdAt <= s.clock && WaitingSince(s.store.jobs[id]) <= s.clock
  }

  /** A heartbeat moves to the present only by a claim of this job, or while the lease runs. */
  predicate Beats(j: Job, j': Job, claimed: bool, now: int) {
    || j'.heartbeatAt == j.heartbeatAt
    || (j'.heartbeatAt == Some(now) && (claimed || !LeaseExpired(j, now)))
  }

  predicate AllBeat(jobs: map<JobId, Job>, jobs': map<JobId, Job>, claimed: Option<JobId>, now: int) {
    && (forall id :: id in jobs && id in jobs' ==> Beats(jobs[id], jobs'[id], claimed == Some(id), now))
    && (forall id :: id in jobs' && id !in jobs ==> jobs'[id].heartbeatAt.None? && jobs'[id].createdAt == now)
  }

  function ClaimedJob(a: Action): Option<JobId> { if a.ClaimJob? then Some(a.id) else None }

  lemma CancellingBeatsNothing(s: Store, user: UserId, p: Option<Provenance>, now: int)
    ensures AllBeat(s.jobs, CancelBound(s, user, p, now).jobs, None, now)
  {
    hide ClearUserMarkers;
  }

  lemma RequestsBeatNothing(s: Store, user: UserId, effect: Effect, now: int)
    ensures AllBeat(s.jobs, Apply(s, user, effect, now).jobs, None, now)
  {
    CancellingBeatsNothing(s.(connections := s.connections[user := effect.row]), user, None, now);
    hide CancelBound;
  }

  lemma ServingBeatsNothing(s: Store, user: UserId, r: Request, now: int)
    ensures AllBeat(s.jobs, Serve(s, user, r, now).jobs, None, now)
  {
    var c := if user in s.connections then s.connections[user] else FRESH;
    RequestsBeatNothing(s, user, RequestEffect(c, s.connections, user, r, now), now);
    CancellingBeatsNothing(s, user, None, now);
    hide Apply, CancelBound, RequestEffect;
  }

  lemma DeletingBeatsNothing(s: Store, user: UserId, p: Provenance, keys: set<Key>, opens: bool, answer: IdentityAnswer, now: int)
    ensures AllBeat(s.jobs, DeleteEverywhere(s, user, p, keys, opens, answer, now).jobs, None, now)
  {
    if user in s.connections { RequestsBeatNothing(s, user, DeleteRemote(s.connections[user], p, opens, answer), now); }
    hide Apply, DeleteRemote;
  }

  lemma DowngradeBeatsNothing(s: Store, l: Lease, now: int)
    ensures AllBeat(s.jobs, Downgrade(s, l, now).jobs, None, now)
  {
    if ConnectionBelongsTo(s, l) {
      CancellingBeatsNothing(s.(connections := s.connections[l.user := Erased(s.connections[l.user], Disconnected)]),
                             l.user, Some(l.provenance), now);
    }
    hide CancelBound;
  }

  lemma CreatingBeatsNothing(s: Store, id: JobId, user: UserId, pageSize: nat, replace: bool, maxMessages: nat, maxRuntime: nat, opens: bool,
                             answer: IdentityAnswer, now: int)
    requires id !in s.jobs
    ensures AllBeat(s.jobs, CreateJob(s, id, user, pageSize, replace, maxMessages, maxRuntime, opens, answer, now).jobs, None, now)
  {
    hide ClearAllUserMarkers, ValidateForScan, HasActiveJob;
  }

  lemma StoppingBeatsNothing(s: Store, id: JobId, now: int)
    requires id in s.jobs
    ensures AllBeat(s.jobs, CancelStale(s, id, now).jobs, None, now) && AllBeat(s.jobs, Stop(s, id, now).jobs, None, now)
  {
    hide ClearUserMarkers;
  }

  lemma UserActionsBeatNothing(s: World, a: Action, now: int)
    requires Enabled(s, a, now) && IsUserAction(a)
    ensures AllBeat(s.store.jobs, DoUser(s, a, now).store.jobs, None, now)
  {
    hide AllBeat, Serve, DeleteEverywhere, CreateJob, CancelStale, Stop, DoUser, Plausible, MayConclude, BuildPage;
    UserTransaction(s, a, now);
    NothingBeats(s.store.jobs, None, now);
    match a {
      case FinishStale(id) => StoppingBeatsNothing(s.store, id, now);
      case StopScan(id) => StoppingBeatsNothing(s.store, id, now);
      case StartScan(id, user, pageSize, replace, opens, answer) =>
        CreatingBeatsNothing(s.store, id, user, pageSize, replace, s.settings.maxMessages, s.settings.maxRuntime, opens, answer, now);
      case Ask(user, r) => ServingBeatsNothing(s.store, user, r, now);
      case DeleteRemotely(user, p, keys, opens, answer) => DeletingBeatsNothing(s.store, user, p, keys, opens, answer, now);
      case _ =>
    }
  }

  lemma ClaimBeats(s: Store, id: JobId, token: Token, now: int)
    ensures AllBeat(s.jobs, Claim(s, id, token, now).jobs, Some(id), now)
  {
    hide ClearMarkers;
  }

  lemma SweepBeatsNothing(s: Store, now: int)
    ensures AllBeat(s.jobs, TerminalizeExpired(s, now).jobs, None, now)
  {
    hide ClearMarkers;
  }

  lemma OneRowBeats(jobs: map<JobId, Job>, id: JobId, row: Job, now: int)
    requires id in jobs && Beats(jobs[id], row, false, now)
    ensures AllBeat(jobs, jobs[id := row], None, now)
  {
  }

  lemma NothingBeats(jobs: map<JobId, Job>, claimed: Option<JobId>, now: int)
    ensures AllBeat(jobs, jobs, claimed, now)
  {
  }

  lemma FinishBeats(s: World, w: WorkerId, decided: int, now: int)
    requires Slicing(s, w) && WorkerOf(s, w).ending.Some? && WorkerOf(s, w).ending.value.Ended?
    ensures AllBeat(s.store.jobs, Finish(s, w, decided, now).store.jobs, None, now)
  {
    var l := WorkerOf(s, w).lease;
    NothingBeats(s.store.jobs, None, now);
    hide AllBeat, Swept, ClearUserMarkers, ImportsNothing;
    if Holds(s.store, l, now) { OneRowBeats(s.store.jobs, l.job, Finish(s, w, decided, now).store.jobs[l.job], now); }
  }

  lemma HeartbeatBeats(s: World, w: WorkerId, now: int)
    requires Slicing(s, w)
    ensures AllBeat(s.store.jobs, Beat(s, w, now).store.jobs, None, now)
    ensures AllBeat(s.store.jobs, Fail(s, w, now).store.jobs, None, now)
    ensures AllBeat(s.store.jobs, GiveBack(s, w, now).store.jobs, None, now)
  {
    var l := WorkerOf(s, w).lease;
    NothingBeats(s.store.jobs, None, now);
    hide AllBeat, Swept, ClearUserMarkers, ImportsNothing;
    if Holds(s.store, l, now) {
      OneRowBeats(s.store.jobs, l.job, RenewRow(s.store.jobs[l.job], now), now);
      OneRowBeats(s.store.jobs, l.job, FinalizeRow(s.store.jobs[l.job], Failed, None, now), now);
    }
    if HoldsIgnoringExpiry(s.store, l) { OneRowBeats(s.store.jobs, l.job, ReleaseRow(s.store.jobs[l.job], now), now); }
  }

  lemma CommitBeats(s: World, w: WorkerId, raw: seq<Scanned>, keep: nat, now: int)
    requires MayFetch(WorkerOf(s, w)) && keep <= |BuildPage(raw, Capacity(WorkerOf(s, w))).messages|
    ensures AllBeat(s.store.jobs, Commit(s, w, raw, keep, now).store.jobs, None, now)
  {
    hide AllBeat, UpsertAll, BuildPage, AfterPage, OnlyScans, PersistOutcome;
    var l, page := WorkerOf(s, w).lease, PageFor(WorkerOf(s, w), raw, keep);
    NothingBeats(s.store.jobs, None, now);
    if PersistOutcome(s.store, l, page, now) == PagePersisted {
      PersistedJobExists(s.store, l, page, now);
      OneRowBeats(s.store.jobs, l.job, PageRow(s.store.jobs[l.job], page), now);
    }
  }

  lemma WorkersBeat(s: World, a: Action, now: int)
    requires Enabled(s, a, now) && !IsUserAction(a)
    ensures AllBeat(s.store.jobs, DoWorker(s, a, now).store.jobs, ClaimedJob(a), now)
  {
    hide AllBeat, Claim, TerminalizeExpired, Downgrade, ReadLease, Commit, Finish, Beat, Fail, GiveBack, MayConclude, BuildPage;
    NothingBeats(s.store.jobs, ClaimedJob(a), now);
    match a {
      case ClaimJob(_, id, token) => ClaimBeats(s.store, id, token, now);
      case Sweep => SweepBeatsNothing(s.store, now);
      case LoseAuthorization(w) => DowngradeBeatsNothing(s.store, WorkerOf(s, w).lease, now);
      case CommitPage(w, raw, keep) => CommitBeats(s, w, raw, keep, now);
      case FinishSlice(w, decided) => FinishBeats(s, w, decided, now);
      case Heartbeat(w) => HeartbeatBeats(s, w, now);
      case FailSlice(w) => HeartbeatBeats(s, w, now);
      case ReleaseSlice(w) => HeartbeatBeats(s, w, now);
      case _ =>
    }
  }

  lemma StepBeats(s: World, a: Action, s': World)
    requires Next(s, a, s')
    ensures AllBeat(s.store.jobs, s'.store.jobs, ClaimedJob(a), s'.clock)
  {
    hide Enabled, DoUser, DoWorker;
    if IsUserAction(a) { UserActionsBeatNothing(s, a, s'.clock); } else { WorkersBeat(s, a, s'.clock); }
  }

  // ---------- One step of the queue ----------

  /** `id` waits through a step: it could be picked at its time, and it is not claimed. */
  predicate WaitsThrough(s: World, a: Action, s': World, id: JobId) {
    id in s.store.jobs && Pickable(s.store.jobs[id], s'.clock) && !(a.ClaimJob? && a.id == id)
  }

  /** What a step may do to the rows, as far as the queue is concerned. */
  predicate QueueEvolves(jobs: map<JobId, Job>, jobs': map<JobId, Job>, claimed: Option<JobId>, now: int) {
    && AllBeat(jobs, jobs', claimed, now)
    && forall id :: id in jobs ==>
         id in jobs' && jobs'[id].createdAt == jobs[id].createdAt && (IsActive(jobs'[id]) ==> IsActive(jobs[id]))
  }

  lemma StepQueueEvolves(s: World, a: Action, s': World)
    requires Inv(s) && Next(s, a, s')
    ensures QueueEvolves(s.store.jobs, s'.store.jobs, ClaimedJob(a), s'.clock)
  {
    hide Enabled, Do, Inv, KeepsOrganization, Administrative, SameProgress, AllBeat, Next;
    StepBeats(s, a, s');
    InvStep(s, a, s');
  }

  lemma TimelyStep(s: World, a: Action, s': World)
    requires Inv(s) && Timely(s) && Next(s, a, s')
    ensures Timely(s')
  {
    hide Inv, Enabled, Do, QueueEvolves;
    StepQueueEvolves(s, a, s');
    RowsStayTimely(s, s', ClaimedJob(a));
  }

  lemma RowsStayTimely(s: World, s': World, claimed: Option<JobId>)
    requires Timely(s) && s.clock <= s'.clock && QueueEvolves(s.store.jobs, s'.store.jobs, claimed, s'.clock)
    ensures Timely(s')
  {
    forall id | id in s'.store.jobs ensures s'.store.jobs[id].createdAt <= s'.clock && WaitingSince(s'.store.jobs[id]) <= s'.clock {
      if id in s.store.jobs { assert Beats(s.store.jobs[id], s'.store.jobs[id], claimed == Some(id), s'.clock); }
    }
  }

  lemma RowsStayBehind(jobs: map<JobId, Job>, jobs': map<JobId, Job>, claimed: Option<JobId>, now: int, id: JobId)
    requires QueueEvolves(jobs, jobs', claimed, now) && id in jobs && claimed != Some(id)
    requires WaitingSince(jobs[id]) < now && jobs[id].createdAt < now
    requires jobs[id].expiresAt.None? || LeaseExpired(jobs[id], now)
    ensures id in jobs' && WaitingSince(jobs'[id]) == WaitingSince(jobs[id]) && Before(jobs', id) <= Before(jobs, id)
  {
    assert Beats(jobs[id], jobs'[id], false, now);
    assert jobs'[id].heartbeatAt == jobs[id].heartbeatAt;
    forall other | other in Before(jobs', id) ensures other in Before(jobs, id) {
      if other in jobs { assert Beats(jobs[other], jobs'[other], claimed == Some(other), now); }
    }
  }

  /** While a job waits, nobody gets in front of it. */
  lemma NobodyGetsAhead(s: World, a: Action, s': World, id: JobId)
    requires Inv(s) && Timely(s) && Next(s, a, s') && s.clock < s'.clock && WaitsThrough(s, a, s', id)
    ensures id in s'.store.jobs && Before(s'.store.jobs, id) <= Before(s.store.jobs, id)
  {
    assert GoodJob(s.store.jobs[id]);
    StepQueueEvolves(s, a, s');
    hide Inv, Next, QueueEvolves, Before;
    RowsStayBehind(s.store.jobs, s'.store.jobs, ClaimedJob(a), s'.clock, id);
  }

  /** The action claims a job that is free to be claimed. */
  predicate Takes(s: World, a: Action, s': World) {
    a.ClaimJob? && a.id in s.store.jobs && Pickable(s.store.jobs[a.id], s'.clock)
  }

  /** A job that is taken is behind every job that waits, wherever it was before. */
  lemma TakenIsBehind(s: World, a: Action, s': World, id: JobId)
    requires Inv(s) && Timely(s) && Next(s, a, s') && s.clock < s'.clock && WaitsThrough(s, a, s', id) && Takes(s, a, s')
    ensures id in s'.store.jobs && a.id !in Before(s'.store.jobs, id)
  {
    NobodyGetsAhead(s, a, s', id);
    WaitingStays(s, a, s', id);
    ClaimMoves(s, a, s');
    hide Next, Inv;
  }

  lemma WaitingStays(s: World, a: Action, s': World, id: JobId)
    requires Inv(s) && Timely(s) && Next(s, a, s') && s.clock < s'.clock && WaitsThrough(s, a, s', id)
    ensures id in s'.store.jobs && WaitingSince(s'.store.jobs[id]) < s'.clock
  {
    assert GoodJob(s.store.jobs[id]);
    StepQueueEvolves(s, a, s');
    hide Inv, Next, QueueEvolves, Before;
    RowsStayBehind(s.store.jobs, s'.store.jobs, ClaimedJob(a), s'.clock, id);
  }

  /** A pick prefers the picked job to every other that could be picked. */
  lemma PickIsInFront(jobs: map<JobId, Job>, picked: JobId, now: int, id: JobId)
    requires IsPick(jobs, picked, now) && id in jobs && Pickable(jobs[id], now) && picked != id
    ensures picked in Before(jobs, id)
  {
  }

  lemma ClaimMoves(s: World, a: Action, s': World)
    requires Inv(s) && Next(s, a, s') && a.ClaimJob? && a.id in s.store.jobs && Pickable(s.store.jobs[a.id], s'.clock)
    ensures a.id in s'.store.jobs
    ensures IsActive(s'.store.jobs[a.id]) ==> WaitingSince(s'.store.jobs[a.id]) == s'.clock
  {
    assert GoodJob(s.store.jobs[a.id]);
    hide Inv, ClearMarkers, DoUser, GoodJob;
  }

  /** A slice that is requeued puts its job at the back of the queue, a slice that is released
      leaves it where it was, and neither job counts as running. */
  lemma SlicesReturnToTheQueue(s: World, w: WorkerId, decided: int, now: int)
    requires Inv(s) && Slicing(s, w) && HoldsIgnoringExpiry(s.store, WorkerOf(s, w).lease)
    requires !s.store.jobs[WorkerOf(s, w).lease.job].stopRequested
    ensures var id, s' := WorkerOf(s, w).lease.job, GiveBack(s, w, now);
            id in s'.store.jobs && s'.store.jobs[id].state == Pending && WaitingSince(s'.store.jobs[id]) == WaitingSince(s.store.jobs[id])
    ensures var v := WorkerOf(s, w);
            v.ending.Some? && v.ending.value.Ended? && Disposition(v, decided).None? && Holds(s.store, v.lease, now) ==>
              var s' := Finish(s, w, decided, now);
              v.lease.job in s'.store.jobs && s'.store.jobs[v.lease.job].state == Pending && WaitingSince(s'.store.jobs[v.lease.job]) == now
  {
    hide OneActivePerUser, MarkersAreLive, DistinctIds, GoodConnections, FreshTokens, WorkersFit, ClearUserMarkers, Swept, ImportsNothing,
         OnlyScans;
    SliceFits(s, w);
    assert GoodJob(s.store.jobs[WorkerOf(s, w).lease.job]);
  }

  // ---------- Runs ----------

  lemma {:induction false} TimelyAlways(run: seq<World>, actions: seq<Action>, i: nat)
    requires IsRun(run, actions) && i < |run|
    ensures Timely(run[i])
  {
    hide Next, Inv;
    if i > 0 {
      TimelyAlways(run, actions, i - 1);
      InvAlways(run, actions, i - 1);
      TimelyStep(run[i - 1], actions[i - 1], run[i]);
    }
  }

  /** A stretch of a run in which the clock always advances and job `id` waits all the time. */
  predicate WaitsFrom(run: seq<World>, actions: seq<Action>, i: nat, k: nat, id: JobId) {
    && IsRun(run, actions) && i <= k <= |actions| < |run| && id in run[i].store.jobs
    && forall n :: i <= n < k ==> run[n].clock < run[n + 1].clock && WaitsThrough(run[n], actions[n], run[n + 1], id)
  }

  /** How many jobs are taken. */
  function Taken(run: seq<World>, actions: seq<Action>, i: nat, k: nat): nat
    requires i <= k <= |actions| < |run|
  {
    if i == k then 0 else Taken(run, actions, i, k - 1) + if Takes(run[k - 1], actions[k - 1], run[k]) then 1 else 0
  }

  /** A job is taken from in front of `id`. */
  predicate TakesFront(s: World, a: Action, s': World, id: JobId) {
    Takes(s, a, s') && id in s.store.jobs && a.id in Before(s.store.jobs, id)
  }

  /** How many of them are still in front of `id` when they are taken. */
  function TakenFront(run: seq<World>, actions: seq<Action>, i: nat, k: nat, id: JobId): nat
    requires i <= k <= |actions| < |run|
  {
    if i == k then 0
    else TakenFront(run, actions, i, k - 1, id) + if TakesFront(run[k - 1], actions[k - 1], run[k], id) then 1 else 0
  }

  /** How many of them are not. */
  function TakenBehind(run: seq<World>, actions: seq<Action>, i: nat, k: nat, id: JobId): nat
    requires i <= k <= |actions| < |run|
  {
    if i == k then 0
    else
      var s, a, s' := run[k - 1], actions[k - 1], run[k];
      TakenBehind(run, actions, i, k - 1, id) + if Takes(s, a, s') && !TakesFront(s, a, s', id) then 1 else 0
  }

  /** Whatever was picked: while a job waits, the jobs in front of it only become fewer, by one at
      least with every job taken from there. What overtakes it beyond that are the jobs taken
      from behind it. */
  lemma {:induction false} BypassIsFromBehind(run: seq<World>, actions: seq<Action>, i: nat, k: nat, id: JobId)
    requires WaitsFrom(run, actions, i, k, id)
    ensures i <= k <= |actions| < |run| && id in run[i].store.jobs
    ensures id in run[k].store.jobs && Before(run[k].store.jobs, id) <= Before(run[i].store.jobs, id)
    ensures TakenFront(run, actions, i, k, id) + |Before(run[k].store.jobs, id)| <= |Before(run[i].store.jobs, id)|
    ensures Taken(run, actions, i, k) == TakenFront(run, actions, i, k, id) + TakenBehind(run, actions, i, k, id)
  {
    hide Next, Inv, Init, Timely, Before, Pickable, WaitsThrough;
    if i < k {
      var s, a, s' := run[k - 1], actions[k - 1], run[k];
      BypassIsFromBehind(run, actions, i, k - 1, id);
      InvAlways(run, actions, k - 1);
      TimelyAlways(run, actions, k - 1);
      NobodyGetsAhead(s, a, s', id);
      SubsetSplits(Before(s'.store.jobs, id), Before(s.store.jobs, id));
      if TakesFront(s, a, s', id) {
        TakenIsBehind(s, a, s', id);
        StrictSubset(Before(s'.store.jobs, id), Before(s.store.jobs, id), a.id);
      }
    }
  }

  // ---------- Pick and claim adjacent ----------

  /** Every claim is of the job just picked. */
  predicate PicksAreFresh(run: seq<World>, actions: seq<Action>, i: nat, k: nat)
    requires i <= k <= |actions| < |run|
  {
    forall n :: i <= n < k && actions[n].ClaimJob? ==> IsPick(run[n].store.jobs, actions[n].id, run[n + 1].clock)
  }

  function Claims(actions: seq<Action>, i: nat, k: nat): nat
    requires i <= k <= |actions|
  {
    if i == k then 0 else Claims(actions, i, k - 1) + if actions[k - 1].ClaimJob? then 1 else 0
  }

  lemma FreshPickTakesFront(s: World, a: Action, s': World, id: JobId)
    requires WaitsThrough(s, a, s', id) && a.ClaimJob? && IsPick(s.store.jobs, a.id, s'.clock)
    ensures TakesFront(s, a, s', id)
  {
    PickIsInFront(s.store.jobs, a.id, s'.clock, id);
  }

  lemma {:induction false} FreshPicksTakeFront(run: seq<World>, actions: seq<Action>, i: nat, k: nat, id: JobId)
    requires WaitsFrom(run, actions, i, k, id) && PicksAreFresh(run, actions, i, k)
    ensures Claims(actions, i, k) == TakenFront(run, actions, i, k, id)
  {
    hide Next, Init, WaitsThrough, IsPick, Before;
    if i < k {
      FreshPicksTakeFront(run, actions, i, k - 1, id);
      if actions[k - 1].ClaimJob? { FreshPickTakesFront(run[k - 1], actions[k - 1], run[k], id); }
    }
  }

  /** Bounded bypass: while a job waits, at most as many claims are made as there were active
      jobs in front of it. So one claim more, and the job itself is claimed. */
  lemma BoundedBypass(run: seq<World>, actions: seq<Action>, i: nat, k: nat, id: JobId)
    requires WaitsFrom(run, actions, i, k, id) && PicksAreFresh(run, actions, i, k)
    ensures id in run[k].store.jobs && Before(run[k].store.jobs, id) <= Before(run[i].store.jobs, id)
    ensures Claims(actions, i, k) + |Before(run[k].store.jobs, id)| <= |Before(run[i].store.jobs, id)|
  {
    BypassIsFromBehind(run, actions, i, k, id);
    FreshPicksTakeFront(run, actions, i, k, id);
  }

  /** No job overtakes a waiting job twice. */
  lemma NoJobOvertakesTwice(run: seq<World>, actions: seq<Action>, i: nat, k: nat, id: JobId, n: nat, m: nat)
    requires WaitsFrom(run, actions, i, k, id) && PicksAreFresh(run, actions, i, k) && i <= n < m < k
    requires actions[n].ClaimJob? && actions[m].ClaimJob?
    ensures actions[n].id != actions[m].id
  {
    hide Next, Inv, Init, Timely, Before, IsPick;
    InvAlways(run, actions, n);
    TimelyAlways(run, actions, n);
    assert WaitsThrough(run[n], actions[n], run[n + 1], id) && WaitsThrough(run[m], actions[m], run[m + 1], id);
    FreshPickTakesFront(run[n], actions[n], run[n + 1], id);
    TakenIsBehind(run[n], actions[n], run[n + 1], id);
    FreshPickTakesFront(run[m], actions[m], run[m + 1], id);
    BypassIsFromBehind(run, actions, n + 1, m, id);
  }

  /** As long as a job can be picked, one claim more than there were jobs in front of it and
      it has been claimed itself. */
  lemma WaitingJobIsClaimed(run: seq<World>, actions: seq<Action>, i: nat, k: nat, id: JobId)
    requires CouldBePicked(run, actions, i, k, id) && PicksAreFresh(run, actions, i, k)
    requires |Before(run[i].store.jobs, id)| < Claims(actions, i, k)
    ensures exists n :: i <= n < k && ClaimedJob(actions[n]) == Some(id)
  {
    hide Next, Init, Before, IsPick, Pickable;
    if forall n :: i <= n < k ==> ClaimedJob(actions[n]) != Some(id) {
      UnclaimedWaits(run, actions, i, k, id);
      BoundedBypass(run, actions, i, k, id);
    }
  }

  /** Job `id` could be picked all the time, while the clock advances. */
  predicate CouldBePicked(run: seq<World>, actions: seq<Action>, i: nat, k: nat, id: JobId) {
    && IsRun(run, actions) && i <= k <= |actions| < |run| && id in run[i].store.jobs
    && forall n :: i <= n < k ==>
         run[n].clock < run[n + 1].clock && id in run[n].store.jobs && Pickable(run[n].store.jobs[id], run[n + 1].clock)
  }

  lemma UnclaimedWaits(run: seq<World>, actions: seq<Action>, i: nat, k: nat, id: JobId)
    requires CouldBePicked(run, actions, i, k, id) && forall n :: i <= n < k ==> ClaimedJob(actions[n]) != Some(id)
    ensures WaitsFrom(run, actions, i, k, id)
  {
    hide Next, Init, Pickable;
    forall n | i <= n < k ensures WaitsThrough(run[n], actions[n], run[n + 1], id) { assert ClaimedJob(actions[n]) != Some(id); }
  }

  // ---------- Stale picks, one claim each ----------

  /** What a claim was made from: the step before which the worker looked, and its clock then. */
  datatype Pick = Pick(step: nat, now: int)

  /** Step `n` takes a job. */
  predicate TakesAt(run: seq<World>, actions: seq<Action>, n: nat)
    requires n < |actions| < |run|
  {
    Takes(run[n], actions[n], run[n + 1])
  }

  /** In step `n` worker `w` takes a job. */
  predicate TakesAs(run: seq<World>, actions: seq<Action>, n: nat, w: WorkerId)
    requires n < |actions| < |run|
  {
    TakesAt(run, actions, n) && actions[n].w == w
  }

  /** Every job taken was picked at some time since the worker took its last one, however long
      ago; a pick made while `id` waits considers it, too. */
  predicate OneClaimPerPick(run: seq<World>, actions: seq<Action>, picks: map<nat, Pick>, i: nat, k: nat, id: JobId)
    requires i <= k <= |actions| < |run|
  {
    forall n :: i <= n < k && TakesAt(run, actions, n) ==>
      && n in picks && picks[n].step <= n
      && (i <= picks[n].step ==> ConsidersBoth(run[picks[n].step].store.jobs, actions[n].id, picks[n].now, id))
      && forall m :: i <= m < n && TakesAs(run, actions, m, actions[n].w) ==> m < picks[n].step
  }

  predicate ConsidersBoth(jobs: map<JobId, Job>, picked: JobId, now: int, id: JobId) {
    IsPick(jobs, picked, now) && id in jobs && Pickable(jobs[id], now)
  }

  function TakenAs(run: seq<World>, actions: seq<Action>, i: nat, k: nat, w: WorkerId): nat
    requires i <= k <= |actions| < |run|
  {
    if i == k then 0
    else TakenAs(run, actions, i, k - 1, w) + if TakesAs(run, actions, k - 1, w) then 1 else 0
  }

  /** The jobs worker `w` picked and took while `id` waited. */
  function Overtakers(run: seq<World>, actions: seq<Action>, picks: map<nat, Pick>, i: nat, k: nat, w: WorkerId): set<JobId>
    requires i <= k <= |actions| < |run|
  {
    if i == k then {}
    else
      Overtakers(run, actions, picks, i, k - 1, w)
        + if TakesAs(run, actions, k - 1, w) && k - 1 in picks && i <= picks[k - 1].step then {actions[k - 1].id} else {}
  }

  lemma {:induction false} NothingTakenBetween(run: seq<World>, actions: seq<Action>, picks: map<nat, Pick>, i: nat, p: nat, k: nat, w: WorkerId)
    requires i <= p <= k <= |actions| < |run|
    requires forall m :: p <= m < k ==> !TakesAs(run, actions, m, w)
    ensures Overtakers(run, actions, picks, i, k, w) == Overtakers(run, actions, picks, i, p, w)
    ensures TakenAs(run, actions, i, k, w) == TakenAs(run, actions, i, p, w)
  {
    hide TakesAs;
    if p < k { NothingTakenBetween(run, actions, picks, i, p, k - 1, w); }
  }

  /** The jobs a worker picked and took while `id` waited were in front of it, are no more, and
      are different each time; besides them the worker took at most one job, from an older pick. */
  lemma {:induction false} OvertakersWereInFront(run: seq<World>, actions: seq<Action>, picks: map<nat, Pick>, i: nat, k: nat, id: JobId, w: WorkerId)
    requires WaitsFrom(run, actions, i, k, id) && OneClaimPerPick(run, actions, picks, i, k, id)
    ensures id in run[k].store.jobs
    ensures Overtakers(run, actions, picks, i, k, w) <= Before(run[i].store.jobs, id)
    ensures Overtakers(run, actions, picks, i, k, w) !! Before(run[k].store.jobs, id)
    ensures TakenAs(run, actions, i, k, w) <= |Overtakers(run, actions, picks, i, k, w)| + 1
    decreases k, 0
  {
    hide IsRun, Before, TakesAs, WaitsFrom, OneClaimPerPick, TakenFront, TakenBehind, Taken, Overtakers, TakenAs;
    BypassIsFromBehind(run, actions, i, k, id);
    OneMoreStep(run, actions, picks, i, k, w);
    if i < k {
      var n := k - 1;
      StretchShortens(run, actions, picks, i, n, k, id);
      BypassIsFromBehind(run, actions, n, k, id);
      OvertakersWereInFront(run, actions, picks, i, n, id, w);
      if TakesAs(run, actions, n, w) { OneMoreTaken(run, actions, picks, i, n, id, w); }
    }
  }

  lemma OneMoreStep(run: seq<World>, actions: seq<Action>, picks: map<nat, Pick>, i: nat, k: nat, w: WorkerId)
    requires i <= k <= |actions| < |run|
    ensures i == k ==> Overtakers(run, actions, picks, i, k, w) == {} && TakenAs(run, actions, i, k, w) == 0
    ensures i < k && !TakesAs(run, actions, k - 1, w) ==>
              && Overtakers(run, actions, picks, i, k, w) == Overtakers(run, actions, picks, i, k - 1, w)
              && TakenAs(run, actions, i, k, w) == TakenAs(run, actions, i, k - 1, w)
    ensures i < k && TakesAs(run, actions, k - 1, w) ==>
              && Overtakers(run, actions, picks, i, k, w)
                 == Overtakers(run, actions, picks, i, k - 1, w) + (if k - 1 in picks && i <= picks[k - 1].step then {actions[k - 1].id} else {})
              && TakenAs(run, actions, i, k, w) == TakenAs(run, actions, i, k - 1, w) + 1
  {
    hide TakesAs;
  }

  lemma StretchShortens(run: seq<World>, actions: seq<Action>, picks: map<nat, Pick>, i: nat, n: nat, k: nat, id: JobId)
    requires WaitsFrom(run, actions, i, k, id) && OneClaimPerPick(run, actions, picks, i, k, id) && i <= n <= k
    ensures WaitsFrom(run, actions, i, n, id) && WaitsFrom(run, actions, n, k, id) && OneClaimPerPick(run, actions, picks, i, n, id)
  {
    hide Next, Init, WaitsThrough, Before, TakesAt, IsRun, ConsidersBoth;
    BypassIsFromBehind(run, actions, i, n, id);
  }

  /** The step of that induction in which the worker takes a job. */
  lemma OneMoreTaken(run: seq<World>, actions: seq<Action>, picks: map<nat, Pick>, i: nat, n: nat, id: JobId, w: WorkerId)
    requires WaitsFrom(run, actions, i, n + 1, id) && OneClaimPerPick(run, actions, picks, i, n + 1, id)
    requires i <= n && TakesAs(run, actions, n, w)
    ensures id in run[n + 1].store.jobs && actions[n].id !in Before(run[n + 1].store.jobs, id)
    ensures n in picks
    ensures if i <= picks[n].step
            then actions[n].id in Before(run[i].store.jobs, id) && actions[n].id !in Overtakers(run, actions, picks, i, n, w)
            else TakenAs(run, actions, i, n, w) == 0
    decreases n, 1
  {
    hide Next, Inv, Init, Before, Takes, WaitsThrough, IsRun, WaitsFrom, IsPick, Pickable;
    TakenIsBehindNow(run, actions, i, n, id);
    var p := picks[n].step;
    if i <= p {
      StretchShortens(run, actions, picks, i, p, n + 1, id);
      BypassIsFromBehind(run, actions, i, p, id);
      PickIsInFront(run[p].store.jobs, actions[n].id, picks[n].now, id);
      NothingTakenBetween(run, actions, picks, i, p, n, w);
      OvertakersWereInFront(run, actions, picks, i, p, id, w);
    } else {
      NothingTakenBetween(run, actions, picks, i, i, n, w);
    }
  }

  lemma TakenIsBehindNow(run: seq<World>, actions: seq<Action>, i: nat, n: nat, id: JobId)
    requires WaitsFrom(run, actions, i, n + 1, id) && i <= n && Takes(run[n], actions[n], run[n + 1])
    ensures actions[n].ClaimJob? && i <= n < |actions| < |run|
    ensures id in run[n + 1].store.jobs && actions[n].id !in Before(run[n + 1].store.jobs, id) && actions[n].id != id
  {
    hide Next, Inv, Init, Timely, Before;
    InvAlways(run, actions, n);
    TimelyAlways(run, actions, n);
    TakenIsBehind(run[n], actions[n], run[n + 1], id);
  }

  function TakenBy(run: seq<World>, actions: seq<Action>, i: nat, k: nat, ws: set<WorkerId>): nat
    requires i <= k <= |actions| < |run|
  {
    if i == k then 0
    else
      TakenBy(run, actions, i, k - 1, ws)
        + if TakesAt(run, actions, k - 1) && actions[k - 1].w in ws then 1 else 0
  }

  lemma {:induction false} TakenByOneLess(run: seq<World>, actions: seq<Action>, i: nat, k: nat, ws: set<WorkerId>, w: WorkerId)
    requires i <= k <= |actions| < |run| && w in ws
    ensures TakenBy(run, actions, i, k, ws) == TakenBy(run, actions, i, k, ws - {w}) + TakenAs(run, actions, i, k, w)
  {
    hide TakesAt;
    if i < k { TakenByOneLess(run, actions, i, k - 1, ws, w); }
  }

  /** Bounded bypass with stale picks: while a job waits, `|ws|` workers with one claim per pick
      take at most one job more each than there were jobs in front of it. */
  lemma {:induction false} BoundedBypassByWorkers(run: seq<World>, actions: seq<Action>, picks: map<nat, Pick>, i: nat, k: nat, id: JobId,
                                                  ws: set<WorkerId>)
    requires WaitsFrom(run, actions, i, k, id) && OneClaimPerPick(run, actions, picks, i, k, id)
    ensures TakenBy(run, actions, i, k, ws) <= |ws| * (|Before(run[i].store.jobs, id)| + 1)
    decreases |ws|
  {
    hide WaitsFrom, OneClaimPerPick, Before, TakenBy, TakenAs;
    BypassIsFromBehind(run, actions, i, k, id);
    var b := |Before(run[i].store.jobs, id)| + 1;
    if ws == {} {
      NoWorkersTakeNothing(run, actions, i, k);
    } else {
      var w :| w in ws;
      TakenByOneLess(run, actions, i, k, ws, w);
      BoundedBypassByWorkers(run, actions, picks, i, k, id, ws - {w});
      OneWorkersBound(run, actions, picks, i, k, id, w);
      OneMoreTimes(|ws - {w}|, b);
    }
  }

  lemma OneMoreTimes(n: nat, b: nat)
    ensures (n + 1) * b == n * b + b
  {
  }

  lemma OneWorkersBound(run: seq<World>, actions: seq<Action>, picks: map<nat, Pick>, i: nat, k: nat, id: JobId, w: WorkerId)
    requires WaitsFrom(run, actions, i, k, id) && OneClaimPerPick(run, actions, picks, i, k, id)
    ensures TakenAs(run, actions, i, k, w) <= |Before(run[i].store.jobs, id)| + 1
  {
    hide IsRun, WaitsThrough, OneClaimPerPick, Before, Overtakers, TakenAs;
    OvertakersWereInFront(run, actions, picks, i, k, id, w);
    SubsetSplits(Overtakers(run, actions, picks, i, k, w), Before(run[i].store.jobs, id));
  }

  lemma {:induction false} NoWorkersTakeNothing(run: seq<World>, actions: seq<Action>, i: nat, k: nat)
    requires i <= k <= |actions| < |run|
    ensures TakenBy(run, actions, i, k, {}) == 0
  {
    hide Takes;
    if i < k { NoWorkersTakeNothing(run, actions, i, k - 1); }
  }

  /** No job starves: as long as a job can be picked, its turn comes after boundedly many claims,
      stale picks or not. */
  lemma WaitingJobIsClaimedByWorkers(run: seq<World>, actions: seq<Action>, picks: map<nat, Pick>, i: nat, k: nat, id: JobId, ws: set<WorkerId>)
    requires CouldBePicked(run, actions, i, k, id) && OneClaimPerPick(run, actions, picks, i, k, id)
    requires |ws| * (|Before(run[i].store.jobs, id)| + 1) < TakenBy(run, actions, i, k, ws)
    ensures exists n :: i <= n < k && ClaimedJob(actions[n]) == Some(id)
  {
    hide Next, Init, Before, Takes, Pickable, OneClaimPerPick;
    if forall n :: i <= n < k ==> ClaimedJob(actions[n]) != Some(id) {
      UnclaimedWaits(run, actions, i, k, id);
      BoundedBypassByWorkers(run, actions, picks, i, k, id, ws);
    }
  }
}
