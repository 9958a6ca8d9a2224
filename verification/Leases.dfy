/** How long a lease lasts. A worker keeps its job as long as its heartbeats come in time, unless
    it ends its slice itself or the job is cancelled with its connection; and a lease from before a
    disconnect never imports anything again. */
module Leases {
  import opened Wrappers
  import opened ScanRows
  import opened TelegramAuth
  import opened ScanTransactions
  import opened StoreRules
  import opened Scanner
  import opened ScanProtocol
  import opened ProtocolInvariant
  import opened ScanSafety
  import opened Fencing
  import opened ConnectionHistory
  import opened ExactlyOnce
  import opened FairQueue
  import opened ScanOutcomes

  // ---------- One step ----------

  /** A worker with this lease ends its slice. */
  predicate GivesUp(s: World, a: Action, l: Lease) {
    && (a.FinishSlice? || a.FailSlice? || a.ReleaseSlice?)
    && Slicing(s, a.w) && WorkerOf(s, a.w).lease.job == l.job && WorkerOf(s, a.w).lease.owner == l.owner
  }

  /** A worker with this lease beats. */
  predicate Beats(s: World, a: Action, l: Lease) { a.Heartbeat? && Slicing(s, a.w) && WorkerOf(s, a.w).lease == l }

  /** The row is still the lease's, and beat at `since` or later. */
  predicate IsKept(j: Job, l: Lease, since: int) {
    OwnsIgnoringExpiry(j, l) && j.heartbeatAt.Some? && since <= j.heartbeatAt.value && j.expiresAt == Some(j.heartbeatAt.value + SCAN_LEASE_SECONDS)
  }

  lemma ClaimsSpareHeldJobs(s: World, a: Action, s': World, l: Lease)
    requires Inv(s) && Next(s, a, s') && Holds(s.store, l, s'.clock) && a.ClaimJob?
    ensures l.job in s'.store.jobs && s'.store.jobs[l.job] == s.store.jobs[l.job]
  {
    hide Next, Inv;
    if a.id in s.store.jobs {
      ClaimsTakeFreeJobs(s, a, s');
    } else {
      ClaimsOfNothing(s, a, s');
    }
  }

  lemma ClaimsOfNothing(s: World, a: Action, s': World)
    requires Next(s, a, s') && a.ClaimJob? && a.id !in s.store.jobs
    ensures s'.store == s.store
  {
    WorkerStepIs(s, a, s');
    hide Next, ImportsNothing;
  }

  /** Heartbeats never go back. */
  lemma HeartbeatsAdvance(s: World, a: Action, s': World, id: JobId)
    requires Inv(s) && Timely(s) && Next(s, a, s') && id in s.store.jobs && s.store.jobs[id].heartbeatAt.Some?
    ensures id in s'.store.jobs && s'.store.jobs[id].heartbeatAt.Some?
    ensures s.store.jobs[id].heartbeatAt.value <= s'.store.jobs[id].heartbeatAt.value
  {
    hide Next, Inv;
    ClockAdvances(s, a, s');
    StepQueueEvolves(s, a, s');
  }

  lemma ClockAdvances(s: World, a: Action, s': World)
    requires Next(s, a, s')
    ensures s.clock <= s'.clock
  {
    hide Enabled, Do;
  }

  /** Nobody takes a job from the holder of an unexpired lease: after any step it still owns the
      job, unless it gave it up or the job was cancelled. */
  lemma HeldJobsStay(s: World, a: Action, s': World, l: Lease, since: int)
    requires Inv(s) && Timely(s) && Next(s, a, s') && l.job in s.store.jobs && IsKept(s.store.jobs[l.job], l, since)
    requires s'.clock < since + SCAN_LEASE_SECONDS && !GivesUp(s, a, l)
    ensures l.job in s'.store.jobs
    ensures s'.store.jobs[l.job].state == Cancelled || IsKept(s'.store.jobs[l.job], l, since)
  {
    hide Next, Inv, Timely, NotEnded, RowEvolves, GoodJob, Holds;
    KeptIsHeld(s, l, since, s'.clock);
    JobsEvolve(s, a, s', l.job);
    HeldEndsAreItsOwn(s, a, s', l);
    HeartbeatsAdvance(s, a, s', l.job);
    if a.ClaimJob? {
      ClaimsSpareHeldJobs(s, a, s', l);
    } else {
      HeldRowStays(s.store.jobs[l.job], s'.store.jobs[l.job], l, since);
    }
  }

  lemma JobsEvolve(s: World, a: Action, s': World, id: JobId)
    requires Inv(s) && Next(s, a, s') && id in s.store.jobs
    ensures id in s'.store.jobs && GoodJob(s.store.jobs[id]) && GoodJob(s'.store.jobs[id])
    ensures RowEvolves(s.store.jobs[id], s'.store.jobs[id], ClaimToken(a))
  {
    hide Next, Inv, KeepsOrganization, Administrative, SameProgress, RowEvolves;
    InvStep(s, a, s');
    RowIsGood(s, id);
    RowIsGood(s', id);
  }

  lemma HeldEndsAreItsOwn(s: World, a: Action, s': World, l: Lease)
    requires Inv(s) && Next(s, a, s') && Holds(s.store, l, s'.clock) && !GivesUp(s, a, l)
    ensures l.job in s'.store.jobs && NotEnded(s.store.jobs[l.job], s'.store.jobs[l.job])
  {
    hide Next, Inv, NotEnded;
    EndsAreFenced(s, a, s', l.job);
  }

  lemma HeldRowStays(j: Job, j': Job, l: Lease, since: int)
    requires IsKept(j, l, since) && GoodJob(j) && GoodJob(j') && RowEvolves(j, j', None) && NotEnded(j, j')
    requires j'.heartbeatAt.Some? && since <= j'.heartbeatAt.value
    ensures j'.state == Cancelled || IsKept(j', l, since)
  {
  }

  lemma RowIsGood(s: World, id: JobId)
    requires Inv(s) && id in s.store.jobs
    ensures GoodJob(s.store.jobs[id])
  {
    hide OneActivePerUser, MarkersAreLive, DistinctIds, GoodConnections, FreshTokens, WorkersFit;
  }

  /** A heartbeat in time counts from then on. */
  lemma BeatsCount(s: World, a: Action, s': World, l: Lease)
    requires Next(s, a, s') && Beats(s, a, l) && Holds(s.store, l, s'.clock)
    ensures l.job in s'.store.jobs && IsKept(s'.store.jobs[l.job], l, s'.clock)
  {
    hide Next, OnlyChanges;
    HeartbeatsRenew(s, a, s');
    assert Holds(s'.store, l, s'.clock);
  }

  // ---------- Runs ----------

  /** When a worker with lease `l` beat last, by step `n`; in `i` that was at `first`. */
  function LastBeat(run: seq<World>, actions: seq<Action>, l: Lease, i: nat, n: nat, first: int): int
    requires i <= n <= |actions| < |run|
  {
    if n == i then first
    else if Beats(run[n - 1], actions[n - 1], l) then run[n].clock
    else LastBeat(run, actions, l, i, n - 1, first)
  }

  /** The next step always comes less than the length of a lease after the last heartbeat. */
  predicate BeatsInTime(run: seq<World>, actions: seq<Action>, l: Lease, i: nat, k: nat, first: int)
    requires i <= k <= |actions| < |run|
  {
    forall n :: i <= n < k ==> IsInTime(run, LastBeat(run, actions, l, i, n, first), n)
  }

  predicate IsInTime(run: seq<World>, last: int, n: nat)
    requires n + 1 < |run|
  {
    run[n + 1].clock < last + SCAN_LEASE_SECONDS
  }

  predicate NeverGivesUp(run: seq<World>, actions: seq<Action>, l: Lease, i: nat, k: nat)
    requires i <= k <= |actions| < |run|
  {
    forall n :: i <= n < k ==> !GivesUp(run[n], actions[n], l)
  }

  /** A worker whose heartbeats come in time holds its job throughout, whatever others do, until it
      ends its slice itself or the job is cancelled. */
  lemma {:induction false} HeartbeatsKeepTheJob(run: seq<World>, actions: seq<Action>, i: nat, k: nat, l: Lease)
    requires IsRun(run, actions) && i <= k < |run| && Holds(run[i].store, l, run[i].clock) && run[i].store.jobs[l.job].heartbeatAt.Some?
    requires BeatsInTime(run, actions, l, i, k, run[i].store.jobs[l.job].heartbeatAt.value) && NeverGivesUp(run, actions, l, i, k)
    requires l.job in run[k].store.jobs && run[k].store.jobs[l.job].state != Cancelled
    ensures Holds(run[k].store, l, run[k].clock)
    ensures IsKept(run[k].store.jobs[l.job], l, LastBeat(run, actions, l, i, k, run[i].store.jobs[l.job].heartbeatAt.value))
  {
    hide Next, Inv, Init, GivesUp, Timely, Beats;
    var first := run[i].store.jobs[l.job].heartbeatAt.value;
    if i == k {
      InvAlways(run, actions, i);
      RowIsGood(run[i], l.job);
    } else {
      var s, a, s' := run[k - 1], actions[k - 1], run[k];
      JobsOnlyMoveForward(run, actions, i, k - 1, l.job);
      JobsOnlyMoveForward(run, actions, k - 1, k, l.job);
      HeartbeatsKeepTheJob(run, actions, i, k - 1, l);
      InvAlways(run, actions, k - 1);
      TimelyAlways(run, actions, k - 1);
      var last := LastBeat(run, actions, l, i, k - 1, first);
      assert IsInTime(run, last, k - 1);
      KeptIsHeld(s, l, last, s'.clock);
      HeldJobsStay(s, a, s', l, last);
      if Beats(s, a, l) { BeatsCount(s, a, s', l); }
    }
  }

  lemma KeptIsHeld(s: World, l: Lease, since: int, now: int)
    requires l.job in s.store.jobs && IsKept(s.store.jobs[l.job], l, since) && now < since + SCAN_LEASE_SECONDS
    ensures Holds(s.store, l, now)
  {
  }

  // ---------- Disconnecting ----------

  /** After a disconnect no lease from before it fits the connection again, in any later world, so
      no page of it is persisted. */
  lemma DisconnectsAreFinal(run: seq<World>, actions: seq<Action>, i: nat, k: nat, l: Lease)
    requires IsRun(run, actions) && i < k < |run| && actions[i].Ask? && actions[i].request.AskDisconnect? && l.user == actions[i].user
    requires l.user in run[i].store.connections && l.provenance.generation <= run[i].store.connections[l.user].generation
    ensures !ConnectionMatches(run[k].store, l)
    ensures k < |actions| && actions[k].CommitPage? && Slicing(run[k], actions[k].w) && WorkerOf(run[k], actions[k].w).lease == l ==>
              !Persists(run[k], actions[k], run[k + 1].clock)
  {
    hide Next, Init, BuildPage, CutPage, RepeatsNewMessage, Holds;
    DisconnectsEraseEverything(run[i], actions[i], run[i + 1]);
    GenerationsNeverFall(run, actions, i + 1, k, l.user);
  }
}
