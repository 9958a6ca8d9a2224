/** Safety over whole runs: job rows only move forward, a retired owner token never comes
    back, and everything a worker changes is fenced. */
module ScanSafety {
  import opened Wrappers
  import opened ScanRows
  import opened TelegramAuth
  import opened ScanTransactions
  import opened StoreRules
  import opened Scanner
  import opened ScanProtocol
  import opened ProtocolInvariant

  // ---------- Job rows over time ----------

  /** A job row at a later time. */
  predicate Later(j: Job, j': Job) {
    && j'.user == j.user && j'.replace == j.replace && j'.provenance == j.provenance
    && j'.maxMessages == j.maxMessages && j'.createdAt == j.createdAt
    && (j.startedAt.Some? ==> j'.startedAt == j.startedAt)
    && j.scanned <= j'.scanned
    && (j.stopRequested ==> j'.stopRequested)
    && (!IsActive(j) ==> j' == j)
    && (j.state == Stopping ==> j'.state !in {Pending, Running})
  }

  lemma JobsMoveForward(s: World, a: Action, s': World, id: JobId)
    requires Inv(s) && Next(s, a, s') && id in s.store.jobs
    ensures id in s'.store.jobs && Later(s.store.jobs[id], s'.store.jobs[id])
    ensures s'.store.jobs[id].owner in {None, s.store.jobs[id].owner, ClaimToken(a)}
  {
    hide Next, Inv;
    InvStep(s, a, s');
  }

  /** Terminal rows are frozen for ever, a stopping job never returns to the queue, counters
      never fall, and no job disappears. */
  lemma {:induction false} JobsOnlyMoveForward(run: seq<World>, actions: seq<Action>, i: nat, k: nat, id: JobId)
    requires IsRun(run, actions) && i <= k < |run| && id in run[i].store.jobs
    ensures id in run[k].store.jobs && Later(run[i].store.jobs[id], run[k].store.jobs[id])
  {
    hide Next, Inv, Init;
    if i < k {
      JobsOnlyMoveForward(run, actions, i, k - 1, id);
      InvAlways(run, actions, k - 1);
      JobsMoveForward(run[k - 1], actions[k - 1], run[k], id);
    }
  }

  /** In every world of every run: rows are coherent (lease columns set exactly while running
      or stopping, finished exactly when terminal, stop requested exactly when stopping among
      active jobs, reasons and errors as the state says, never more messages than the budget),
      and a user has at most one active job. */
  lemma JobsAreCoherent(run: seq<World>, actions: seq<Action>, i: nat)
    requires IsRun(run, actions) && i < |run|
    ensures GoodJobs(run[i].store.jobs) && OneActivePerUser(run[i].store.jobs)
  {
    InvAlways(run, actions, i);
  }

  /** Message budget: whatever the client returns, over all slices, reclaims and workers a job
      never counts more messages than the limit it was created with. */
  lemma BudgetIsNeverExceeded(run: seq<World>, actions: seq<Action>, i: nat, k: nat, id: JobId)
    requires IsRun(run, actions) && i <= k < |run| && id in run[i].store.jobs
    ensures id in run[k].store.jobs && run[k].store.jobs[id].scanned <= run[i].store.jobs[id].maxMessages
  {
    hide Next, Init, FreshTokens, WorkersFit, MarkersAreLive, DistinctIds, GoodConnections;
    JobsOnlyMoveForward(run, actions, i, k, id);
    InvAlways(run, actions, k);
    assert GoodJob(run[k].store.jobs[id]);
  }

  predicate CarriesSettings(j: Job, settings: Settings) {
    j.provenance.Some? ==> j.maxMessages == settings.maxMessages && j.maxRuntime == settings.maxRuntime
  }

  /** A job appears only by a start, queued, bound, at the top of its source, with the limits of
      the deployment. */
  lemma NewJobIs(s: World, a: Action, s': World, id: JobId)
    requires Inv(s) && Next(s, a, s') && id !in s.store.jobs && id in s'.store.jobs
    ensures a.StartScan? && a.id == id
    ensures var j := s'.store.jobs[id];
            && j.state == Pending && j.provenance.Some? && j.owner.None? && j.scanned == 0 && j.cursor.None?
            && CarriesSettings(j, s.settings) && j.createdAt == s'.clock
  {
    hide Next, GoodStore, Launch, FreshTokens, WorkersFit, GoodSettings;
    InvStep(s, a, s');
    if a.StartScan? {
      LaunchIs(s, a, s');
      LaunchInserts(s, a, s'.clock);
    }
  }

  lemma SettingsStay(s: World, a: Action, s': World)
    requires Next(s, a, s')
    ensures s'.settings == s.settings
  {
    hide Enabled, DoUser, DoWorker;
  }

  /** Every job with a provenance carries the limits of the deployment, from its creation to its end. */
  lemma {:induction false} JobsCarrySettings(run: seq<World>, actions: seq<Action>, i: nat, id: JobId)
    requires IsRun(run, actions) && i < |run| && id in run[i].store.jobs
    ensures CarriesSettings(run[i].store.jobs[id], run[0].settings) && run[i].settings == run[0].settings
  {
    hide Next, Inv, Init;
    if i == 0 {
      LegacyJobsHaveNoProvenance(run[0], id);
    } else {
      SettingsAlwaysStay(run, actions, i - 1);
      SettingsStay(run[i - 1], actions[i - 1], run[i]);
      InvAlways(run, actions, i - 1);
      if id in run[i - 1].store.jobs {
        JobsCarrySettings(run, actions, i - 1, id);
        InvStep(run[i - 1], actions[i - 1], run[i]);
      } else {
        NewJobIs(run[i - 1], actions[i - 1], run[i], id);
      }
    }
  }

  lemma {:induction false} SettingsAlwaysStay(run: seq<World>, actions: seq<Action>, i: nat)
    requires IsRun(run, actions) && i < |run|
    ensures run[i].settings == run[0].settings
  {
    hide Next, Init;
    if i > 0 {
      SettingsAlwaysStay(run, actions, i - 1);
      SettingsStay(run[i - 1], actions[i - 1], run[i]);
    }
  }

  lemma LegacyJobsHaveNoProvenance(s: World, id: JobId)
    requires Init(s) && id in s.store.jobs
    ensures s.store.jobs[id].provenance.None?
  {
  }

  /** Every replacement marker names an active replacement job of the row's own user. */
  lemma MarkersAlwaysLive(run: seq<World>, actions: seq<Action>, i: nat)
    requires IsRun(run, actions) && i < |run|
    ensures MarkersAreLive(run[i].store.jobs, run[i].store.messages)
  {
    InvAlways(run, actions, i);
  }

  /** The corruption branches of `status` are unreachable, except for a connection bound to
      a principal with id zero. */
  lemma StatusNeverFindsCorruption(run: seq<World>, actions: seq<Action>, i: nat, user: UserId)
    requires IsRun(run, actions) && i < |run| && user in run[i].store.connections
    ensures var c := run[i].store.connections[user];
            Coherent(c) && (LooksCorrupt(c) <==> c.state == Connected && c.principal == Some(0))
  {
    InvAlways(run, actions, i);
    LooksCorruptIffZeroPrincipal(run[i].store.connections[user]);
  }

  // ---------- Owner tokens ----------

  /** Mutual exclusion: in no world of any run do two workers hold unexpired leases on one job. */
  lemma OneHolderPerJob(run: seq<World>, actions: seq<Action>, i: nat, w: WorkerId, v: WorkerId, now: int)
    requires IsRun(run, actions) && i < |run| && Slicing(run[i], w) && Slicing(run[i], v)
    requires WorkerOf(run[i], w).lease.job == WorkerOf(run[i], v).lease.job
    requires Holds(run[i].store, WorkerOf(run[i], w).lease, now) && Holds(run[i].store, WorkerOf(run[i], v).lease, now)
    ensures w == v
  {
    hide Next, Init, GoodStore, WorkersFit, GoodSettings;
    InvAlways(run, actions, i);
    assert TokenOf(run[i].workers[w]) == TokenOf(run[i].workers[v]);
  }

  /** A claim with a fresh token succeeds exactly on a claimable job, and for the length of a
      lease every other claim of the job fails and leaves it alone. */
  lemma ClaimsExclude(s: Store, id: JobId, token: Token, now: int, other: Token, later: int)
    requires GoodStore(s) && (id in s.jobs ==> s.jobs[id].owner != Some(token)) && other != token
    ensures var s' := Claim(s, id, token, now);
            && (id in s'.jobs && s'.jobs[id].owner == Some(token) <==> id in s.jobs && Claimable(s.jobs[id], now))
            && (id in s.jobs && Claimable(s.jobs[id], now) && later < now + SCAN_LEASE_SECONDS ==> Claim(s', id, other, later) == s')
  {
    hide ClearMarkers;
    if id in s.jobs {
      assert GoodJob(s.jobs[id]);
      var s' := Claim(s, id, token, now);
      if Claimable(s.jobs[id], now) { assert s'.jobs[id := s'.jobs[id]] == s'.jobs; }
    }
  }

  lemma UserActionsDrawNoToken(s: World, a: Action, now: int)
    requires Enabled(s, a, now) && IsUserAction(a)
    ensures DoUser(s, a, now).used == s.used
  {
    hide CreateJob, Serve, DeleteMessages, DeleteEverywhere, Forget, Remember, CancelStale, Stop, DeletesRemotely;
  }

  lemma WorkersDrawFreshTokens(s: World, a: Action, now: int)
    requires Enabled(s, a, now) && !IsUserAction(a)
    ensures DoWorker(s, a, now).used == s.used + Tokens(ClaimToken(a))
    ensures ClaimToken(a).Some? ==> ClaimToken(a).value !in s.used
  {
    hide Claim, Renew, SaveSession, Downgrade, InvalidateUnreadable, EndSlice, Finalize, Release, TerminalizeExpired,
         ReadLease, PersistPage, PersistOutcome, AfterPage, PageFor, Holds, HoldsIgnoringExpiry, ConnectionMatches, MayConclude, KeepsHistory,
         Commit, Beat, Finish, Fail, GiveBack, ReadStop, Snapshot, Refresh, BuildPage, Plausible, ImportsNothing;
    if a.ClaimJob? {
    } else {
      hide DoWorker, Enabled;
    }
  }

  lemma UsedTokensStay(s: World, a: Action, s': World)
    requires Next(s, a, s')
    ensures s'.used == s.used + Tokens(ClaimToken(a)) && (ClaimToken(a).Some? ==> ClaimToken(a).value !in s.used)
  {
    hide DoUser, DoWorker, Enabled;
    if IsUserAction(a) { UserActionsDrawNoToken(s, a, s'.clock); } else { WorkersDrawFreshTokens(s, a, s'.clock); }
  }

  /** A token that was drawn and is no longer the owner of a job never owns it again. */
  lemma {:induction false} RetiredTokensStayRetired(run: seq<World>, actions: seq<Action>, i: nat, k: nat, id: JobId, token: Token)
    requires IsRun(run, actions) && i <= k < |run|
    requires token in run[i].used && id in run[i].store.jobs && run[i].store.jobs[id].owner != Some(token)
    ensures token in run[k].used && id in run[k].store.jobs && run[k].store.jobs[id].owner != Some(token)
  {
    hide Next, Inv, Init;
    if i < k {
      RetiredTokensStayRetired(run, actions, i, k - 1, id, token);
      InvAlways(run, actions, k - 1);
      JobsMoveForward(run[k - 1], actions[k - 1], run[k], id);
      UsedTokensStay(run[k - 1], actions[k - 1], run[k]);
    }
  }
}
