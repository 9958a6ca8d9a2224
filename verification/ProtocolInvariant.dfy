/** The invariant of the scan protocol over every run, whatever the client returns, and
    what one action may do to the rows of the store. */
module ProtocolInvariant {
  import opened Wrappers
  import opened ScanRows
  import opened TelegramAuth
  import opened ScanTransactions
  import opened StoreRules
  import opened Scanner
  import opened ScanProtocol

  // ---------- The invariant ----------

  function TokenOf(v: Worker): Option<Token> {
    match v
    case Idle => None
    case Claiming(_, owner) => Some(owner)
    case Slice(l, _, _, _, _) => Some(l.owner)
  }

  /** Every owner token in use was drawn before, and no two workers share one. */
  predicate FreshTokens(s: World) {
    && (forall id :: id in s.store.jobs && s.store.jobs[id].owner.Some? ==> s.store.jobs[id].owner.value in s.used)
    && (forall w :: w in s.workers && TokenOf(s.workers[w]).Some? ==> TokenOf(s.workers[w]).value in s.used)
    && (forall w, v :: w in s.workers && v in s.workers && w != v && TokenOf(s.workers[w]).Some? ==>
          TokenOf(s.workers[w]) != TokenOf(s.workers[v]))
  }

  /** While a worker holds its job, the job's counter and cursor are what the worker thinks. */
  predicate InStep(j: Job, l: Lease, local: nat, offset: int, ending: Option<Ending>) {
    j.owner == Some(l.owner) ==>
      && j.scanned == l.scanned + local
      && offset == Offset(j.cursor)
      && j.startedAt == Some(l.startedAt)
      && (ending == Some(Ended(StoppedByUser)) ==> j.stopRequested)
  }

  predicate WorkerFits(jobs: map<JobId, Job>, v: Worker) {
    match v
    case Idle => true
    case Claiming(id, _) => id in jobs
    case Slice(l, local, _, offset, ending) =>
      && l.job in jobs && LeaseFits(jobs[l.job], l) && local <= Budget(l) && 0 < l.pageSize
      && InStep(jobs[l.job], l, local, offset, ending)
  }

  predicate WorkersFit(s: World) { forall w :: w in s.workers ==> WorkerFits(s.store.jobs, s.workers[w]) }

  predicate GoodSettings(s: World) {
    0 < s.settings.maxRuntime && forall p :: p in s.sources ==> Descending(s.sources[p])
  }

  predicate Inv(s: World) { GoodStore(s.store) && FreshTokens(s) && WorkersFit(s) && GoodSettings(s) }

  /** Jobs stay and their rows evolve; the progress columns of none but `job` move. */
  predicate RowsEvolve(jobs: map<JobId, Job>, jobs': map<JobId, Job>, token: Option<Token>, job: Option<JobId>) {
    forall id :: id in jobs ==>
      && id in jobs' && RowEvolves(jobs[id], jobs'[id], token)
      && (job != Some(id) ==> SameProgress(jobs[id], jobs'[id]))
  }

  lemma AdministrationEvolves(s: Store, s': Store, token: Option<Token>)
    requires Administrative(s, s', token)
    ensures RowsEvolve(s.jobs, s'.jobs, token, None) && KeepsOrganization(s.messages, s'.messages)
    ensures s'.jobs.Keys == s.jobs.Keys
  {
  }

  lemma EvolutionEvolves(jobs: map<JobId, Job>, jobs': map<JobId, Job>, token: Option<Token>)
    requires Evolves(jobs, jobs', token)
    ensures RowsEvolve(jobs, jobs', token, None) && jobs'.Keys == jobs.Keys
  {
  }

  lemma StillnessEvolves(s: Store)
    ensures RowsEvolve(s.jobs, s.jobs, None, None) && KeepsOrganization(s.messages, s.messages)
    ensures Administrative(s, s, None)
  {
  }

  // ---------- Workers while the store changes ----------

  function Tokens(token: Option<Token>): set<Token> { if token.Some? then {token.value} else {} }

  /** A transaction that evolves the job rows leaves every worker's view of its job right:
      the job's owner is still this worker only if nothing it relies on changed. */
  lemma EvolutionKeepsWorkers(s: World, store: Store, token: Option<Token>)
    requires Inv(s) && Evolves(s.store.jobs, store.jobs, token)
    requires token.Some? ==> token.value !in s.used
    ensures var s' := s.(store := store, used := s.used + Tokens(token)); FreshTokens(s') && WorkersFit(s')
  {
    assert FreshTokens(s) && WorkersFit(s);
    TokensStayFresh(s, store, token);
    hide Inv, Evolves, WorkerFits;
    forall w | w in s.workers ensures WorkerFits(store.jobs, s.workers[w]) {
      assert WorkerFits(s.store.jobs, s.workers[w]);
      WorkerStillFits(s.store.jobs, store.jobs, token, s.workers[w]);
    }
  }

  lemma WorkerStillFits(jobs: map<JobId, Job>, jobs': map<JobId, Job>, token: Option<Token>, v: Worker)
    requires Evolves(jobs, jobs', token) && WorkerFits(jobs, v)
    requires token.Some? ==> TokenOf(v) != token
    ensures WorkerFits(jobs', v)
  {
    if v.Slice? { assert RowEvolves(jobs[v.lease.job], jobs'[v.lease.job], token); }
  }

  lemma TokensStayFresh(s: World, store: Store, token: Option<Token>)
    requires FreshTokens(s) && Evolves(s.store.jobs, store.jobs, token)
    ensures FreshTokens(s.(store := store, used := s.used + Tokens(token)))
  {
    forall id | id in store.jobs && store.jobs[id].owner.Some? ensures store.jobs[id].owner.value in s.used + Tokens(token) {
      assert RowEvolves(s.store.jobs[id], store.jobs[id], token);
    }
  }

  /** A worker may change its own mind, drop its token, or install one nobody holds. */
  lemma WorkerChanges(s: World, w: WorkerId, v: Worker)
    requires FreshTokens(s) && WorkersFit(s) && WorkerFits(s.store.jobs, v)
    requires TokenOf(v).Some? && TokenOf(v) != TokenOf(WorkerOf(s, w)) ==>
               TokenOf(v).value in s.used && forall u :: u in s.workers ==> TokenOf(s.workers[u]) != TokenOf(v)
    ensures FreshTokens(Set(s, w, v)) && WorkersFit(Set(s, w, v))
  {
  }

  /** A transaction of worker `w` that then drops its lease. */
  lemma EndOfLeaseKeeps(s: World, w: WorkerId, store: Store)
    requires Inv(s) && GoodStore(store) && Evolves(s.store.jobs, store.jobs, None)
    ensures Inv(Set(s, w, Idle).(store := store))
  {
    EvolutionKeepsWorkers(s, store, None);
    assert s.used + Tokens(None) == s.used;
    WorkerChanges(s.(store := store), w, Idle);
  }

  lemma TransactionKeeps(s: World, store: Store)
    requires Inv(s) && GoodStore(store) && Evolves(s.store.jobs, store.jobs, None)
    ensures Inv(s.(store := store))
  {
    EvolutionKeepsWorkers(s, store, None);
    assert s.used + Tokens(None) == s.used;
  }

  /** The clock and the history are not mentioned by the invariant, and the source only by its order. */
  lemma InvIgnoresHistory(s: World, s': World)
    requires Inv(s) && s'.store == s.store && s'.workers == s.workers && s'.used == s.used
    requires GoodSettings(s')
    ensures Inv(s')
  {
  }

  lemma SliceFits(s: World, w: WorkerId)
    requires WorkersFit(s) && Slicing(s, w)
    ensures WorkerFits(s.store.jobs, WorkerOf(s, w))
  {
  }

  // ---------- Each action of a worker ----------

  lemma GrabKeeps(s: World, w: WorkerId, id: JobId, token: Token, now: int)
    requires Inv(s) && WorkerOf(s, w).Idle? && token !in s.used
    ensures Inv(Grab(s, w, id, token, now))
    ensures Administrative(s.store, Grab(s, w, id, token, now).store, Some(token))
  {
    var store := Claim(s.store, id, token, now);
    ClaimKeeps(s.store, id, token, now);
    EvolutionKeepsWorkers(s, store, Some(token));
    WorkerChanges(s.(store := store, used := s.used + {token}), w, WorkerOf(Grab(s, w, id, token, now), w));
  }

  lemma SnapshotKeeps(s: World, w: WorkerId)
    requires Inv(s) && WorkerOf(s, w).Claiming?
    ensures Inv(Snapshot(s, w)) && Snapshot(s, w).store == s.store
  {
    var v := WorkerOf(s, w);
    assert v.job in s.store.jobs && GoodJob(s.store.jobs[v.job]);
    WorkerChanges(s, w, WorkerOf(Snapshot(s, w), w));
  }

  lemma BeatKeeps(s: World, w: WorkerId, now: int)
    requires Inv(s) && Slicing(s, w)
    ensures Inv(Beat(s, w, now)) && Administrative(s.store, Beat(s, w, now).store, None)
  {
    hide GoodStore, Holds, Renew, Evolves, OnlyClearsMarkers, KeepsLiveMarkers, ImportsNothing;
    var l := WorkerOf(s, w).lease;
    if Holds(s.store, l, now) {
      RenewKeeps(s.store, l, now);
      TransactionKeeps(s, Renew(s.store, l, now));
    } else {
      StillnessEvolves(s.store);
      WorkerChanges(s, w, Idle);
    }
  }

  lemma RefreshKeeps(s: World, w: WorkerId, session: Cipher, now: int)
    requires Inv(s) && Slicing(s, w)
    ensures Inv(Refresh(s, w, session, now)) && Administrative(s.store, Refresh(s, w, session, now).store, None)
  {
    hide GoodStore, Holds, SaveSession, Evolves, OnlyClearsMarkers, KeepsLiveMarkers, KeepsHistory;
    var l := WorkerOf(s, w).lease;
    if ConnectionMatches(s.store, l) && Holds(s.store, l, now) {
      SaveSessionKeeps(s.store, l, session);
      TransactionKeeps(s, SaveSession(s.store, l, session));
    } else {
      StillnessEvolves(s.store);
      WorkerChanges(s, w, Idle);
    }
  }

  lemma ReadStopKeeps(s: World, w: WorkerId, now: int)
    requires Inv(s) && Slicing(s, w)
    ensures Inv(ReadStop(s, w, now)) && ReadStop(s, w, now).store == s.store
  {
    SliceFits(s, w);
    hide GoodStore, GoodSettings, FreshTokens, WorkersFit, ImportsNothing;
    if !Holds(s.store, WorkerOf(s, w).lease, now) {
      WorkerChanges(s, w, Idle);
    } else if s.store.jobs[WorkerOf(s, w).lease.job].stopRequested {
      WorkerChanges(s, w, WorkerOf(s, w).(ending := Some(Ended(StoppedByUser))));
    }
  }

  lemma ConcludeKeeps(s: World, w: WorkerId, reason: Reason)
    requires Inv(s) && Slicing(s, w) && reason != StoppedByUser
    ensures Inv(Set(s, w, WorkerOf(s, w).(ending := Some(Ended(reason)))))
  {
    SliceFits(s, w);
    WorkerChanges(s, w, WorkerOf(s, w).(ending := Some(Ended(reason))));
  }

  lemma FailKeeps(s: World, w: WorkerId, now: int)
    requires Inv(s) && Slicing(s, w)
    ensures Inv(Fail(s, w, now)) && Administrative(s.store, Fail(s, w, now).store, None)
  {
    var l := WorkerOf(s, w).lease;
    SliceFits(s, w);
    if Holds(s.store, l, now) { FailedFinalizeAdministers(s.store, l, now); }
    EndOfLeaseKeeps(s, w, Fail(s, w, now).store);
  }

  lemma GiveBackKeeps(s: World, w: WorkerId, now: int)
    requires Inv(s) && Slicing(s, w)
    ensures Inv(GiveBack(s, w, now)) && Administrative(s.store, GiveBack(s, w, now).store, None)
  {
    var l := WorkerOf(s, w).lease;
    SliceFits(s, w);
    if HoldsIgnoringExpiry(s.store, l) { ReleaseKeeps(s.store, l, now); }
    EndOfLeaseKeeps(s, w, GiveBack(s, w, now).store);
  }

  lemma FailedFinalizeAdministers(s: Store, l: Lease, now: int)
    requires GoodStore(s) && Holds(s, l, now) && LeaseFits(s.jobs[l.job], l)
    ensures GoodStore(Finalize(s, l, Failed, None, now)) && Administrative(s, Finalize(s, l, Failed, None, now), None)
  {
    FinalizeKeeps(s, l, Failed, None, now);
  }

  /** Requeue or finalization, as the slice ended. */
  lemma FinishKeepsStore(s: World, w: WorkerId, decided: int, now: int)
    requires Inv(s) && Slicing(s, w) && WorkerOf(s, w).ending.Some? && WorkerOf(s, w).ending.value.Ended?
    ensures var store := Finish(s, w, decided, now).store;
            && GoodStore(store) && Evolves(s.store.jobs, store.jobs, None)
            && KeepsOrganization(s.store.messages, store.messages)
  {
    var v := WorkerOf(s, w);
    SliceFits(s, w);
    if Holds(s.store, v.lease, now) {
      assert GoodJob(s.store.jobs[v.lease.job]);
      EndSliceKeeps(s.store, v.lease, Disposition(v, decided), now);
    }
    hide EndSlice, GoodStore;
  }

  lemma FinishKeeps(s: World, w: WorkerId, decided: int, now: int)
    requires Inv(s) && Slicing(s, w) && WorkerOf(s, w).ending.Some? && WorkerOf(s, w).ending.value.Ended?
    ensures Inv(Finish(s, w, decided, now)) && Evolves(s.store.jobs, Finish(s, w, decided, now).store.jobs, None)
    ensures KeepsOrganization(s.store.messages, Finish(s, w, decided, now).store.messages)
  {
    FinishKeepsStore(s, w, decided, now);
    hide Inv, GoodStore, Evolves, KeepsOrganization, EndSlice, Disposition, Holds;
    EndOfLeaseKeeps(s, w, Finish(s, w, decided, now).store);
  }

  // ---------- Page commits ----------

  /** A page fits what is left of the message budget, whatever the client returned. */
  lemma PageFitsBudget(s: World, w: WorkerId, raw: seq<Scanned>, keep: nat, now: int)
    requires Inv(s) && MayFetch(WorkerOf(s, w)) && keep <= |BuildPage(raw, Capacity(WorkerOf(s, w))).messages|
    requires Holds(s.store, WorkerOf(s, w).lease, now)
    ensures var v, page := WorkerOf(s, w), PageFor(WorkerOf(s, w), raw, keep);
            && |page.messages| <= Budget(v.lease) - v.local
            && s.store.jobs[v.lease.job].scanned + |page.messages| <= v.lease.maxMessages
            && (page.messages != [] ==> page.next.Some?)
  {
    SliceFits(s, w);
  }

  lemma PersistKeepsWorkers(s: World, w: WorkerId, raw: seq<Scanned>, keep: nat, now: int)
    requires Inv(s) && MayFetch(WorkerOf(s, w)) && keep <= |BuildPage(raw, Capacity(WorkerOf(s, w))).messages|
    requires PageFor(WorkerOf(s, w), raw, keep).messages != [] && Holds(s.store, WorkerOf(s, w).lease, now)
    ensures var s' := Set(s, w, AfterPage(WorkerOf(s, w), raw, keep))
                        .(store := PersistPage(s.store, WorkerOf(s, w).lease, PageFor(WorkerOf(s, w), raw, keep)));
            FreshTokens(s') && WorkersFit(s')
  {
    hide GoodStore, GoodSettings, UpsertAll, BuildPage, CutPage;
    var v, page := WorkerOf(s, w), PageFor(WorkerOf(s, w), raw, keep);
    var store := PersistPage(s.store, v.lease, page);
    PageFitsBudget(s, w, raw, keep, now);
    SliceFits(s, w);
    forall u | u in s.workers && u != w ensures WorkerFits(store.jobs, s.workers[u]) {
      assert WorkerFits(s.store.jobs, s.workers[u]);
    }
    assert WorkerFits(store.jobs, AfterPage(v, raw, keep));
    hide WorkerFits;
  }

  lemma PageRowEvolves(jobs: map<JobId, Job>, id: JobId, page: ScanPage)
    requires id in jobs && jobs[id].owner.Some? && IsActive(jobs[id])
    ensures var jobs' := jobs[id := PageRow(jobs[id], page)];
            RowsEvolve(jobs, jobs', None, Some(id)) && jobs'.Keys == jobs.Keys
  {
  }

  lemma PersistEvolves(s: World, w: WorkerId, raw: seq<Scanned>, keep: nat, now: int)
    requires Inv(s) && MayFetch(WorkerOf(s, w)) && keep <= |BuildPage(raw, Capacity(WorkerOf(s, w))).messages|
    requires PageFor(WorkerOf(s, w), raw, keep).messages != [] && Holds(s.store, WorkerOf(s, w).lease, now)
    ensures var l := WorkerOf(s, w).lease;
            var store := PersistPage(s.store, l, PageFor(WorkerOf(s, w), raw, keep));
            && GoodStore(store) && RowsEvolve(s.store.jobs, store.jobs, None, Some(l.job)) && store.jobs.Keys == s.store.jobs.Keys
            && KeepsOrganization(s.store.messages, store.messages)
  {
    PageFitsBudget(s, w, raw, keep, now);
    SliceFits(s, w);
    PersistPageKeeps(s.store, WorkerOf(s, w).lease, PageFor(WorkerOf(s, w), raw, keep), now);
    PageRowEvolves(s.store.jobs, WorkerOf(s, w).lease.job, PageFor(WorkerOf(s, w), raw, keep));
    hide GoodStore, UpsertAll, BuildPage, CutPage, FreshTokens, WorkersFit, RowsEvolve;
  }

  predicate PersistsPage(s: World, w: WorkerId, raw: seq<Scanned>, keep: nat, now: int)
    requires MayFetch(WorkerOf(s, w)) && keep <= |BuildPage(raw, Capacity(WorkerOf(s, w))).messages|
  {
    var page := PageFor(WorkerOf(s, w), raw, keep);
    page.messages != [] && PersistOutcome(s.store, WorkerOf(s, w).lease, page, now) == PagePersisted
  }

  lemma UnpersistedPageCompletesNothing(s: World, w: WorkerId, raw: seq<Scanned>, keep: nat, now: int)
    requires MayFetch(WorkerOf(s, w)) && keep <= |BuildPage(raw, Capacity(WorkerOf(s, w))).messages|
    requires !PersistsPage(s, w, raw, keep, now)
    ensures !Completes(WorkerOf(Commit(s, w, raw, keep, now), w))
  {
    hide BuildPage, CutPage, PersistOutcome, OnlyScans;
  }

  lemma UnpersistedPageKeeps(s: World, w: WorkerId, raw: seq<Scanned>, keep: nat, now: int)
    requires Inv(s) && MayFetch(WorkerOf(s, w)) && keep <= |BuildPage(raw, Capacity(WorkerOf(s, w))).messages|
    requires !PersistsPage(s, w, raw, keep, now)
    ensures Inv(Commit(s, w, raw, keep, now)) && Commit(s, w, raw, keep, now).store == s.store
    ensures Commit(s, w, raw, keep, now).committed == s.committed && !Completes(WorkerOf(Commit(s, w, raw, keep, now), w))
  {
    UnpersistedPageCompletesNothing(s, w, raw, keep, now);
    hide Completes, OnlyScans;
    var v := WorkerOf(s, w);
    SliceFits(s, w);
    hide GoodStore, BuildPage, RepeatsNewMessage, ConnectionMatches, Holds;
    if PageFor(v, raw, keep).messages == [] { WorkerChanges(s, w, v.(ending := Some(Ended(SliceTimeLimit)))); }
    else if PersistOutcome(s.store, v.lease, PageFor(v, raw, keep), now) == LeaseLost { WorkerChanges(s, w, Idle); }
    else { WorkerChanges(s, w, v.(ending := Some(Broke))); }
  }

  lemma CommitKeeps(s: World, w: WorkerId, raw: seq<Scanned>, keep: nat, now: int)
    requires Inv(s) && MayFetch(WorkerOf(s, w)) && keep <= |BuildPage(raw, Capacity(WorkerOf(s, w))).messages|
    ensures Inv(Commit(s, w, raw, keep, now))
    ensures RowsEvolve(s.store.jobs, Commit(s, w, raw, keep, now).store.jobs, None, Some(WorkerOf(s, w).lease.job))
    ensures Commit(s, w, raw, keep, now).store.jobs.Keys == s.store.jobs.Keys
    ensures KeepsOrganization(s.store.messages, Commit(s, w, raw, keep, now).store.messages)
  {
    if PersistsPage(s, w, raw, keep, now) {
      PersistEvolves(s, w, raw, keep, now);
      PersistKeepsWorkers(s, w, raw, keep, now);
    } else {
      UnpersistedPageKeeps(s, w, raw, keep, now);
    }
  }

  // ---------- Each action of a user ----------

  /** The job a new scan inserts: the user had no active job, and its provenance is that of
      the connection as validated in the same transaction. */
  predicate IsNewJob(s: World, a: Action, s': World, id: JobId, now: int)
    requires id in s'.store.jobs
  {
    && a.StartScan? && id == a.id && !HasActiveJob(s.store.jobs, a.user)
    && a.user in s'.store.connections && s'.store.connections[a.user].state == Connected
    && s'.store.connections[a.user].principal.Some?
    && var p := Provenance(s'.store.connections[a.user].principal.value, s'.store.connections[a.user].generation);
       s'.store.jobs[id] == NewJob(a.user, a.pageSize, a.replace, p, s.settings.maxMessages, s.settings.maxRuntime, now)
  }

  /** Jobs that appear change nothing for the workers. */
  lemma NewJobsKeepWorkers(s: World, store: Store)
    requires Inv(s) && GoodStore(store)
    requires forall id :: id in s.store.jobs ==> id in store.jobs && store.jobs[id] == s.store.jobs[id]
    requires forall id :: id in store.jobs && id !in s.store.jobs ==> store.jobs[id].owner.None?
    ensures Inv(s.(store := store)) && RowsEvolve(s.store.jobs, store.jobs, None, None)
  {
    forall w | w in s.workers ensures WorkerFits(store.jobs, s.workers[w]) {
      assert WorkerFits(s.store.jobs, s.workers[w]);
    }
  }

  lemma LaunchInserts(s: World, a: Action, now: int)
    requires Inv(s) && a.StartScan? && a.id !in s.store.jobs && 0 < a.pageSize
    ensures var s' := Launch(s, a.id, a.user, a.pageSize, a.replace, a.opens, a.answer, now);
            && GoodStore(s'.store) && s'.store.messages == s.store.messages
            && (forall id :: id in s.store.jobs ==> id in s'.store.jobs && s'.store.jobs[id] == s.store.jobs[id])
            && (forall id :: id in s'.store.jobs && id !in s.store.jobs ==>
                  IsNewJob(s, a, s', id, now) && s'.store.jobs[id].owner.None?)
  {
    hide GoodJobs, OneActivePerUser, MarkersAreLive, DistinctIds, GoodConnections, ValidateForScan, OnlyClearsMarkers, FirstView, Remember,
         OnlyServes, FreshTokens, WorkersFit;
    CreateJobKeeps(s.store, a.id, a.user, a.pageSize, a.replace, s.settings.maxMessages, s.settings.maxRuntime,
                   a.opens, a.answer, now);
  }

  lemma LaunchKeeps(s: World, a: Action, now: int)
    requires Inv(s) && a.StartScan? && a.id !in s.store.jobs && 0 < a.pageSize
    ensures var s' := Launch(s, a.id, a.user, a.pageSize, a.replace, a.opens, a.answer, now);
            && Inv(s') && RowsEvolve(s.store.jobs, s'.store.jobs, None, None)
            && KeepsOrganization(s.store.messages, s'.store.messages)
  {
    var s' := Launch(s, a.id, a.user, a.pageSize, a.replace, a.opens, a.answer, now);
    LaunchInserts(s, a, now);
    assert GoodSettings(s');
    hide CreateJob, GoodStore, IsNewJob, Inv, FirstView;
    NewJobsKeepWorkers(s, s'.store);
    InvIgnoresHistory(s.(store := s'.store), s');
  }

  lemma AnswerKeeps(s: World, user: UserId, r: Request, now: int)
    requires Inv(s) && Plausible(s.store.connections, user, r)
    ensures Inv(Answer(s, user, r, now)) && Administrative(s.store, Answer(s, user, r, now).store, None)
  {
    ServeKeeps(s.store, user, r, now);
    TransactionKeeps(s, Serve(s.store, user, r, now));
  }

  lemma EraseKeeps(s: World, user: UserId, keys: set<Key>)
    requires Inv(s)
    ensures Inv(Erase(s, user, keys)) && Evolves(s.store.jobs, Erase(s, user, keys).store.jobs, None)
    ensures KeepsOrganization(s.store.messages, Erase(s, user, keys).store.messages)
  {
    DeleteMessagesKeeps(s.store, user, keys);
    TransactionKeeps(s, DeleteMessages(s.store, user, keys));
  }

  lemma SourcesStayGood(s: World, user: UserId, p: Provenance, keys: set<Key>, opens: bool, answer: IdentityAnswer, now: int)
    requires GoodSettings(s)
    ensures GoodSettings(EraseRemotely(s, user, p, keys, opens, answer, now))
  {
    WithoutDescends(Source(s, p.principal), set k | k in keys :: k.tid);
    hide DeleteEverywhere, DeletesRemotely, Forget, Watch, Without, Descending, OnlyServes;
    EmptyDescends();
  }

  lemma EmptyDescends()
    ensures Descending([])
  {
  }

  lemma EraseRemotelyKeeps(s: World, user: UserId, p: Provenance, keys: set<Key>, opens: bool, answer: IdentityAnswer, now: int)
    requires Inv(s)
    ensures var s' := EraseRemotely(s, user, p, keys, opens, answer, now);
            Inv(s') && Evolves(s.store.jobs, s'.store.jobs, None) && KeepsOrganization(s.store.messages, s'.store.messages)
  {
    DeleteEverywhereKeeps(s.store, user, p, keys, opens, answer, now);
    SourcesStayGood(s, user, p, keys, opens, answer, now);
    hide DeleteEverywhere, GoodStore, DeletesRemotely, Inv, Evolves, KeepsOrganization, Forget, GoodSettings, Relist, Without, OnlyServes;
    var store := DeleteEverywhere(s.store, user, p, keys, opens, answer, now);
    TransactionKeeps(s, store);
    InvIgnoresHistory(s.(store := store), EraseRemotely(s, user, p, keys, opens, answer, now));
  }

  lemma RecategorizeKeeps(s: World, k: Key, category: nat)
    requires Inv(s) && k in s.store.messages
    ensures Inv(s.(store := Recategorize(s.store, k, category))) && Recategorize(s.store, k, category).jobs == s.store.jobs
  {
    var store := Recategorize(s.store, k, category);
    assert DistinctIds(store.messages, store.nextMessage);
    TransactionKeeps(s, store);
  }

  lemma EditTextKeeps(s: World, k: Key, content: nat)
    requires Inv(s) && k in s.store.messages
    ensures Inv(s.(store := EditText(s.store, k, content))) && EditText(s.store, k, content).jobs == s.store.jobs
    ensures KeepsOrganization(s.store.messages, EditText(s.store, k, content).messages)
  {
    var store := EditText(s.store, k, content);
    assert DistinctIds(store.messages, store.nextMessage);
    TransactionKeeps(s, store);
  }

  lemma RelistKeeps(s: World, principal: int, ids: seq<int>)
    requires Inv(s) && Descending(ids)
    ensures Inv(Relist(s, principal, ids)) && Relist(s, principal, ids).store == s.store
  {
    InvIgnoresHistory(s, Relist(s, principal, ids));
  }

  /** Deleting from a descending list leaves a descending list. */
  lemma {:induction false} WithoutDescends(ids: seq<int>, gone: set<int>)
    requires Descending(ids)
    ensures Descending(Without(ids, gone)) && forall t :: t in Without(ids, gone) <==> t in ids && t !in gone
  {
    if ids != [] {
      var n := |ids| - 1;
      WithoutDescends(ids[..n], gone);
      assert ids == ids[..n] + [ids[n]];
      var rest := Without(ids[..n], gone);
      forall j | 0 <= j < |rest| ensures ids[n] < rest[j] {
        assert rest[j] in rest;
        var i :| 0 <= i < n && ids[..n][i] == rest[j];
      }
    }
  }

  lemma RetagKeeps(s: World, k: Key, tags: set<nat>)
    requires Inv(s) && k in s.store.messages
    ensures Inv(s.(store := Retag(s.store, k, tags))) && Retag(s.store, k, tags).jobs == s.store.jobs
  {
    var store := Retag(s.store, k, tags);
    assert DistinctIds(store.messages, store.nextMessage);
    TransactionKeeps(s, store);
  }

  // ---------- Every action ----------

  function ClaimToken(a: Action): Option<Token> { if a.ClaimJob? then Some(a.token) else None }

  /** The job a page of this action would be committed to. */
  function CommitJob(s: World, a: Action): Option<JobId> {
    if a.CommitPage? && Slicing(s, a.w) then Some(WorkerOf(s, a.w).lease.job) else None
  }

  /** Actions that import, delete or reorganize messages, or create a job. */
  predicate TouchesLibrary(a: Action) {
    a.StartScan? || a.DeleteLocal? || a.DeleteRemotely? || a.SetCategory? || a.SetTags? || a.EditContent? || a.CommitPage? || a.FinishSlice?
  }

  predicate Organizes(a: Action) { a.SetCategory? || a.SetTags? }

  /** What any action may do to the rows that exist: jobs evolve, their progress moves only
      with a page of their own, and nobody but the user reorganizes messages. */
  predicate WorldEvolves(s: World, a: Action, s': World) {
    && RowsEvolve(s.store.jobs, s'.store.jobs, ClaimToken(a), CommitJob(s, a))
    && (Organizes(a) || KeepsOrganization(s.store.messages, s'.store.messages))
    && (a.StartScan? || s'.store.jobs.Keys == s.store.jobs.Keys)
    && (TouchesLibrary(a) || Administrative(s.store, s'.store, ClaimToken(a)))
  }

  lemma FinishStaleKeeps(s: World, id: JobId, now: int)
    requires Inv(s) && id in s.store.jobs && s.store.jobs[id].state == Stopping
    ensures var store := CancelStale(s.store, id, now); Inv(s.(store := store)) && Administrative(s.store, store, None)
  {
    CancelStaleKeeps(s.store, id, now);
    TransactionKeeps(s, CancelStale(s.store, id, now));
  }

  lemma StopScanKeeps(s: World, id: JobId, now: int)
    requires Inv(s) && id in s.store.jobs && IsActive(s.store.jobs[id])
    ensures var store := Stop(s.store, id, now); Inv(s.(store := store)) && Administrative(s.store, store, None)
  {
    StopKeeps(s.store, id, now);
    TransactionKeeps(s, Stop(s.store, id, now));
  }

  lemma UserStep(s: World, a: Action, now: int)
    requires Inv(s) && Enabled(s, a, now) && IsUserAction(a)
    ensures Inv(DoUser(s, a, now)) && WorldEvolves(s, a, DoUser(s, a, now))
  {
    hide Inv, GoodStore, Administrative, Evolves, RowsEvolve, KeepsOrganization;
    hide CancelStale, Stop, Answer, Erase, EraseRemotely, Launch, Recategorize, Retag, EditText, Relist;
    var s' := DoUser(s, a, now);
    match a {
      case FinishStale(id) => FinishStaleKeeps(s, id, now); AdministrationEvolves(s.store, s'.store, None);
      case StartScan(_, _, _, _, _, _) => LaunchKeeps(s, a, now);
      case StopScan(id) => StopScanKeeps(s, id, now); AdministrationEvolves(s.store, s'.store, None);
      case Ask(user, r) => AnswerKeeps(s, user, r, now); AdministrationEvolves(s.store, s'.store, None);
      case DeleteLocal(user, keys) => EraseKeeps(s, user, keys); EvolutionEvolves(s.store.jobs, s'.store.jobs, None);
      case DeleteRemotely(user, p, keys, opens, answer) =>
        EraseRemotelyKeeps(s, user, p, keys, opens, answer, now); EvolutionEvolves(s.store.jobs, s'.store.jobs, None);
      case SetCategory(key, category) => RecategorizeKeeps(s, key, category); StillnessEvolves(s.store);
      case SetTags(key, tags) => RetagKeeps(s, key, tags); StillnessEvolves(s.store);
      case EditContent(key, content) => EditTextKeeps(s, key, content); StillnessEvolves(s.store);
      case TelegramChanges(principal, ids) => RelistKeeps(s, principal, ids); StillnessEvolves(s.store);
      case _ =>
    }
  }

  lemma SweepKeeps(s: World, now: int)
    requires Inv(s)
    ensures Inv(s.(store := TerminalizeExpired(s.store, now)))
    ensures Administrative(s.store, TerminalizeExpired(s.store, now), None)
  {
    TerminalizeExpiredKeeps(s.store, now);
    TransactionKeeps(s, TerminalizeExpired(s.store, now));
  }

  lemma LoseAuthorizationKeeps(s: World, l: Lease, now: int)
    requires Inv(s)
    ensures Inv(s.(store := Downgrade(s.store, l, now))) && Administrative(s.store, Downgrade(s.store, l, now), None)
  {
    DowngradeKeeps(s.store, l, now);
    TransactionKeeps(s, Downgrade(s.store, l, now));
  }

  lemma FindUnreadableKeeps(s: World, l: Lease)
    requires Inv(s)
    ensures Inv(s.(store := InvalidateUnreadable(s.store, l))) && Administrative(s.store, InvalidateUnreadable(s.store, l), None)
  {
    InvalidateUnreadableKeeps(s.store, l);
    TransactionKeeps(s, InvalidateUnreadable(s.store, l));
  }

  lemma CrashKeeps(s: World, w: WorkerId)
    requires Inv(s)
    ensures Inv(Set(s, w, Idle))
  {
    WorkerChanges(s, w, Idle);
  }

  lemma WorkerStep(s: World, a: Action, now: int)
    requires Inv(s) && Enabled(s, a, now) && !IsUserAction(a)
    ensures Inv(DoWorker(s, a, now)) && WorldEvolves(s, a, DoWorker(s, a, now))
  {
    hide Inv, GoodStore, Administrative, Evolves, RowsEvolve, KeepsOrganization;
    hide TerminalizeExpired, Grab, Beat, Refresh, Finish, Fail, GiveBack, Commit, Downgrade, InvalidateUnreadable, Snapshot, ReadStop,
         BuildPage, KeepsHistory;
    var s' := DoWorker(s, a, now);
    StillnessEvolves(s.store);
    match a {
      case Sweep => SweepKeeps(s, now); AdministrationEvolves(s.store, s'.store, None);
      case ClaimJob(w, id, token) => GrabKeeps(s, w, id, token, now); AdministrationEvolves(s.store, s'.store, Some(token));
      case TakeLease(w) => SnapshotKeeps(s, w);
      case Heartbeat(w) => BeatKeeps(s, w, now); AdministrationEvolves(s.store, s'.store, None);
      case CommitPage(w, raw, keep) => CommitKeeps(s, w, raw, keep, now);
      case Conclude(w, reason) => ConcludeKeeps(s, w, reason);
      case LookForStop(w) => ReadStopKeeps(s, w, now);
      case SaveRefreshedSession(w, session) => RefreshKeeps(s, w, session, now); AdministrationEvolves(s.store, s'.store, None);
      case LoseAuthorization(w) =>
        LoseAuthorizationKeeps(s, WorkerOf(s, w).lease, now); AdministrationEvolves(s.store, s'.store, None);
      case FindUnreadable(w) =>
        FindUnreadableKeeps(s, WorkerOf(s, w).lease); AdministrationEvolves(s.store, s'.store, None);
      case FinishSlice(w, decided) => FinishKeeps(s, w, decided, now); EvolutionEvolves(s.store.jobs, s'.store.jobs, None);
      case FailSlice(w) => FailKeeps(s, w, now); AdministrationEvolves(s.store, s'.store, None);
      case ReleaseSlice(w) => GiveBackKeeps(s, w, now); AdministrationEvolves(s.store, s'.store, None);
      case Crash(w) => CrashKeeps(s, w);
    }
  }

  lemma InvStep(s: World, a: Action, s': World)
    requires Inv(s) && Next(s, a, s')
    ensures Inv(s') && WorldEvolves(s, a, s')
  {
    if IsUserAction(a) { UserStep(s, a, s'.clock); } else { WorkerStep(s, a, s'.clock); }
  }

  /** Every world of every run satisfies the invariant. */
  lemma {:induction false} InvAlways(run: seq<World>, actions: seq<Action>, i: nat)
    requires IsRun(run, actions) && i < |run|
    ensures Inv(run[i])
  {
    hide Next, Inv, WorldEvolves;
    if i == 0 {
      InvStarts(run[0]);
    } else {
      InvAlways(run, actions, i - 1);
      InvStep(run[i - 1], actions[i - 1], run[i]);
    }
  }

  lemma InvStarts(s: World)
    requires Init(s)
    ensures Inv(s)
  {
  }

  // ---------- Reading an action off a step ----------

  /** The transaction of a user's action. */
  lemma UserTransaction(s: World, a: Action, now: int)
    requires Enabled(s, a, now) && IsUserAction(a)
    ensures var store := DoUser(s, a, now).store;
            match a
            case FinishStale(id) => store == CancelStale(s.store, id, now)
            case StopScan(id) => store == Stop(s.store, id, now)
            case StartScan(id, user, pageSize, replace, opens, answer) =>
              store == CreateJob(s.store, id, user, pageSize, replace, s.settings.maxMessages, s.settings.maxRuntime, opens, answer, now)
            case Ask(user, r) => store == Serve(s.store, user, r, now)
            case DeleteLocal(user, keys) => store == DeleteMessages(s.store, user, keys)
            case DeleteRemotely(user, p, keys, opens, answer) => store == DeleteEverywhere(s.store, user, p, keys, opens, answer, now)
            case SetCategory(key, category) => store == Recategorize(s.store, key, category)
            case SetTags(key, tags) => store == Retag(s.store, key, tags)
            case EditContent(key, content) => store == EditText(s.store, key, content)
            case _ => store == s.store
  {
    hide CancelStale, Stop, CreateJob, Serve, DeleteMessages, DeleteEverywhere, Recategorize, Retag, EditText, Relist, Forget, Remember,
         FirstView, DeletesRemotely, Plausible, OnlyServes, Without, MayConclude, BuildPage;
  }

  /** The step of a worker's action. */
  lemma WorkerStepIs(s: World, a: Action, s': World)
    requires Next(s, a, s') && !IsUserAction(a)
    ensures Enabled(s, a, s'.clock)
    ensures var now := s'.clock;
            match a
            case Sweep => s' == s.(store := TerminalizeExpired(s.store, now), clock := now)
            case ClaimJob(w, id, token) => s' == Grab(s, w, id, token, now).(clock := now)
            case TakeLease(w) => s' == Snapshot(s, w).(clock := now)
            case Heartbeat(w) => s' == Beat(s, w, now).(clock := now)
            case LookForStop(w) => s' == ReadStop(s, w, now).(clock := now)
            case SaveRefreshedSession(w, session) => s' == Refresh(s, w, session, now).(clock := now)
            case LoseAuthorization(w) => s' == s.(store := Downgrade(s.store, WorkerOf(s, w).lease, now), clock := now)
            case FindUnreadable(w) => s' == s.(store := InvalidateUnreadable(s.store, WorkerOf(s, w).lease), clock := now)
            case FinishSlice(w, decided) => s' == Finish(s, w, decided, now).(clock := now)
            case FailSlice(w) => s' == Fail(s, w, now).(clock := now)
            case ReleaseSlice(w) => s' == GiveBack(s, w, now).(clock := now)
            case _ => true
  {
    hide TerminalizeExpired, Grab, Snapshot, Beat, ReadStop, Refresh, Downgrade, InvalidateUnreadable, Finish, Fail, GiveBack, Commit,
         DoUser, KeepsHistory, MayConclude, BuildPage, Plausible;
  }

  lemma CommitIs(s: World, a: Action, s': World)
    requires Next(s, a, s') && a.CommitPage?
    ensures MayFetch(WorkerOf(s, a.w)) && a.raw != [] && a.keep <= |BuildPage(a.raw, Capacity(WorkerOf(s, a.w))).messages|
    ensures s' == Commit(s, a.w, a.raw, a.keep, s'.clock).(clock := s'.clock)
  {
    hide Commit, BuildPage;
  }

  lemma FinishIs(s: World, a: Action, s': World)
    requires Next(s, a, s') && a.FinishSlice?
    ensures Slicing(s, a.w) && WorkerOf(s, a.w).ending.Some? && WorkerOf(s, a.w).ending.value.Ended?
    ensures s' == Finish(s, a.w, a.decided, s'.clock).(clock := s'.clock) && a.decided <= s'.clock
  {
    hide Finish;
  }

  lemma LaunchIs(s: World, a: Action, s': World)
    requires Next(s, a, s') && a.StartScan?
    ensures a.id !in s.store.jobs && 0 < a.pageSize
    ensures s' == Launch(s, a.id, a.user, a.pageSize, a.replace, a.opens, a.answer, s'.clock).(clock := s'.clock)
  {
    hide Launch;
  }

  lemma DeletionIs(s: World, a: Action, s': World)
    requires Next(s, a, s')
    ensures a.DeleteLocal? ==> s' == Erase(s, a.user, a.keys).(clock := s'.clock)
    ensures a.DeleteRemotely? ==>
              s' == EraseRemotely(s, a.user, a.provenance, a.keys, a.opens, a.answer, s'.clock).(clock := s'.clock)
  {
    hide Erase, EraseRemotely;
  }

  lemma OrganizingIs(s: World, a: Action, s': World)
    requires Next(s, a, s')
    ensures a.SetCategory? ==> a.key in s.store.messages && s' == s.(store := Recategorize(s.store, a.key, a.category), clock := s'.clock)
    ensures a.SetTags? ==> a.key in s.store.messages && s' == s.(store := Retag(s.store, a.key, a.tags), clock := s'.clock)
    ensures a.EditContent? ==> a.key in s.store.messages && s' == s.(store := EditText(s.store, a.key, a.content), clock := s'.clock)
  {
    hide Recategorize, Retag, EditText;
  }
}
