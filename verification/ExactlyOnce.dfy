/** Exactly-once import. Whatever the interleaving of workers, crashes, expired leases, reclaims
    and requeues, and however the source changes meanwhile, a job commits ids newest first and
    each once, commits nothing that was never listed, and leaves out nothing above its cursor
    that was listed all the time. If its source stays as it is while the job is active, it has
    committed exactly the newest `messages_scanned` ids of it. */
module ExactlyOnce {
  import opened Wrappers
  import opened ScanRows
  import opened TelegramAuth
  import opened ScanTransactions
  import opened StoreRules
  import opened Scanner
  import opened ScanProtocol
  import opened ProtocolInvariant
  import opened Fencing
  import opened ScanSafety
  import opened SourceViews

  /** The job is still this worker's. */
  predicate OwnsJob(s: World, v: Worker) {
    v.Slice? && v.lease.job in s.store.jobs && s.store.jobs[v.lease.job].owner == Some(v.lease.owner)
  }

  /** Telegram answers a worker that owns its job from what is listed, now or earlier in the
      life of the job. */
  predicate Honest(s: World, a: Action) {
    match a
    case CommitPage(w, raw, _) =>
      var v := WorkerOf(s, w);
      MayFetch(v) && OwnsJob(s, v) ==> IsAnswer(Ids(raw), ViewOf(s, v.lease.job), v.offset, Capacity(v) + 1)
    case Conclude(w, reason) =>
      var v := WorkerOf(s, w);
      reason == SourceExhausted && MayFetch(v) && OwnsJob(s, v) ==> IsAnswer([], ViewOf(s, v.lease.job), v.offset, Capacity(v) + 1)
    case _ => true
  }

  predicate IsHonestRun(run: seq<World>, actions: seq<Action>) {
    IsRun(run, actions) && forall i :: 0 <= i < |actions| ==> Honest(run[i], actions[i])
  }

  /** Every answer is a fetch of the list as it is when the page is persisted. */
  predicate Prompt(s: World, a: Action) {
    match a
    case CommitPage(w, raw, _) =>
      var v := WorkerOf(s, w);
      MayFetch(v) ==> Ids(raw) == Fetch(Source(s, v.lease.provenance.principal), v.offset, Capacity(v) + 1)
    case Conclude(w, reason) =>
      var v := WorkerOf(s, w);
      reason == SourceExhausted && MayFetch(v) ==>
        Fetch(Source(s, v.lease.provenance.principal), v.offset, Capacity(v) + 1) == []
    case _ => true
  }

  predicate IsPromptRun(run: seq<World>, actions: seq<Action>) {
    IsRun(run, actions) && forall i :: 0 <= i < |actions| ==> Prompt(run[i], actions[i])
  }

  /** What a job has imported, and that its counter and cursor say so. */
  predicate HasImported(j: Job, committed: seq<int>, view: View) {
    && IsImport(committed, 0, view)
    && j.scanned == |committed| && Offset(j.cursor) == Resume(committed, 0) && (j.cursor.None? <==> committed == [])
  }

  predicate JobsImported(s: World) {
    && (forall id :: id in s.store.jobs ==> HasImported(s.store.jobs[id], Committed(s, id), ViewOf(s, id)))
    && (forall id :: id in s.committed ==> id in s.store.jobs)
  }

  /** A worker that thinks the source is exhausted is right, while it owns its job. */
  predicate ExhaustionIsTrue(s: World, v: Worker) {
    Exhausted(v) && OwnsJob(s, v) ==> IsComplete(Committed(s, v.lease.job), 0, ViewOf(s, v.lease.job))
  }

  predicate ImportInv(s: World) {
    JobsImported(s) && forall w :: w in s.workers ==> ExhaustionIsTrue(s, s.workers[w])
  }

  // ---------- Prompt answers are honest ----------

  lemma OwnerBindsJob(s: World, w: WorkerId)
    requires Inv(s) && ViewsFit(s) && OwnsJob(s, WorkerOf(s, w))
    ensures var l := WorkerOf(s, w).lease;
            && Descending(Source(s, l.provenance.principal)) && 0 < l.pageSize
            && ViewOf(s, l.job).always <= IdSet(Source(s, l.provenance.principal)) <= ViewOf(s, l.job).ever
  {
    SliceFits(s, w);
    var l := WorkerOf(s, w).lease;
    assert GoodJob(s.store.jobs[l.job]);
    assert JobSees(JobSource(s, s.store.jobs[l.job]), s.store.jobs[l.job], ViewOf(s, l.job));
  }

  lemma PromptIsHonest(s: World, a: Action)
    requires Inv(s) && ViewsFit(s) && Prompt(s, a)
    ensures Honest(s, a)
  {
    if (a.CommitPage? || a.Conclude?) && MayFetch(WorkerOf(s, a.w)) && OwnsJob(s, WorkerOf(s, a.w)) {
      var v := WorkerOf(s, a.w);
      OwnerBindsJob(s, a.w);
      hide Inv, ViewsFit, IsAnswer, Fetch, Descending, Ids;
      FetchIsAnswer(Source(s, v.lease.provenance.principal), ViewOf(s, v.lease.job), v.offset, Capacity(v) + 1);
    }
  }

  lemma PromptRunsAreHonest(run: seq<World>, actions: seq<Action>)
    requires IsPromptRun(run, actions)
    ensures IsHonestRun(run, actions)
  {
    hide Next, Init, Prompt, Honest, Inv, ViewsFit;
    forall i | 0 <= i < |actions| ensures Honest(run[i], actions[i]) {
      InvAlways(run, actions, i);
      ViewsFitAlways(run, actions, i);
      PromptIsHonest(run[i], actions[i]);
    }
  }

  // ---------- One page ----------

  /** A worker that owns its job resumes where the job's import ends. */
  lemma OwnerResumes(s: World, w: WorkerId)
    requires Inv(s) && ImportInv(s) && OwnsJob(s, WorkerOf(s, w))
    ensures var v := WorkerOf(s, w);
            && HasImported(s.store.jobs[v.lease.job], Committed(s, v.lease.job), ViewOf(s, v.lease.job))
            && v.offset == Resume(Committed(s, v.lease.job), 0) && 0 < v.lease.pageSize
  {
    SliceFits(s, w);
    hide GoodStore, FreshTokens, WorkersFit, IsImport;
  }

  /** What a persisted page leaves: the advanced row, the longer history, the worker's step. */
  lemma CommitAdvances(s: World, w: WorkerId, raw: seq<Scanned>, keep: nat, now: int)
    requires MayFetch(WorkerOf(s, w)) && keep <= |BuildPage(raw, Capacity(WorkerOf(s, w))).messages|
    requires PersistsPage(s, w, raw, keep, now)
    ensures var v, page, s' := WorkerOf(s, w), PageFor(WorkerOf(s, w), raw, keep), Commit(s, w, raw, keep, now);
            var id := v.lease.job;
            && id in s.store.jobs && s'.store.jobs == s.store.jobs[id := PageRow(s.store.jobs[id], page)]
            && s'.committed == s.committed[id := Committed(s, id) + Ids(page.messages)]
            && s'.workers == s.workers[w := AfterPage(v, raw, keep)]
  {
    hide UpsertAll, BuildPage, CutPage, AfterPage, RepeatsNewMessage, OnlyScans;
  }

  lemma PageExtendsImport(j: Job, committed: seq<int>, view: View, v: Worker, raw: seq<Scanned>, keep: nat)
    requires HasImported(j, committed, view) && MayFetch(v) && v.offset == Resume(committed, 0) && 0 < v.lease.pageSize
    requires IsAnswer(Ids(raw), view, v.offset, Capacity(v) + 1)
    requires keep <= |BuildPage(raw, Capacity(v)).messages| && PageFor(v, raw, keep).messages != []
    ensures var page, v' := PageFor(v, raw, keep), AfterPage(v, raw, keep);
            && HasImported(PageRow(j, page), committed + Ids(page.messages), view)
            && (Exhausted(v') ==> IsComplete(committed + Ids(page.messages), 0, view))
  {
    var page := PageFor(v, raw, keep);
    PageOfAnswer(raw, Capacity(v), keep);
    ImportGrows(committed, 0, view, Ids(raw), Capacity(v) + 1, keep);
    hide BuildPage, CutPage, Ids, MinimumId, IsImport, IsAnswer, Descending, IsComplete;
  }

  lemma PageAdvances(s: World, w: WorkerId, raw: seq<Scanned>, keep: nat, now: int)
    requires Inv(s) && ImportInv(s) && MayFetch(WorkerOf(s, w))
    requires keep <= |BuildPage(raw, Capacity(WorkerOf(s, w))).messages|
    requires var v := WorkerOf(s, w); OwnsJob(s, v) ==> IsAnswer(Ids(raw), ViewOf(s, v.lease.job), v.offset, Capacity(v) + 1)
    requires PersistsPage(s, w, raw, keep, now)
    ensures var id, s' := WorkerOf(s, w).lease.job, Commit(s, w, raw, keep, now);
            && id in s.store.jobs && id in s'.store.jobs && s'.views == s.views
            && HasImported(s'.store.jobs[id], Committed(s', id), ViewOf(s', id))
            && ExhaustionIsTrue(s', WorkerOf(s', w))
  {
    hide Inv, ImportInv, Commit, BuildPage, CutPage, Ids, AfterPage, IsAnswer, IsComplete, HasImported, ConnectionMatches, RepeatsNewMessage,
         PageRow;
    var v := WorkerOf(s, w);
    CommitAdvances(s, w, raw, keep, now);
    OwnerResumes(s, w);
    PageExtendsImport(s.store.jobs[v.lease.job], Committed(s, v.lease.job), ViewOf(s, v.lease.job), v, raw, keep);
  }

  // ---------- Every other step ----------

  predicate Persists(s: World, a: Action, now: int) {
    && a.CommitPage? && MayFetch(WorkerOf(s, a.w)) && a.keep <= |BuildPage(a.raw, Capacity(WorkerOf(s, a.w))).messages|
    && PersistsPage(s, a.w, a.raw, a.keep, now)
  }

  /** No job's position moves, no job changes hands except by a claim, views widen, and new jobs
      are at the top. */
  predicate KeepsPositions(s: World, token: Option<Token>, s': World) {
    && s'.committed == s.committed
    && (forall id :: id in s.store.jobs ==>
          && id in s'.store.jobs && SameProgress(s.store.jobs[id], s'.store.jobs[id])
          && s'.store.jobs[id].owner in {None, s.store.jobs[id].owner, token}
          && Widens(ViewOf(s, id), ViewOf(s', id)))
    && (forall id :: id in s'.store.jobs && id !in s.store.jobs ==>
          s'.store.jobs[id].scanned == 0 && s'.store.jobs[id].cursor.None? && s'.store.jobs[id].owner.None?)
  }

  lemma UnpersistedCommitIs(s: World, a: Action, s': World)
    requires Inv(s) && Next(s, a, s') && a.CommitPage? && !Persists(s, a, s'.clock)
    ensures s'.store == s.store && s'.committed == s.committed
    ensures !Completes(WorkerOf(s', a.w)) && forall u :: u != a.w ==> WorkerOf(s', u) == WorkerOf(s, u)
  {
    hide Inv, Next, Commit, BuildPage, PersistsPage;
    CommitIs(s, a, s');
    UnpersistedPageKeeps(s, a.w, a.raw, a.keep, s'.clock);
  }

  lemma StepCommitsNothing(s: World, a: Action, s': World)
    requires Inv(s) && Next(s, a, s') && !Persists(s, a, s'.clock)
    ensures s'.committed == s.committed
  {
    hide Enabled, DoUser, DoWorker, Inv, Persists;
    if a.CommitPage? { UnpersistedCommitIs(s, a, s'); }
  }

  lemma ViewsWiden(s: World, a: Action, s': World)
    requires Next(s, a, s')
    ensures forall id :: id in s.store.jobs ==> Widens(ViewOf(s, id), ViewOf(s', id))
  {
    hide Next, Widens, SourceChange;
    forall id | id in s.store.jobs ensures Widens(ViewOf(s, id), ViewOf(s', id)) { ViewStep(s, a, s', id); }
  }

  lemma NewJobsStartAtTheTop(s: World, a: Action, s': World)
    requires Inv(s) && Next(s, a, s')
    ensures forall id :: id in s'.store.jobs && id !in s.store.jobs ==>
              s'.store.jobs[id].scanned == 0 && s'.store.jobs[id].cursor.None? && s'.store.jobs[id].owner.None?
  {
    hide Next, Inv;
    forall id | id in s'.store.jobs && id !in s.store.jobs
      ensures s'.store.jobs[id].scanned == 0 && s'.store.jobs[id].cursor.None? && s'.store.jobs[id].owner.None?
    {
      NewJobIs(s, a, s', id);
    }
  }

  lemma UnpersistedStepMovesNothing(s: World, a: Action, s': World, id: JobId)
    requires Inv(s) && Next(s, a, s') && !Persists(s, a, s'.clock) && id in s.store.jobs
    ensures id in s'.store.jobs && SameProgress(s.store.jobs[id], s'.store.jobs[id])
    ensures s'.store.jobs[id].owner in {None, s.store.jobs[id].owner, ClaimToken(a)}
  {
    hide Next, Inv, Administrative, Persists, KeepsOrganization;
    if a.CommitPage? {
      UnpersistedCommitIs(s, a, s');
    } else {
      InvStep(s, a, s');
    }
  }

  lemma StepKeepsPositions(s: World, a: Action, s': World)
    requires Inv(s) && Next(s, a, s') && !Persists(s, a, s'.clock)
    ensures KeepsPositions(s, ClaimToken(a), s')
  {
    hide Next, Inv, Persists, Widens, SameProgress, ClaimToken;
    StepCommitsNothing(s, a, s');
    ViewsWiden(s, a, s');
    NewJobsStartAtTheTop(s, a, s');
    forall id | id in s.store.jobs
      ensures id in s'.store.jobs && SameProgress(s.store.jobs[id], s'.store.jobs[id])
      ensures id in s'.store.jobs && s'.store.jobs[id].owner in {None, s.store.jobs[id].owner, ClaimToken(a)}
    {
      UnpersistedStepMovesNothing(s, a, s', id);
    }
  }

  lemma StillImported(j: Job, j': Job, committed: seq<int>, view: View, view': View)
    requires HasImported(j, committed, view) && SameProgress(j, j') && Widens(view, view')
    ensures HasImported(j', committed, view')
  {
    WideningKeeps(committed, 0, 0, view, view');
    hide IsImport;
  }

  lemma NothingImported(j: Job, view: View)
    requires j.scanned == 0 && j.cursor.None?
    ensures HasImported(j, [], view)
  {
  }

  lemma PositionsStay(s: World, token: Option<Token>, s': World)
    requires JobsImported(s) && KeepsPositions(s, token, s')
    ensures JobsImported(s')
  {
    hide HasImported, SameProgress, Widens;
    forall id | id in s'.store.jobs ensures HasImported(s'.store.jobs[id], Committed(s', id), ViewOf(s', id)) {
      if id in s.store.jobs {
        StillImported(s.store.jobs[id], s'.store.jobs[id], Committed(s, id), ViewOf(s, id), ViewOf(s', id));
      } else {
        assert id !in s.committed;
        NothingImported(s'.store.jobs[id], ViewOf(s', id));
      }
    }
  }

  /** Unless it persists a page or concludes, a worker does not come to think that its job is complete. */
  lemma NobodyElseCompletes(s: World, a: Action, s': World, w: WorkerId)
    requires Inv(s) && Next(s, a, s') && !Persists(s, a, s'.clock) && !a.Conclude? && Completes(WorkerOf(s', w))
    ensures WorkerOf(s', w) == WorkerOf(s, w)
  {
    if a.CommitPage? {
      hide Next, Inv, Persists;
      UnpersistedCommitIs(s, a, s');
    } else if a.SaveRefreshedSession? {
      hide Inv, Persists;
      RefreshesCompleteNothing(s, a, s', w);
    } else {
      hide Inv, Persists, Snapshot, Beat, Refresh, Finish, Fail, GiveBack, Grab, Downgrade, InvalidateUnreadable, ReadStop,
           TerminalizeExpired, DoUser, MayConclude, Plausible, KeepsHistory;
    }
  }

  lemma RefreshesCompleteNothing(s: World, a: Action, s': World, w: WorkerId)
    requires Next(s, a, s') && a.SaveRefreshedSession? && Completes(WorkerOf(s', w))
    ensures WorkerOf(s', w) == WorkerOf(s, w)
  {
    hide SaveSession, ConnectionMatches, Holds, KeepsHistory, DoUser, MayConclude, BuildPage, Plausible, Completes;
    IdleIsIncomplete();
  }

  lemma IdleIsIncomplete()
    ensures !Completes(Idle)
  {
  }

  lemma ExhaustionStays(s: World, token: Option<Token>, s': World, v: Worker)
    requires KeepsPositions(s, token, s') && ExhaustionIsTrue(s, v)
    requires v.Slice? ==> v.lease.job in s.store.jobs && token != Some(v.lease.owner)
    ensures ExhaustionIsTrue(s', v)
  {
    if Exhausted(v) && OwnsJob(s', v) {
      WideningKeeps(Committed(s, v.lease.job), 0, 0, ViewOf(s, v.lease.job), ViewOf(s', v.lease.job));
    }
  }

  lemma ConclusionIs(s: World, a: Action, s': World)
    requires Next(s, a, s') && a.Conclude?
    ensures Slicing(s, a.w) && MayConclude(s, WorkerOf(s, a.w), a.reason, s'.clock)
    ensures s'.store == s.store && s'.views == s.views && s'.committed == s.committed
    ensures s'.workers == s.workers[a.w := WorkerOf(s, a.w).(ending := Some(Ended(a.reason)))]
  {
    hide DoUser, MayConclude;
  }

  /** "Source exhausted" on an empty answer. */
  lemma EmptyAnswerExhausts(s: World, a: Action, s': World)
    requires Inv(s) && ImportInv(s) && Next(s, a, s') && Honest(s, a) && a.Conclude?
    ensures ExhaustionIsTrue(s', WorkerOf(s', a.w)) && forall u :: u != a.w ==> WorkerOf(s', u) == WorkerOf(s, u)
  {
    hide Next, Inv, ImportInv, IsAnswer, IsComplete;
    var v := WorkerOf(s, a.w);
    ConclusionIs(s, a, s');
    if a.reason == SourceExhausted && OwnsJob(s, v) {
      OwnerResumes(s, a.w);
      hide IsImport;
      NothingLeftCompletes(Committed(s, v.lease.job), 0, ViewOf(s, v.lease.job), Capacity(v) + 1);
    }
  }

  // ---------- The invariant over runs ----------

  /** A persisted page moves one job, and no worker but its owner watches that job. */
  lemma CommitStep(s: World, w: WorkerId, raw: seq<Scanned>, keep: nat, now: int)
    requires Inv(s) && ImportInv(s) && MayFetch(WorkerOf(s, w))
    requires keep <= |BuildPage(raw, Capacity(WorkerOf(s, w))).messages|
    requires var v := WorkerOf(s, w); OwnsJob(s, v) ==> IsAnswer(Ids(raw), ViewOf(s, v.lease.job), v.offset, Capacity(v) + 1)
    requires PersistsPage(s, w, raw, keep, now)
    ensures ImportInv(Commit(s, w, raw, keep, now))
  {
    hide Inv, ImportInv, Commit, BuildPage, PersistsPage, AfterPage, HasImported, OnlyScans, ExhaustionIsTrue, IsAnswer;
    PageAdvances(s, w, raw, keep, now);
    CommitAdvances(s, w, raw, keep, now);
    OwnerOf(s, w, raw, keep, now);
    OthersStay(s, w, Commit(s, w, raw, keep, now));
  }

  lemma OwnerOf(s: World, w: WorkerId, raw: seq<Scanned>, keep: nat, now: int)
    requires MayFetch(WorkerOf(s, w)) && keep <= |BuildPage(raw, Capacity(WorkerOf(s, w))).messages|
    requires Inv(s) && PersistsPage(s, w, raw, keep, now)
    ensures FreshTokens(s) && OwnsJob(s, WorkerOf(s, w))
  {
    hide Commit, BuildPage, GoodStore, FreshTokens, WorkersFit, GoodSettings, ConnectionMatches;
  }

  lemma OthersStay(s: World, w: WorkerId, s': World)
    requires ImportInv(s) && FreshTokens(s) && OwnsJob(s, WorkerOf(s, w)) && s'.views == s.views && w in s'.workers
    requires var l := WorkerOf(s, w).lease;
             && l.job in s'.store.jobs && l.job in s'.committed && s'.store.jobs[l.job].owner == Some(l.owner)
             && s'.store.jobs == s.store.jobs[l.job := s'.store.jobs[l.job]]
             && s'.committed == s.committed[l.job := s'.committed[l.job]]
             && s'.workers == s.workers[w := s'.workers[w]]
             && HasImported(s'.store.jobs[l.job], Committed(s', l.job), ViewOf(s', l.job))
    requires ExhaustionIsTrue(s', WorkerOf(s', w))
    ensures ImportInv(s')
  {
    hide HasImported, IsComplete;
    var id := WorkerOf(s, w).lease.job;
    forall j | j in s'.store.jobs ensures HasImported(s'.store.jobs[j], Committed(s', j), ViewOf(s', j)) {
      if j != id { assert HasImported(s.store.jobs[j], Committed(s, j), ViewOf(s, j)); }
    }
    forall u | u in s'.workers ensures ExhaustionIsTrue(s', s'.workers[u]) {
      if u != w { assert ExhaustionIsTrue(s, s.workers[u]) && TokenOf(s.workers[w]) != TokenOf(s.workers[u]); }
    }
  }

  lemma QuietStep(s: World, a: Action, s': World)
    requires Inv(s) && ImportInv(s) && Next(s, a, s') && Honest(s, a) && !Persists(s, a, s'.clock)
    ensures ImportInv(s')
  {
    hide Next, Honest, GoodStore, GoodSettings, JobsImported, KeepsPositions, ExhaustionIsTrue, Persists, Completes;
    StepKeepsPositions(s, a, s');
    PositionsStay(s, ClaimToken(a), s');
    UsedTokensStay(s, a, s');
    if a.Conclude? { EmptyAnswerExhausts(s, a, s'); }
    forall u | u in s'.workers ensures ExhaustionIsTrue(s', s'.workers[u]) {
      if Exhausted(s'.workers[u]) {
        ExhaustedCompletes(s'.workers[u]);
        if !a.Conclude? { NobodyElseCompletes(s, a, s', u); }
        if !a.Conclude? || u != a.w {
          assert s'.workers[u] == WorkerOf(s, u);
          assert ExhaustionIsTrue(s, s.workers[u]) && FreshTokens(s) && WorkerFits(s.store.jobs, s.workers[u]);
          ExhaustionStays(s, ClaimToken(a), s', s.workers[u]);
        }
      } else {
        UnexhaustedIsTrue(s', s'.workers[u]);
      }
    }
  }

  lemma ExhaustedCompletes(v: Worker)
    requires Exhausted(v)
    ensures Completes(v)
  {
  }

  lemma UnexhaustedIsTrue(s: World, v: Worker)
    requires !Exhausted(v)
    ensures ExhaustionIsTrue(s, v)
  {
  }

  lemma ImportStep(s: World, a: Action, s': World)
    requires Inv(s) && ImportInv(s) && Next(s, a, s') && Honest(s, a)
    ensures ImportInv(s')
  {
    hide Next, Inv, ImportInv, Commit, BuildPage, PersistsPage, IsAnswer;
    if Persists(s, a, s'.clock) {
      CommitIs(s, a, s');
      CommitStep(s, a.w, a.raw, a.keep, s'.clock);
      ClockIsNotMentioned(Commit(s, a.w, a.raw, a.keep, s'.clock), s'.clock);
    } else {
      QuietStep(s, a, s');
    }
  }

  lemma ClockIsNotMentioned(s: World, now: int)
    requires ImportInv(s)
    ensures ImportInv(s.(clock := now))
  {
    hide HasImported, IsComplete;
    var s' := s.(clock := now);
    forall id | id in s'.store.jobs ensures HasImported(s'.store.jobs[id], Committed(s', id), ViewOf(s', id)) {
      assert HasImported(s.store.jobs[id], Committed(s, id), ViewOf(s, id));
    }
    forall u | u in s'.workers ensures ExhaustionIsTrue(s', s'.workers[u]) { assert ExhaustionIsTrue(s, s.workers[u]); }
  }

  lemma ImportStarts(s: World)
    requires Init(s)
    ensures ImportInv(s)
  {
  }

  lemma {:induction false} ImportAlways(run: seq<World>, actions: seq<Action>, i: nat)
    requires IsHonestRun(run, actions) && i < |run|
    ensures ImportInv(run[i])
  {
    hide Next, Inv, Init, Honest, ImportInv;
    if i == 0 {
      ImportStarts(run[0]);
    } else {
      ImportAlways(run, actions, i - 1);
      InvAlways(run, actions, i - 1);
      ImportStep(run[i - 1], actions[i - 1], run[i]);
    }
  }

  // ---------- The results ----------

  lemma JobHasImported(run: seq<World>, actions: seq<Action>, i: nat, id: JobId)
    requires IsHonestRun(run, actions) && i < |run| && id in run[i].store.jobs
    ensures HasImported(run[i].store.jobs[id], Committed(run[i], id), ViewOf(run[i], id))
  {
    hide Next, Init, Honest, HasImported;
    ImportAlways(run, actions, i);
  }

  /** Exactly once, however the source changes: in every world of every honest run a job has
      committed its ids newest first and each once, its counter is their number and its cursor
      the last of them; each was listed at some time in the life of the job, and each that was
      listed all the time, down to the cursor, is among them. */
  lemma CommittedExactlyOnce(run: seq<World>, actions: seq<Action>, i: nat, id: JobId)
    requires IsHonestRun(run, actions) && i < |run| && id in run[i].store.jobs
    ensures var job, committed, view := run[i].store.jobs[id], Committed(run[i], id), ViewOf(run[i], id);
            && Descending(committed) && |committed| == job.scanned
            && job.cursor == (if committed == [] then None else Some(committed[|committed| - 1]))
            && (forall t :: t in committed ==> t in view.ever)
            && (forall t :: t in view.always && job.cursor.Some? && job.cursor.value <= t ==> t in committed)
  {
    hide Next, Init, Honest;
    JobHasImported(run, actions, i, id);
  }

  /** Exactly once, over a source that stays as it is while the job is active: the job has
      committed exactly the ids of its source at or above its cursor, the newest
      `messages_scanned` of them. Before the job and after it the source may change. */
  lemma SteadyJobsImportTheirSource(run: seq<World>, actions: seq<Action>, c: nat, i: nat, id: JobId, source: seq<int>)
    requires IsHonestRun(run, actions) && IsCreatedAt(run, actions, c, id) && c <= i < |run|
    requires Descending(source) && forall m :: c <= m <= i ==> IsSteady(run[m], id, source)
    ensures id in run[i].store.jobs
    ensures var job, committed := run[i].store.jobs[id], Committed(run[i], id);
            && job.scanned <= |source| && committed == source[..job.scanned]
            && forall t :: t in committed <==> t in source && job.cursor.Some? && job.cursor.value <= t
  {
    hide Next, Init, Honest, IsSteady;
    SteadyView(run, actions, c, i, id, source);
    JobHasImported(run, actions, i, id);
    SteadyImport(source, Committed(run[i], id), 0);
    assert Below(source, 0) == source;
    var job, committed := run[i].store.jobs[id], Committed(run[i], id);
    forall t | t in source && job.cursor.Some? && job.cursor.value <= t ensures t in committed { assert t in IdSet(source); }
  }

  /** Honest runs leave no real answer out: whatever was fetched from the list as it was at
      some time in the life of a job is an answer at any later time. */
  lemma EveryFetchIsAnAnswer(run: seq<World>, actions: seq<Action>, i: nat, k: nat, id: JobId, offset: int, limit: nat)
    requires IsRun(run, actions) && i <= k < |run| && 0 < limit
    requires id in run[i].store.jobs && IsActive(run[i].store.jobs[id]) && run[i].store.jobs[id].provenance.Some?
    ensures IsAnswer(Fetch(JobSource(run[i], run[i].store.jobs[id]), offset, limit), ViewOf(run[k], id), offset, limit)
  {
    hide Next, Init, GoodStore, FreshTokens, WorkersFit, IsAnswer, Fetch;
    InvAlways(run, actions, i);
    ViewsFitAlways(run, actions, i);
    ViewsOnlyWiden(run, actions, i, k, id);
    var source := JobSource(run[i], run[i].store.jobs[id]);
    assert JobSees(source, run[i].store.jobs[id], ViewOf(run[i], id)) && Descending(source);
    FetchIsAnswer(source, ViewOf(run[i], id), offset, limit);
    WideningKeeps(Fetch(source, offset, limit), offset, limit, ViewOf(run[i], id), ViewOf(run[k], id));
  }

  /** What a job committed stays a prefix of what it commits later, in every run. */
  lemma {:induction false} CommitsOnlyGrow(run: seq<World>, actions: seq<Action>, i: nat, k: nat, id: JobId)
    requires IsRun(run, actions) && i <= k < |run|
    ensures Committed(run[i], id) <= Committed(run[k], id)
  {
    hide Next, Init, Inv, Persists, Commit, BuildPage;
    if i < k {
      var s, a, s' := run[k - 1], actions[k - 1], run[k];
      CommitsOnlyGrow(run, actions, i, k - 1, id);
      InvAlways(run, actions, k - 1);
      if Persists(s, a, s'.clock) {
        PersistsIs(s, a, s'.clock);
        CommitIs(s, a, s');
        CommitAdvances(s, a.w, a.raw, a.keep, s'.clock);
      } else {
        StepCommitsNothing(s, a, s');
      }
    }
  }

  lemma PersistsIs(s: World, a: Action, now: int)
    requires Persists(s, a, now)
    ensures a.CommitPage? && MayFetch(WorkerOf(s, a.w)) && a.keep <= |BuildPage(a.raw, Capacity(WorkerOf(s, a.w))).messages|
    ensures PersistsPage(s, a.w, a.raw, a.keep, now)
  {
  }

  /** A worker that ends its slice with "source exhausted" and still owns its job has imported
      everything that was listed all the time. */
  lemma ExhaustedJobsAreComplete(run: seq<World>, actions: seq<Action>, i: nat, w: WorkerId)
    requires IsHonestRun(run, actions) && i < |run| && Exhausted(WorkerOf(run[i], w))
    requires HoldsIgnoringExpiry(run[i].store, WorkerOf(run[i], w).lease)
    ensures var id := WorkerOf(run[i], w).lease.job;
            forall t :: t in ViewOf(run[i], id).always ==> t in Committed(run[i], id)
  {
    hide Next, Init, Honest, Inv;
    ImportAlways(run, actions, i);
    assert ExhaustionIsTrue(run[i], run[i].workers[w]);
  }
}
