/** Completion reasons tell the truth: a job that completed because of its message limit has
    imported exactly that many messages, one that completed because of its runtime has used it
    up, and one that completed because the source is exhausted has imported all of it. */
module Completion {
  import opened Wrappers
  import opened ScanRows
  import opened TelegramAuth
  import opened ScanTransactions
  import opened StoreRules
  import opened Scanner
  import opened ScanProtocol
  import opened ProtocolInvariant
  import opened Fencing
  import opened ScanSafety
  import opened SourceViews
  import opened ExactlyOnce

  // ---------- What workers think ----------

  /** The reason a worker ended its slice for holds. */
  predicate EndingIsTrue(v: Worker, clock: int) {
    Completes(v) ==>
      && (v.ending.value.reason.MessageLimitReached? ==> Budget(v.lease) <= v.local)
      && (v.ending.value.reason.RuntimeLimitReached? ==> v.lease.maxRuntime <= clock - v.lease.startedAt)
  }

  predicate EndingsAreTrue(s: World) { forall w :: w in s.workers ==> EndingIsTrue(s.workers[w], s.clock) }

  lemma PageEndsTruly(v: Worker, raw: seq<Scanned>, keep: nat, clock: int)
    requires MayFetch(v) && keep <= |BuildPage(raw, Capacity(v)).messages|
    ensures EndingIsTrue(AfterPage(v, raw, keep), clock)
  {
    hide BuildPage, CutPage;
  }

  lemma ConclusionIsTrue(s: World, v: Worker, reason: Reason, now: int)
    requires v.Slice? && MayConclude(s, v, reason, now)
    ensures EndingIsTrue(v.(ending := Some(Ended(reason))), now)
  {
  }

  lemma ClockAdvances(s: World, a: Action, s': World)
    requires Next(s, a, s')
    ensures s.clock <= s'.clock
  {
    hide Enabled, Do;
  }

  lemma EndingsStayTrue(s: World, a: Action, s': World)
    requires Inv(s) && EndingsAreTrue(s) && Next(s, a, s')
    ensures EndingsAreTrue(s')
  {
    hide Next, Inv, Persists, Commit, BuildPage, AfterPage, Completes, EndingIsTrue;
    ClockAdvances(s, a, s');
    if Persists(s, a, s'.clock) {
      PersistsIs(s, a, s'.clock);
      CommitIs(s, a, s');
      CommitAdvances(s, a.w, a.raw, a.keep, s'.clock);
      PageEndsTruly(WorkerOf(s, a.w), a.raw, a.keep, s'.clock);
    } else if a.Conclude? {
      ConclusionIs(s, a, s');
      ConclusionIsTrue(s, WorkerOf(s, a.w), a.reason, s'.clock);
    }
    forall w | w in s'.workers ensures EndingIsTrue(s'.workers[w], s'.clock) {
      if (Persists(s, a, s'.clock) || a.Conclude?) && w == a.w {
      } else if Persists(s, a, s'.clock) || a.Conclude? {
        EndingStaysTrue(s.workers[w], s.clock, s'.clock);
      } else if Completes(s'.workers[w]) {
        NobodyElseCompletes(s, a, s', w);
        IdleCompletesNothing();
        EndingStaysTrue(s.workers[w], s.clock, s'.clock);
      } else {
        IncompleteIsTrue(s'.workers[w], s'.clock);
      }
    }
  }

  lemma EndingStaysTrue(v: Worker, clock: int, now: int)
    requires EndingIsTrue(v, clock) && clock <= now
    ensures EndingIsTrue(v, now)
  {
  }

  lemma IncompleteIsTrue(v: Worker, clock: int)
    requires !Completes(v)
    ensures EndingIsTrue(v, clock)
  {
  }

  lemma IdleCompletesNothing()
    ensures !Completes(Idle)
  {
  }

  // ---------- What rows say ----------

  predicate CompletionIsTrue(j: Job) {
    j.state == Completed ==>
      && (j.reason == Some(MessageLimitReached) ==> j.scanned == j.maxMessages)
      && (j.reason == Some(RuntimeLimitReached) ==>
            j.startedAt.Some? && j.finishedAt.Some? && j.maxRuntime <= j.finishedAt.value - j.startedAt.value)
  }

  predicate CompletionsAreTrue(s: World) { forall id :: id in s.store.jobs ==> CompletionIsTrue(s.store.jobs[id]) }

  /** The end of a slice writes a reason that holds. */
  lemma FinishedRowIsTrue(s: World, w: WorkerId, decided: int, now: int)
    requires Inv(s) && Slicing(s, w) && WorkerOf(s, w).ending.Some? && WorkerOf(s, w).ending.value.Ended?
    requires EndingIsTrue(WorkerOf(s, w), s.clock) && s.clock <= now && decided <= now && Holds(s.store, WorkerOf(s, w).lease, now)
    ensures var l := WorkerOf(s, w).lease; l.job in s.store.jobs
    ensures var l, s' := WorkerOf(s, w).lease, Finish(s, w, decided, now);
            && CompletionIsTrue(s'.store.jobs[l.job])
            && (s'.store.jobs[l.job].state == Completed && s'.store.jobs[l.job].reason == Some(SourceExhausted) ==>
                  Exhausted(WorkerOf(s, w)) && SameProgress(s.store.jobs[l.job], s'.store.jobs[l.job]))
  {
    hide OneActivePerUser, MarkersAreLive, DistinctIds, GoodConnections, FreshTokens, WorkersFit, Swept, ClearUserMarkers, ImportsNothing,
         OnlyScans;
    SliceFits(s, w);
    assert GoodJob(s.store.jobs[WorkerOf(s, w).lease.job]);
    hide GoodJob;
  }

  /** The step in which a job becomes completed is the end of a slice of the worker that holds it. */
  lemma CompletionIsAFinish(s: World, a: Action, s': World, id: JobId)
    requires Inv(s) && Next(s, a, s') && id in s.store.jobs && id in s'.store.jobs
    requires s.store.jobs[id].state != Completed && s'.store.jobs[id].state == Completed
    ensures a.FinishSlice? && ByHolder(s, a, a.w, id, s'.clock)
    ensures WorkerOf(s, a.w).ending.Some? && WorkerOf(s, a.w).ending.value.Ended?
    ensures s' == Finish(s, a.w, a.decided, s'.clock).(clock := s'.clock) && s.clock <= s'.clock && a.decided <= s'.clock
  {
    hide Next, Inv, Finish, Holds, HoldsIgnoringExpiry;
    ClockAdvances(s, a, s');
    EndsAreFenced(s, a, s', id);
    if a.FailSlice? || a.ReleaseSlice? { OtherEndsCompleteNothing(s, a, s', id); } else { FinishIs(s, a, s'); }
  }

  lemma OtherEndsCompleteNothing(s: World, a: Action, s': World, id: JobId)
    requires Inv(s) && Next(s, a, s') && (a.FailSlice? || a.ReleaseSlice?) && id in s.store.jobs
    ensures id in s'.store.jobs && (s'.store.jobs[id].state == Completed ==> s.store.jobs[id].state == Completed)
  {
    hide ClearUserMarkers, GoodStore, Swept, ImportsNothing, OnlyScans, DoUser, WorkersFit, FreshTokens, MayConclude;
  }

  lemma CompletionsStayTrue(s: World, a: Action, s': World)
    requires Inv(s) && EndingsAreTrue(s) && CompletionsAreTrue(s) && Next(s, a, s')
    ensures CompletionsAreTrue(s')
  {
    hide Next, Inv, Finish, CompletionIsTrue, EndingIsTrue;
    ClockAdvances(s, a, s');
    forall id | id in s'.store.jobs ensures CompletionIsTrue(s'.store.jobs[id]) {
      if id !in s.store.jobs {
        NewJobIs(s, a, s', id);
        UncompletedIsTrue(s'.store.jobs[id]);
      } else if s'.store.jobs[id].state != Completed {
        UncompletedIsTrue(s'.store.jobs[id]);
      } else if s.store.jobs[id].state == Completed {
        JobsMoveForward(s, a, s', id);
      } else {
        CompletionIsAFinish(s, a, s', id);
        assert EndingIsTrue(s.workers[a.w], s.clock);
        FinishedRowIsTrue(s, a.w, a.decided, s'.clock);
      }
    }
  }

  lemma UncompletedIsTrue(j: Job)
    requires j.state != Completed
    ensures CompletionIsTrue(j)
  {
  }

  // ---------- The results ----------

  /** In every world of every run: a job that completed with "message limit reached" counted
      exactly its limit, and one that completed with "runtime limit reached" ran that long. */
  lemma {:induction false} CompletionReasonsHold(run: seq<World>, actions: seq<Action>, i: nat)
    requires IsRun(run, actions) && i < |run|
    ensures CompletionsAreTrue(run[i]) && EndingsAreTrue(run[i])
  {
    hide Next, Inv, CompletionsAreTrue, EndingsAreTrue, Init;
    if i == 0 {
      NothingCompletedYet(run[0]);
    } else {
      CompletionReasonsHold(run, actions, i - 1);
      InvAlways(run, actions, i - 1);
      CompletionsStayTrue(run[i - 1], actions[i - 1], run[i]);
      EndingsStayTrue(run[i - 1], actions[i - 1], run[i]);
    }
  }

  lemma NothingCompletedYet(s: World)
    requires Init(s)
    ensures CompletionsAreTrue(s) && EndingsAreTrue(s)
  {
  }

  /** In honest runs a job that completed with "source exhausted" has committed everything that
      was listed all the time while it was active. */
  lemma {:induction false} ExhaustedMeansEverything(run: seq<World>, actions: seq<Action>, i: nat, id: JobId)
    requires IsHonestRun(run, actions) && i < |run| && id in run[i].store.jobs
    requires run[i].store.jobs[id].state == Completed && run[i].store.jobs[id].reason == Some(SourceExhausted)
    ensures IsComplete(Committed(run[i], id), 0, ViewOf(run[i], id))
  {
    hide Next, Inv, Init, Honest, Finish, ImportInv, EndingIsTrue, CompletionIsTrue, IsComplete, Widens, CarriesSettings;
    if i == 0 {
      NothingCompleted(run[0], id);
    } else {
      var s, a, s' := run[i - 1], actions[i - 1], run[i];
      InvAlways(run, actions, i - 1);
      if id !in s.store.jobs {
        NewJobIs(s, a, s', id);
      } else {
        JobsMoveForward(s, a, s', id);
        EndedJobCommitsNothing(s, a, s', id);
        ViewStep(s, a, s', id);
        WideningKeeps(Committed(s, id), 0, 0, ViewOf(s, id), ViewOf(s', id));
        if s.store.jobs[id].state == Completed {
          ExhaustedMeansEverything(run, actions, i - 1, id);
        } else {
          ImportAlways(run, actions, i - 1);
          CompletionReasonsHold(run, actions, i - 1);
          CompletionIsAFinish(s, a, s', id);
          assert EndingIsTrue(s.workers[a.w], s.clock);
          FinishedRowIsTrue(s, a.w, a.decided, s'.clock);
          ExhaustedOwnerIsDone(s, a.w, s'.clock);
        }
      }
    }
  }

  /** A step that leaves a job completed commits nothing to it. */
  lemma EndedJobCommitsNothing(s: World, a: Action, s': World, id: JobId)
    requires Inv(s) && Next(s, a, s') && id in s.store.jobs && id in s'.store.jobs && s'.store.jobs[id].state == Completed
    ensures Committed(s', id) == Committed(s, id)
  {
    hide Next, Inv, Persists, Commit, BuildPage, PersistsPage;
    if Persists(s, a, s'.clock) {
      PersistsIs(s, a, s'.clock);
      CommitIs(s, a, s');
      CommitAdvances(s, a.w, a.raw, a.keep, s'.clock);
      OwnerOf(s, a.w, a.raw, a.keep, s'.clock);
      OwnedJobIsActive(s, WorkerOf(s, a.w).lease.job);
    } else {
      StepCommitsNothing(s, a, s');
    }
  }

  lemma OwnedJobIsActive(s: World, id: JobId)
    requires Inv(s) && id in s.store.jobs && s.store.jobs[id].owner.Some?
    ensures IsActive(s.store.jobs[id])
  {
    assert GoodJob(s.store.jobs[id]);
  }

  lemma NothingCompleted(s: World, id: JobId)
    requires Init(s) && id in s.store.jobs
    ensures s.store.jobs[id].state == Pending
  {
  }

  lemma ExhaustedOwnerIsDone(s: World, w: WorkerId, now: int)
    requires ImportInv(s) && Exhausted(WorkerOf(s, w)) && Holds(s.store, WorkerOf(s, w).lease, now)
    ensures var id := WorkerOf(s, w).lease.job; IsComplete(Committed(s, id), 0, ViewOf(s, id))
  {
    assert ExhaustionIsTrue(s, s.workers[w]);
  }

  /** If the source stayed as it was while the job was active, that is the whole source. */
  lemma ExhaustedMeansTheSource(run: seq<World>, actions: seq<Action>, c: nat, i: nat, id: JobId, source: seq<int>)
    requires IsHonestRun(run, actions) && IsCreatedAt(run, actions, c, id) && c <= i < |run| && id in run[i].store.jobs
    requires Descending(source) && forall m :: c <= m <= i ==> IsSteady(run[m], id, source)
    requires run[i].store.jobs[id].state == Completed && run[i].store.jobs[id].reason == Some(SourceExhausted)
    ensures Committed(run[i], id) == source
  {
    hide Next, Init, Honest, IsSteady;
    ExhaustedMeansEverything(run, actions, i, id);
    SteadyView(run, actions, c, i, id, source);
    JobHasImported(run, actions, i, id);
    SteadyImport(source, Committed(run[i], id), 0);
    assert Below(source, 0) == source;
  }
}
