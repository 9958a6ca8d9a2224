/** What Telegram lists may change at any time: messages arrive, are deleted in another client,
    or are deleted by the user through this service. This is what every job could have seen of
    its source between its creation and its end. */
module SourceViews {
  import opened Wrappers
  import opened ScanRows
  import opened TelegramAuth
  import opened ScanTransactions
  import opened StoreRules
  import opened Scanner
  import opened ScanProtocol
  import opened ProtocolInvariant
  import opened ScanSafety

  /** The account whose list an action changes, and the new list. */
  function SourceChange(s: World, a: Action): Option<(int, seq<int>)> {
    match a
    case TelegramChanges(principal, ids) => Some((principal, ids))
    case DeleteRemotely(user, p, keys, opens, answer) =>
      if DeletesRemotely(s, user, p, opens, answer)
      then Some((p.principal, Without(Source(s, p.principal), set k | k in keys :: k.tid)))
      else None
    case _ => None
  }

  function Principal(j: Job): Option<int> { if j.provenance.Some? then Some(j.provenance.value.principal) else None }

  function JobSource(s: World, j: Job): seq<int> { if Principal(j).Some? then Source(s, Principal(j).value) else [] }

  // ---------- One step ----------

  lemma RemoteDeletionLists(s: World, a: Action, now: int)
    requires a.DeleteRemotely?
    ensures var s' := EraseRemotely(s, a.user, a.provenance, a.keys, a.opens, a.answer, now);
            match SourceChange(s, a)
            case None => s'.sources == s.sources && s'.views == s.views
            case Some((p, ids)) => s'.sources == s.sources[p := ids] && s'.views == Watch(s, p, ids)
  {
    hide DeleteEverywhere, DeletesRemotely, Forget, Watch, Without, OnlyServes;
  }

  lemma LaunchLists(s: World, a: Action, now: int)
    requires a.StartScan?
    ensures var s' := Launch(s, a.id, a.user, a.pageSize, a.replace, a.opens, a.answer, now);
            && s'.sources == s.sources
            && s'.views == if a.id in s'.store.jobs then s.views[a.id := FirstView(s, s'.store, a.id)] else s.views
  {
    hide CreateJob, FirstView, OnlyServes;
  }

  lemma UserLists(s: World, a: Action, now: int)
    requires Enabled(s, a, now) && IsUserAction(a) && SourceChange(s, a).None? && !a.StartScan?
    ensures DoUser(s, a, now).sources == s.sources && DoUser(s, a, now).views == s.views
  {
    hide Serve, EraseRemotely, DeletesRemotely, DeleteMessages, CancelStale, Stop, Recategorize, Retag, EditText, Forget, Remember,
         OnlyServes, Plausible, Launch, Relist, Without;
    if a.DeleteRemotely? { RemoteDeletionLists(s, a, now); }
  }

  /** Lists and views change only by a change of a source and with a new job. */
  lemma ListingStep(s: World, a: Action, s': World)
    requires Next(s, a, s')
    ensures match SourceChange(s, a)
            case Some((p, ids)) => s'.sources == s.sources[p := ids] && s'.views == Watch(s, p, ids)
            case None =>
              && s'.sources == s.sources
              && s'.views == if a.StartScan? && a.id in s'.store.jobs then s.views[a.id := FirstView(s, s'.store, a.id)] else s.views
  {
    hide DoWorker, Launch, EraseRemotely, Watch, FirstView, Without, DeletesRemotely, Answer, Erase, CancelStale, Stop;
    if !IsUserAction(a) {
      WorkersDoNotList(s, a, s');
    } else if a.StartScan? {
      LaunchIs(s, a, s');
      LaunchLists(s, a, s'.clock);
    } else if a.DeleteRemotely? {
      DeletionIs(s, a, s');
      RemoteDeletionLists(s, a, s'.clock);
    } else if a.TelegramChanges? {
      ChangeIs(s, a, s');
    } else {
      UserLists(s, a, s'.clock);
    }
  }

  lemma WorkersDoNotList(s: World, a: Action, s': World)
    requires Next(s, a, s') && !IsUserAction(a)
    ensures SourceChange(s, a).None? && !a.StartScan? && s'.sources == s.sources && s'.views == s.views
  {
    hide Enabled, DoUser, DoWorker;
  }

  lemma ChangeIs(s: World, a: Action, s': World)
    requires Next(s, a, s') && a.TelegramChanges?
    ensures Descending(a.ids) && s' == Relist(s, a.principal, a.ids).(clock := s'.clock)
  {
    hide Relist, DoWorker;
  }

  /** A job's view only widens while the job is active, and is frozen when it is over. */
  lemma ViewStep(s: World, a: Action, s': World, id: JobId)
    requires Next(s, a, s') && id in s.store.jobs
    ensures Widens(ViewOf(s, id), ViewOf(s', id))
    ensures !IsActive(s.store.jobs[id]) ==> ViewOf(s', id) == ViewOf(s, id)
    ensures ViewOf(s', id) == ViewOf(s, id)
            || (SourceChange(s, a).Some? && Principal(s.store.jobs[id]) == Some(SourceChange(s, a).value.0)
                && ViewOf(s', id) == View(ViewOf(s, id).always * IdSet(JobSource(s', s.store.jobs[id])),
                                          ViewOf(s, id).ever + IdSet(JobSource(s', s.store.jobs[id]))))
  {
    hide Next, SourceChange, FirstView;
    ListingStep(s, a, s');
    StartsNewJobs(s, a, s');
  }

  lemma StartsNewJobs(s: World, a: Action, s': World)
    requires Next(s, a, s')
    ensures a.StartScan? ==> a.id !in s.store.jobs
  {
    hide DoUser, DoWorker;
  }

  // ---------- The views fit ----------

  /** An active job's source lists what its view has listed all the time, and nothing its view
      has never seen. */
  predicate JobSees(source: seq<int>, j: Job, view: View) {
    && view.always <= view.ever
    && (IsActive(j) && j.provenance.Some? ==> view.always <= IdSet(source) <= view.ever)
  }

  predicate ViewsFit(s: World) {
    && (forall id :: id in s.store.jobs ==> JobSees(JobSource(s, s.store.jobs[id]), s.store.jobs[id], ViewOf(s, id)))
    && (forall id :: id in s.views ==> id in s.store.jobs)
  }

  lemma OldJobSees(s: World, a: Action, s': World, id: JobId)
    requires Next(s, a, s') && id in s.store.jobs && id in s'.store.jobs
    requires JobSees(JobSource(s, s.store.jobs[id]), s.store.jobs[id], ViewOf(s, id))
    requires s'.store.jobs[id].provenance == s.store.jobs[id].provenance
    requires IsActive(s'.store.jobs[id]) ==> IsActive(s.store.jobs[id])
    ensures JobSees(JobSource(s', s'.store.jobs[id]), s'.store.jobs[id], ViewOf(s', id))
  {
    hide Next, SourceChange, FirstView, Widens;
    ListingStep(s, a, s');
    StartsNewJobs(s, a, s');
  }

  lemma NewJobSees(s: World, a: Action, s': World, id: JobId)
    requires Inv(s) && Next(s, a, s') && id !in s.store.jobs && id in s'.store.jobs
    ensures a.StartScan? && a.id == id && s'.sources == s.sources
    ensures s'.store.jobs[id].provenance.Some? && IsActive(s'.store.jobs[id])
    ensures ViewOf(s', id) == View(IdSet(JobSource(s', s'.store.jobs[id])), IdSet(JobSource(s', s'.store.jobs[id])))
  {
    NewJobIs(s, a, s', id);
    ListingStep(s, a, s');
    hide Next, Inv;
  }

  lemma ViewsFitStep(s: World, a: Action, s': World)
    requires Inv(s) && ViewsFit(s) && Next(s, a, s')
    ensures ViewsFit(s')
  {
    hide Next, Inv, JobSees;
    InvStep(s, a, s');
    ViewKeysStay(s, a, s');
    forall id | id in s'.store.jobs ensures JobSees(JobSource(s', s'.store.jobs[id]), s'.store.jobs[id], ViewOf(s', id)) {
      if id in s.store.jobs {
        OldJobSees(s, a, s', id);
      } else {
        NewJobSees(s, a, s', id);
        WholeSourceIsSeen(JobSource(s', s'.store.jobs[id]), s'.store.jobs[id]);
      }
    }
  }

  lemma WholeSourceIsSeen(source: seq<int>, j: Job)
    ensures JobSees(source, j, View(IdSet(source), IdSet(source)))
  {
  }

  lemma ViewKeysStay(s: World, a: Action, s': World)
    requires Inv(s) && ViewsFit(s) && Next(s, a, s')
    ensures forall id :: id in s'.views ==> id in s'.store.jobs
  {
    hide Next, Inv, JobSees, RowEvolves, KeepsOrganization, Administrative;
    InvStep(s, a, s');
    ListingStep(s, a, s');
    hide SourceChange;
  }

  lemma {:induction false} ViewsFitAlways(run: seq<World>, actions: seq<Action>, i: nat)
    requires IsRun(run, actions) && i < |run|
    ensures ViewsFit(run[i])
  {
    hide Next, Inv, ViewsFit, Init;
    if i == 0 {
      NothingSeenYet(run[0]);
    } else {
      ViewsFitAlways(run, actions, i - 1);
      InvAlways(run, actions, i - 1);
      ViewsFitStep(run[i - 1], actions[i - 1], run[i]);
    }
  }

  lemma NothingSeenYet(s: World)
    requires Init(s)
    ensures ViewsFit(s)
  {
  }

  /** What a job could see all the time only shrinks, what it could see at some time only grows. */
  lemma {:induction false} ViewsOnlyWiden(run: seq<World>, actions: seq<Action>, i: nat, k: nat, id: JobId)
    requires IsRun(run, actions) && i <= k < |run| && id in run[i].store.jobs
    ensures Widens(ViewOf(run[i], id), ViewOf(run[k], id))
  {
    hide Next, Inv, Init;
    if i < k {
      ViewsOnlyWiden(run, actions, i, k - 1, id);
      JobsOnlyMoveForward(run, actions, i, k - 1, id);
      ViewStep(run[k - 1], actions[k - 1], run[k], id);
    }
  }

  // ---------- Views are what was listed ----------

  /** Job `id` is created by step `c - 1`. */
  predicate IsCreatedAt(run: seq<World>, actions: seq<Action>, c: nat, id: JobId) {
    0 < c < |run| && id !in run[c - 1].store.jobs && id in run[c].store.jobs
  }

  /** The active job could find message `t` in its source now. */
  predicate Lists(s: World, id: JobId, t: int) {
    id in s.store.jobs && IsActive(s.store.jobs[id]) && t in JobSource(s, s.store.jobs[id])
  }

  /** The active job could not find message `t` in its source now. */
  predicate Lacks(s: World, id: JobId, t: int) {
    id in s.store.jobs && IsActive(s.store.jobs[id]) && t !in JobSource(s, s.store.jobs[id])
  }

  lemma NewJobViews(s: World, a: Action, s': World, id: JobId, t: int)
    requires Inv(s) && Next(s, a, s') && id !in s.store.jobs && id in s'.store.jobs
    ensures t in ViewOf(s', id).always <==> !Lacks(s', id, t)
    ensures t in ViewOf(s', id).ever <==> Lists(s', id, t)
  {
    NewJobSees(s, a, s', id);
    hide Next, Inv, JobSource;
  }

  lemma OldJobViews(s: World, a: Action, s': World, id: JobId, t: int)
    requires Inv(s) && ViewsFit(s') && Next(s, a, s') && id in s.store.jobs && s.store.jobs[id].provenance.Some?
    ensures id in s'.store.jobs && s'.store.jobs[id].provenance.Some?
    ensures t in ViewOf(s', id).always <==> t in ViewOf(s, id).always && !Lacks(s', id, t)
    ensures t in ViewOf(s', id).ever <==> t in ViewOf(s, id).ever || Lists(s', id, t)
  {
    hide Next, Inv, SourceChange;
    JobsMoveForward(s, a, s', id);
    ViewStep(s, a, s', id);
    assert JobSees(JobSource(s', s'.store.jobs[id]), s'.store.jobs[id], ViewOf(s', id));
    if SourceChange(s, a).Some? { JobsStayWhenListsChange(s, a, s'); }
  }

  /** A job's view is its history: what its source listed all the time from its creation to its
      end, and what it listed at some time. */
  lemma {:induction false} ViewIsHistory(run: seq<World>, actions: seq<Action>, c: nat, i: nat, id: JobId, t: int)
    requires IsRun(run, actions) && IsCreatedAt(run, actions, c, id) && c <= i < |run|
    ensures id in run[i].store.jobs && run[i].store.jobs[id].provenance.Some?
    ensures t in ViewOf(run[i], id).always <==> !exists m :: c <= m <= i && Lacks(run[m], id, t)
    ensures t in ViewOf(run[i], id).ever <==> exists m :: c <= m <= i && Lists(run[m], id, t)
  {
    hide Next, Inv, Init, Lists, Lacks, ViewsFit;
    InvAlways(run, actions, i - 1);
    if i == c {
      NewJobSees(run[c - 1], actions[c - 1], run[c], id);
      NewJobViews(run[c - 1], actions[c - 1], run[c], id, t);
    } else {
      ViewIsHistory(run, actions, c, i - 1, id, t);
      ViewsFitAlways(run, actions, i);
      OldJobViews(run[i - 1], actions[i - 1], run[i], id, t);
    }
  }

  // ---------- Sources that stay ----------

  /** While the job is active, its source is `source`. */
  predicate IsSteady(s: World, id: JobId, source: seq<int>) {
    id in s.store.jobs && IsActive(s.store.jobs[id]) ==> JobSource(s, s.store.jobs[id]) == source
  }

  lemma JobsStayWhenListsChange(s: World, a: Action, s': World)
    requires Next(s, a, s') && SourceChange(s, a).Some?
    ensures s'.store.jobs == s.store.jobs
  {
    hide DoWorker, Watch, Without, Forget, OnlyServes, Relist, DeleteMessages, CancelBound;
    if a.DeleteRemotely? {
      hide EraseRemotely, Do;
      DeletionIs(s, a, s');
      AcceptedDeletionKeepsJobs(s, a, s'.clock);
    }
  }

  lemma AcceptedDeletionKeepsJobs(s: World, a: Action, now: int)
    requires a.DeleteRemotely? && DeletesRemotely(s, a.user, a.provenance, a.opens, a.answer)
    ensures EraseRemotely(s, a.user, a.provenance, a.keys, a.opens, a.answer, now).store.jobs == s.store.jobs
  {
    hide Watch, Without, Forget, OnlyServes, Remember;
  }

  lemma SteadyStep(s: World, a: Action, s': World, id: JobId, source: seq<int>)
    requires Inv(s) && Next(s, a, s') && id in s.store.jobs && IsSteady(s, id, source) && IsSteady(s', id, source)
    requires ViewOf(s, id) == View(IdSet(source), IdSet(source))
    ensures id in s'.store.jobs && ViewOf(s', id) == ViewOf(s, id)
  {
    hide Next, Inv, SourceChange;
    JobsMoveForward(s, a, s', id);
    ViewStep(s, a, s', id);
    if SourceChange(s, a).Some? { JobsStayWhenListsChange(s, a, s'); }
  }

  /** If the source of a job stays as it is while the job is active, its view is that source. */
  lemma {:induction false} SteadyView(run: seq<World>, actions: seq<Action>, c: nat, k: nat, id: JobId, source: seq<int>)
    requires IsRun(run, actions) && IsCreatedAt(run, actions, c, id) && c <= k < |run|
    requires forall m :: c <= m <= k ==> IsSteady(run[m], id, source)
    ensures id in run[k].store.jobs && ViewOf(run[k], id) == View(IdSet(source), IdSet(source))
  {
    hide Next, Inv, Init, IsSteady;
    if k == c {
      InvAlways(run, actions, c - 1);
      NewJobSees(run[c - 1], actions[c - 1], run[c], id);
      SteadyAt(run[c], id, source);
    } else {
      SteadyView(run, actions, c, k - 1, id, source);
      InvAlways(run, actions, k - 1);
      SteadyStep(run[k - 1], actions[k - 1], run[k], id, source);
    }
  }

  lemma SteadyAt(s: World, id: JobId, source: seq<int>)
    requires id in s.store.jobs && IsActive(s.store.jobs[id]) && IsSteady(s, id, source)
    ensures JobSource(s, s.store.jobs[id]) == source
  {
  }
}
