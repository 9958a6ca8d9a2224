/** What the library of a user holds while a job of theirs is active: every message the job
    committed, minus what the user deleted since, and those rows alone carry the job's marker. */
module JobLibraries {
  import opened Wrappers
  import opened ScanRows
  import opened TelegramAuth
  import opened ScanTransactions
  import opened StoreRules
  import opened Scanner
  import opened ScanProtocol
  import opened ProtocolInvariant
  import opened Fencing
  import opened SourceViews
  import opened ExactlyOnce

  // ---------- The invariant ----------

  /** Everything an active job committed is in the library, unless the user deleted it since;
      a replacement has marked it. */
  predicate HoldsCommits(id: JobId, j: Job, committed: seq<int>, removed: set<int>, messages: map<Key, Message>) {
    forall t :: t in committed && t !in removed ==>
      LibraryKey(j, t) in messages && (j.replace ==> messages[LibraryKey(j, t)].marker == Some(id))
  }

  /** A row marked by a job is one the job committed and the user did not delete. */
  predicate MarksCommits(id: JobId, j: Job, committed: seq<int>, removed: set<int>, messages: map<Key, Message>) {
    forall k :: k in messages && messages[k].marker == Some(id) ==>
      k == LibraryKey(j, k.tid) && k.tid in committed && k.tid !in removed
  }

  predicate JobLibrary(id: JobId, j: Job, committed: seq<int>, removed: set<int>, messages: map<Key, Message>) {
    && (forall t :: t in removed ==> t in committed)
    && (IsActive(j) ==> HoldsCommits(id, j, committed, removed, messages) && MarksCommits(id, j, committed, removed, messages))
  }

  predicate LibraryFits(s: World) {
    && (forall id :: id in s.store.jobs ==> JobLibrary(id, s.store.jobs[id], Committed(s, id), Removed(s, id), s.store.messages))
    && (forall id :: id in s.removed ==> id in s.store.jobs)
  }

  // ---------- Steps that import nothing ----------

  /** No row appears, and none gets another mark. */
  predicate NoNewMarks(messages: map<Key, Message>, messages': map<Key, Message>) {
    forall k :: k in messages' ==> k in messages && messages'[k].marker in {None, messages[k].marker}
  }

  /** Apart from that, the rows of users with an active job leave the library only by the keys
      deleted, and the marks of an active job stay. */
  predicate KeepsLibrary(jobs: map<JobId, Job>, messages: map<Key, Message>, keys: set<Key>, messages': map<Key, Message>) {
    && NoNewMarks(messages, messages')
    && forall id, k :: id in jobs && IsActive(jobs[id]) && k in messages && k.user == jobs[id].user ==>
         && (k in messages' || k in keys)
         && (k in messages' && messages[k].marker == Some(id) ==> messages'[k].marker == Some(id))
  }

  /** The user deletes messages, locally or, if Telegram accepts it, everywhere. */
  predicate Deletes(s: World, a: Action) {
    a.DeleteLocal? || (a.DeleteRemotely? && DeletesRemotely(s, a.user, a.provenance, a.opens, a.answer))
  }

  /** The keys an action of the user deletes. */
  function Deleted(s: World, a: Action): set<Key> {
    if Deletes(s, a) then set k | k in a.keys && k.user == a.user else {}
  }

  predicate SameJob(j: Job, j': Job) {
    j'.user == j.user && j'.provenance == j.provenance && j'.replace == j.replace && (IsActive(j') ==> IsActive(j))
  }

  lemma JobLibraryStays(id: JobId, j: Job, committed: seq<int>, removed: set<int>, jobs': map<JobId, Job>,
                        messages: map<Key, Message>, keys: set<Key>, messages': map<Key, Message>)
    requires JobLibrary(id, j, committed, removed, messages)
    requires id in jobs' && SameJob(j, jobs'[id]) && KeepsLibrary(jobs', messages, keys, messages')
    requires forall k :: k in keys ==> k !in messages'
    ensures JobLibrary(id, jobs'[id], committed, removed + (set t | t in committed && LibraryKey(j, t) in keys), messages')
  {
  }

  lemma AdministrationKeepsLibrary(s: Store, s': Store, token: Option<Token>)
    requires Administrative(s, s', token)
    ensures KeepsLibrary(s'.jobs, s.messages, {}, s'.messages)
  {
  }

  lemma StillLibrary(jobs: map<JobId, Job>, messages: map<Key, Message>)
    ensures KeepsLibrary(jobs, messages, {}, messages)
  {
  }

  lemma DeletionKeepsLibrary(s: Store, user: UserId, keys: set<Key>)
    ensures var gone := set k | k in keys && k.user == user;
            KeepsLibrary(DeleteMessages(s, user, keys).jobs, s.messages, gone, DeleteMessages(s, user, keys).messages)
            && forall k :: k in gone ==> k !in DeleteMessages(s, user, keys).messages
  {
  }

  /** The only finalization that removes rows ends the only active job of their user. */
  lemma EndSliceKeepsLibrary(s: Store, l: Lease, disposition: Option<(JobState, Reason)>, now: int)
    requires GoodStore(s) && Holds(s, l, now) && LeaseFits(s.jobs[l.job], l)
    requires disposition.Some? ==> AcceptableEnd(s.jobs[l.job], disposition.value.0, Some(disposition.value.1))
    ensures KeepsLibrary(EndSlice(s, l, disposition, now).jobs, s.messages, {}, EndSlice(s, l, disposition, now).messages)
  {
    var s' := EndSlice(s, l, disposition, now);
    EndSliceShrinks(s, l, disposition, now);
    match disposition {
      case None =>
        RequeueKeeps(s, l, now);
        AdministrationKeepsLibrary(s, s', None);
      case Some((state, reason)) =>
        FinalizeKeepsLibrary(s, l, state, Some(reason), now);
    }
  }

  lemma FinalizeKeepsLibrary(s: Store, l: Lease, state: JobState, reason: Option<Reason>, now: int)
    requires GoodStore(s) && Holds(s, l, now) && LeaseFits(s.jobs[l.job], l) && AcceptableEnd(s.jobs[l.job], state, reason)
    ensures KeepsLibrary(Finalize(s, l, state, reason, now).jobs, s.messages, {}, Finalize(s, l, state, reason, now).messages)
  {
  }

  predicate StepKeepsLibrary(s: World, a: Action, s': World) {
    && KeepsLibrary(s'.store.jobs, s.store.messages, Deleted(s, a), s'.store.messages)
    && forall k :: k in Deleted(s, a) ==> k !in s'.store.messages
  }

  lemma FinishKeepsLibrary(s: World, w: WorkerId, decided: int, now: int)
    requires Inv(s) && Slicing(s, w) && WorkerOf(s, w).ending.Some? && WorkerOf(s, w).ending.value.Ended?
    ensures KeepsLibrary(Finish(s, w, decided, now).store.jobs, s.store.messages, {}, Finish(s, w, decided, now).store.messages)
  {
    var v := WorkerOf(s, w);
    SliceFits(s, w);
    if Holds(s.store, v.lease, now) {
      assert GoodJob(s.store.jobs[v.lease.job]);
      EndSliceKeepsLibrary(s.store, v.lease, Disposition(v, decided), now);
    } else {
      StillLibrary(s.store.jobs, s.store.messages);
    }
    hide EndSlice, GoodStore, KeepsLibrary, FreshTokens, WorkersFit, GoodSettings;
  }

  lemma LaunchKeepsLibrary(s: World, a: Action, now: int)
    requires Inv(s) && a.StartScan? && a.id !in s.store.jobs && 0 < a.pageSize
    ensures var store := Launch(s, a.id, a.user, a.pageSize, a.replace, a.opens, a.answer, now).store;
            KeepsLibrary(store.jobs, s.store.messages, {}, store.messages)
  {
    LaunchInserts(s, a, now);
    hide Launch, Inv;
    StillLibrary(Launch(s, a.id, a.user, a.pageSize, a.replace, a.opens, a.answer, now).store.jobs, s.store.messages);
  }

  /** A deletion Telegram refuses deletes nothing locally either. */
  lemma RefusedDeletionAdministers(s: World, a: Action, now: int)
    requires Inv(s) && a.DeleteRemotely? && !DeletesRemotely(s, a.user, a.provenance, a.opens, a.answer)
    ensures var s' := EraseRemotely(s, a.user, a.provenance, a.keys, a.opens, a.answer, now);
            Administrative(s.store, s'.store, None) && s'.removed == s.removed
  {
    hide Apply, Administrative, Forget, GoodJobs, OneActivePerUser, MarkersAreLive, DistinctIds, FreshTokens, WorkersFit, GoodSettings,
         DeleteMessages, OnlyServes, Coherent, GenerationStep;
    if a.user in s.store.connections {
      var effect := DeleteRemote(s.store.connections[a.user], a.provenance, a.opens, a.answer);
      assert GoodConnections(s.store.connections);
      ApplyKeeps(s.store, a.user, effect, now);
    } else {
      StillnessEvolves(s.store);
    }
  }

  /** A deletion Telegram accepts deletes the same locally, and nothing else. */
  lemma AcceptedDeletionDeletes(s: World, a: Action, now: int)
    requires a.DeleteRemotely? && DeletesRemotely(s, a.user, a.provenance, a.opens, a.answer)
    ensures var s' := EraseRemotely(s, a.user, a.provenance, a.keys, a.opens, a.answer, now);
            && s'.store.jobs == s.store.jobs && s'.store.messages == DeleteMessages(s.store, a.user, a.keys).messages
  {
    hide Watch, Without, Forget, OnlyServes, Remember;
  }

  lemma OrganizingKeepsLibrary(s: Store, k: Key, category: nat, tags: set<nat>, content: nat)
    requires k in s.messages
    ensures KeepsLibrary(Recategorize(s, k, category).jobs, s.messages, {}, Recategorize(s, k, category).messages)
    ensures KeepsLibrary(Retag(s, k, tags).jobs, s.messages, {}, Retag(s, k, tags).messages)
    ensures KeepsLibrary(EditText(s, k, content).jobs, s.messages, {}, EditText(s, k, content).messages)
  {
  }

  lemma DeletingKeepsLibrary(s: World, a: Action, s': World)
    requires Inv(s) && Next(s, a, s') && (a.DeleteLocal? || a.DeleteRemotely?)
    ensures StepKeepsLibrary(s, a, s')
  {
    hide Next, Inv, Administrative, KeepsLibrary, EraseRemotely, DeleteMessages, DeletesRemotely;
    DeletionIs(s, a, s');
    if Deletes(s, a) {
      DeletionKeepsLibrary(s.store, a.user, a.keys);
      if a.DeleteRemotely? { AcceptedDeletionDeletes(s, a, s'.clock); }
      DeletionKeepsJobs(s.store, a.user, a.keys);
    } else {
      RefusedDeletionAdministers(s, a, s'.clock);
      AdministrationKeepsLibrary(s.store, s'.store, None);
    }
  }

  lemma DeletionKeepsJobs(s: Store, user: UserId, keys: set<Key>)
    ensures DeleteMessages(s, user, keys).jobs == s.jobs
  {
  }

  /** Every step that persists no page. */
  lemma QuietStepKeepsLibrary(s: World, a: Action, s': World)
    requires Inv(s) && Next(s, a, s') && !Persists(s, a, s'.clock)
    ensures StepKeepsLibrary(s, a, s')
  {
    hide Next, Inv, Administrative, KeepsLibrary, Persists, Deletes, RowsEvolve, KeepsOrganization;
    if TouchesLibrary(a) {
      LibraryActionKeepsLibrary(s, a, s');
    } else {
      InvStep(s, a, s');
      AdministrationKeepsLibrary(s.store, s'.store, ClaimToken(a));
      OthersDeleteNothing(s, a);
    }
  }

  lemma OthersDeleteNothing(s: World, a: Action)
    requires !a.DeleteLocal? && !a.DeleteRemotely?
    ensures Deleted(s, a) == {}
  {
  }

  lemma LibraryActionKeepsLibrary(s: World, a: Action, s': World)
    requires Inv(s) && Next(s, a, s') && !Persists(s, a, s'.clock) && TouchesLibrary(a)
    ensures StepKeepsLibrary(s, a, s')
  {
    hide Next, Inv, KeepsLibrary, Persists, Finish, Launch, Recategorize, Retag, EditText, Deletes, Deleted;
    if !a.DeleteLocal? && !a.DeleteRemotely? { OthersDeleteNothing(s, a); }
    match a {
      case StartScan(_, _, _, _, _, _) => LaunchIs(s, a, s'); LaunchKeepsLibrary(s, a, s'.clock);
      case DeleteLocal(_, _) => DeletingKeepsLibrary(s, a, s');
      case DeleteRemotely(_, _, _, _, _) => DeletingKeepsLibrary(s, a, s');
      case SetCategory(k, category) => OrganizingIs(s, a, s'); OrganizingKeepsLibrary(s.store, k, category, {}, 0);
      case SetTags(k, tags) => OrganizingIs(s, a, s'); OrganizingKeepsLibrary(s.store, k, 0, tags, 0);
      case EditContent(k, content) => OrganizingIs(s, a, s'); OrganizingKeepsLibrary(s.store, k, 0, {}, content);
      case CommitPage(_, _, _) => UnpersistedCommitIs(s, a, s'); StillLibrary(s'.store.jobs, s.store.messages);
      case FinishSlice(w, decided) => FinishIs(s, a, s'); FinishKeepsLibrary(s, w, decided, s'.clock);
      case _ =>
    }
  }

  // ---------- The invariant over a step ----------

  lemma RemovedStays(s: World, a: Action, s': World)
    requires Next(s, a, s')
    ensures s'.removed == if Deletes(s, a) then Forget(s, a.user, a.keys) else s.removed
  {
    hide CreateJob, Serve, DeleteMessages, CancelStale, Stop, Recategorize, Retag, Remember, Forget, DoWorker, DeleteEverywhere,
         DeletesRemotely, FirstView, Relist, Plausible, EditText;
    if IsUserAction(a) { RelistingForgetsNothing(s, a); }
  }

  lemma RelistingForgetsNothing(s: World, a: Action)
    ensures a.TelegramChanges? ==> Relist(s, a.principal, a.ids).removed == s.removed
  {
    hide Watch;
  }

  lemma ActiveJobRemembersDeletions(s: World, a: Action, s': World, id: JobId)
    requires id in s.store.jobs && IsActive(s.store.jobs[id])
    requires s'.removed == if Deletes(s, a) then Forget(s, a.user, a.keys) else s.removed
    ensures Removed(s', id) == Removed(s, id) + (set t | t in Committed(s, id) && LibraryKey(s.store.jobs[id], t) in Deleted(s, a))
  {
    var gone := set t | t in Committed(s, id) && LibraryKey(s.store.jobs[id], t) in Deleted(s, a);
    if Deletes(s, a) && s.store.jobs[id].user == a.user {
      assert gone == set t | t in Committed(s, id) && LibraryKey(s.store.jobs[id], t) in a.keys;
    } else {
      assert gone == {};
    }
  }

  /** What becomes of one job's library in a step without an import. */
  lemma OldJobKeepsLibrary(s: World, a: Action, s': World, id: JobId)
    requires LibraryFits(s) && id in s.store.jobs && id in s'.store.jobs && SameJob(s.store.jobs[id], s'.store.jobs[id])
    requires StepKeepsLibrary(s, a, s') && s'.committed == s.committed
    requires s'.removed == if Deletes(s, a) then Forget(s, a.user, a.keys) else s.removed
    ensures JobLibrary(id, s'.store.jobs[id], Committed(s', id), Removed(s', id), s'.store.messages)
  {
    var j, committed, removed := s.store.jobs[id], Committed(s, id), Removed(s, id);
    assert JobLibrary(id, j, committed, removed, s.store.messages);
    if IsActive(j) {
      hide JobLibrary, KeepsLibrary, LibraryFits, Forget, Deleted, Removed, LibraryKey;
      JobLibraryStays(id, j, committed, removed, s'.store.jobs, s.store.messages, Deleted(s, a), s'.store.messages);
      ActiveJobRemembersDeletions(s, a, s', id);
    }
  }

  lemma NewJobHasNoLibrary(s: World, s': World, id: JobId)
    requires MarkersAreLive(s.store.jobs, s.store.messages) && NoNewMarks(s.store.messages, s'.store.messages)
    requires id !in s.store.jobs && id in s'.store.jobs && Committed(s', id) == [] && Removed(s', id) == {}
    ensures JobLibrary(id, s'.store.jobs[id], Committed(s', id), Removed(s', id), s'.store.messages)
  {
    forall k | k in s'.store.messages ensures s'.store.messages[k].marker != Some(id) {
      assert k in s.store.messages;
    }
  }

  lemma QuietStepFits(s: World, a: Action, s': World)
    requires Inv(s) && JobsImported(s) && LibraryFits(s) && Next(s, a, s') && !Persists(s, a, s'.clock)
    ensures LibraryFits(s')
  {
    hide Next, Inv, Persists, JobLibrary, JobsImported, MarkersAreLive, StepKeepsLibrary, SameJob, Deletes, Forget, Committed;
    QuietStepKeepsLibrary(s, a, s');
    StepCommitsNothing(s, a, s');
    RemovedStays(s, a, s');
    JobsStay(s, a, s');
    RemovedKeysStay(s, a, s');
    forall id | id in s'.store.jobs
      ensures JobLibrary(id, s'.store.jobs[id], Committed(s', id), Removed(s', id), s'.store.messages)
    {
      if id in s.store.jobs { OldJobKeepsLibrary(s, a, s', id); }
      else { NewJobStarts(s, a, s', id); }
    }
  }

  lemma JobsStay(s: World, a: Action, s': World)
    requires Inv(s) && Next(s, a, s')
    ensures forall id :: id in s.store.jobs ==> id in s'.store.jobs && SameJob(s.store.jobs[id], s'.store.jobs[id])
  {
    hide Next, Inv, KeepsOrganization, Administrative;
    InvStep(s, a, s');
  }

  lemma RemovedKeysStay(s: World, a: Action, s': World)
    requires Inv(s) && Next(s, a, s') && forall id :: id in s.removed ==> id in s.store.jobs
    ensures forall id :: id in s'.removed ==> id in s'.store.jobs
  {
    hide Next, Inv, Deletes, SameJob;
    RemovedStays(s, a, s');
    JobsStay(s, a, s');
  }

  lemma NewJobStarts(s: World, a: Action, s': World, id: JobId)
    requires Inv(s) && LibraryFits(s) && StepKeepsLibrary(s, a, s') && s'.committed == s.committed
    requires JobsImported(s)
    requires s'.removed == if Deletes(s, a) then Forget(s, a.user, a.keys) else s.removed
    requires id !in s.store.jobs && id in s'.store.jobs
    ensures JobLibrary(id, s'.store.jobs[id], Committed(s', id), Removed(s', id), s'.store.messages)
  {
    assert MarkersAreLive(s.store.jobs, s.store.messages);
    hide Inv, GoodStore, MarkersAreLive, JobLibrary, Deletes, HasImported, NoNewMarks;
    NewJobHasNoLibrary(s, s', id);
  }

  /** An import of ids the job has not committed yet extends the job's library by them. */
  lemma ImportExtendsLibrary(j: Job, l: Lease, committed: seq<int>, removed: set<int>, t: Table, page: seq<Scanned>, t': Table)
    requires JobLibrary(l.job, j, committed, removed, t.rows)
    requires LeaseFits(j, l) && Imports(t, l, PageKeys(l, page), t')
    requires forall x :: x in Ids(page) ==> x !in committed
    ensures JobLibrary(l.job, j, committed + Ids(page), removed, t'.rows)
  {
    forall x | x in Ids(page) ensures LibraryKey(j, x) in PageKeys(l, page) {
      var i :| 0 <= i < |page| && page[i].tid == x;
      assert KeyOf(l, page[i].tid) == LibraryKey(j, x);
    }
    forall k | k in PageKeys(l, page) ensures k.tid in Ids(page) && k == LibraryKey(j, k.tid) {
      var i :| 0 <= i < |page| && KeyOf(l, page[i].tid) == k;
      assert Ids(page)[i] == k.tid;
    }
    hide PageKeys, Ids;
    if IsActive(j) {
      assert HoldsCommits(l.job, j, committed, removed, t.rows) && MarksCommits(l.job, j, committed, removed, t.rows);
      assert HoldsCommits(l.job, j, committed + Ids(page), removed, t'.rows);
    }
  }

  /** The import leaves the libraries of other users alone. */
  lemma ImportKeepsOtherLibraries(id: JobId, j: Job, l: Lease, committed: seq<int>, removed: set<int>, t: Table, keys: set<Key>, t': Table)
    requires JobLibrary(id, j, committed, removed, t.rows) && (IsActive(j) ==> j.user != l.user) && id != l.job
    requires Imports(t, l, keys, t') && forall k :: k in keys ==> k.user == l.user
    ensures JobLibrary(id, j, committed, removed, t'.rows)
  {
  }

  /** What an answer below the last committed id holds was not committed before. */
  lemma AnswerIsNew(committed: seq<int>, view: View, raw: seq<Scanned>, limit: nat, page: seq<Scanned>)
    requires IsImport(committed, 0, view) && IsAnswer(Ids(raw), view, Resume(committed, 0), limit) && page <= raw
    ensures forall x :: x in Ids(page) ==> x !in committed
  {
    forall x | x in Ids(page) ensures x !in committed {
      var i :| 0 <= i < |page| && page[i].tid == x;
      assert Ids(raw)[i] == x && x in Ids(raw);
    }
  }

  /** What a persisted page imports. */
  lemma CommitImports(s: World, w: WorkerId, raw: seq<Scanned>, keep: nat, now: int)
    requires Inv(s) && MayFetch(WorkerOf(s, w)) && keep <= |BuildPage(raw, Capacity(WorkerOf(s, w))).messages|
    requires PersistsPage(s, w, raw, keep, now)
    ensures var l, page, s' := WorkerOf(s, w).lease, PageFor(WorkerOf(s, w), raw, keep), Commit(s, w, raw, keep, now);
            && l.job in s.store.jobs && s.store.jobs[l.job].owner == Some(l.owner) && LeaseFits(s.store.jobs[l.job], l)
            && Imports(Table(s.store.messages, s.store.nextMessage), l, PageKeys(l, page.messages),
                       Table(s'.store.messages, s'.store.nextMessage))
            && s'.removed == s.removed
  {
    SliceFits(s, w);
    assert DistinctIds(s.store.messages, s.store.nextMessage);
    UpsertAllImports(Table(s.store.messages, s.store.nextMessage), WorkerOf(s, w).lease, PageFor(WorkerOf(s, w), raw, keep).messages);
    hide GoodStore, FreshTokens, WorkersFit, BuildPage, CutPage, UpsertAll, Imports, ConnectionMatches, RepeatsNewMessage, AfterPage;
  }

  lemma CommitKeepsOtherLibraries(s: World, w: WorkerId, raw: seq<Scanned>, keep: nat, now: int, id: JobId)
    requires Inv(s) && LibraryFits(s) && MayFetch(WorkerOf(s, w)) && keep <= |BuildPage(raw, Capacity(WorkerOf(s, w))).messages|
    requires PersistsPage(s, w, raw, keep, now) && id in s.store.jobs && id != WorkerOf(s, w).lease.job
    ensures JobLibrary(id, s.store.jobs[id], Committed(s, id), Removed(s, id), Commit(s, w, raw, keep, now).store.messages)
  {
    var l, page, s' := WorkerOf(s, w).lease, PageFor(WorkerOf(s, w), raw, keep), Commit(s, w, raw, keep, now);
    CommitImports(s, w, raw, keep, now);
    assert GoodJob(s.store.jobs[l.job]) && OneActivePerUser(s.store.jobs);
    assert JobLibrary(id, s.store.jobs[id], Committed(s, id), Removed(s, id), s.store.messages);
    hide Inv, GoodStore, LibraryFits, Commit, BuildPage, PersistsPage, JobLibrary, Imports;
    ImportKeepsOtherLibraries(id, s.store.jobs[id], l, Committed(s, id), Removed(s, id),
                              Table(s.store.messages, s.store.nextMessage), PageKeys(l, page.messages),
                              Table(s'.store.messages, s'.store.nextMessage));
  }

  lemma CommitExtendsLibrary(s: World, w: WorkerId, raw: seq<Scanned>, keep: nat, now: int)
    requires Inv(s) && ImportInv(s) && LibraryFits(s) && MayFetch(WorkerOf(s, w))
    requires keep <= |BuildPage(raw, Capacity(WorkerOf(s, w))).messages|
    requires var v := WorkerOf(s, w); OwnsJob(s, v) ==> IsAnswer(Ids(raw), ViewOf(s, v.lease.job), v.offset, Capacity(v) + 1)
    requires PersistsPage(s, w, raw, keep, now)
    ensures var id, page := WorkerOf(s, w).lease.job, PageFor(WorkerOf(s, w), raw, keep);
            id in s.store.jobs
            && JobLibrary(id, s.store.jobs[id], Committed(s, id) + Ids(page.messages), Removed(s, id), Commit(s, w, raw, keep, now).store.messages)
  {
    var v, page, s' := WorkerOf(s, w), PageFor(WorkerOf(s, w), raw, keep), Commit(s, w, raw, keep, now);
    var id := v.lease.job;
    CommitImports(s, w, raw, keep, now);
    assert JobLibrary(id, s.store.jobs[id], Committed(s, id), Removed(s, id), s.store.messages);
    hide Inv, ImportInv, LibraryFits, Commit, BuildPage, PersistsPage, JobLibrary, Imports, IsAnswer, IsImport;
    OwnerResumes(s, w);
    PageIsPrefix(v, raw, keep);
    AnswerIsNew(Committed(s, id), ViewOf(s, id), raw, Capacity(v) + 1, page.messages);
    ImportExtendsLibrary(s.store.jobs[id], v.lease, Committed(s, id), Removed(s, id),
                         Table(s.store.messages, s.store.nextMessage), page.messages,
                         Table(s'.store.messages, s'.store.nextMessage));
  }

  lemma PageIsPrefix(v: Worker, raw: seq<Scanned>, keep: nat)
    requires MayFetch(v) && keep <= |BuildPage(raw, Capacity(v)).messages|
    ensures PageFor(v, raw, keep).messages <= raw
  {
  }

  lemma CommitFitsJob(s: World, w: WorkerId, raw: seq<Scanned>, keep: nat, now: int, id: JobId)
    requires Inv(s) && ImportInv(s) && LibraryFits(s) && MayFetch(WorkerOf(s, w))
    requires keep <= |BuildPage(raw, Capacity(WorkerOf(s, w))).messages|
    requires var v := WorkerOf(s, w); OwnsJob(s, v) ==> IsAnswer(Ids(raw), ViewOf(s, v.lease.job), v.offset, Capacity(v) + 1)
    requires PersistsPage(s, w, raw, keep, now) && id in Commit(s, w, raw, keep, now).store.jobs
    ensures var s' := Commit(s, w, raw, keep, now);
            JobLibrary(id, s'.store.jobs[id], Committed(s', id), Removed(s', id), s'.store.messages)
            && id in s.store.jobs && s'.removed == s.removed
  {
    hide Inv, ImportInv, LibraryFits, Commit, BuildPage, CutPage, PersistsPage, JobLibrary, Imports, AfterPage, Ids, IsAnswer;
    var page, s' := PageFor(WorkerOf(s, w), raw, keep), Commit(s, w, raw, keep, now);
    CommitAdvances(s, w, raw, keep, now);
    if id == WorkerOf(s, w).lease.job {
      CommitExtendsLibrary(s, w, raw, keep, now);
      SameJobSameLibrary(id, s.store.jobs[id], s'.store.jobs[id], Committed(s, id) + Ids(page.messages), Removed(s, id), s'.store.messages);
    } else {
      CommitKeepsOtherLibraries(s, w, raw, keep, now, id);
    }
  }

  lemma CommitStepFits(s: World, w: WorkerId, raw: seq<Scanned>, keep: nat, now: int)
    requires Inv(s) && ImportInv(s) && LibraryFits(s) && MayFetch(WorkerOf(s, w))
    requires keep <= |BuildPage(raw, Capacity(WorkerOf(s, w))).messages|
    requires var v := WorkerOf(s, w); OwnsJob(s, v) ==> IsAnswer(Ids(raw), ViewOf(s, v.lease.job), v.offset, Capacity(v) + 1)
    requires PersistsPage(s, w, raw, keep, now)
    ensures LibraryFits(Commit(s, w, raw, keep, now))
  {
    hide Inv, ImportInv, Commit, BuildPage, CutPage, PersistsPage, JobLibrary, AfterPage, Ids, IsAnswer;
    var s' := Commit(s, w, raw, keep, now);
    CommitAdvances(s, w, raw, keep, now);
    assert s'.removed == s.removed;
    forall id | id in s'.store.jobs
      ensures JobLibrary(id, s'.store.jobs[id], Committed(s', id), Removed(s', id), s'.store.messages)
    {
      CommitFitsJob(s, w, raw, keep, now, id);
    }
  }

  lemma SameJobSameLibrary(id: JobId, j: Job, j': Job, committed: seq<int>, removed: set<int>, messages: map<Key, Message>)
    requires JobLibrary(id, j, committed, removed, messages) && SameJob(j, j')
    ensures JobLibrary(id, j', committed, removed, messages)
  {
  }

  lemma LibraryStep(s: World, a: Action, s': World)
    requires Inv(s) && ImportInv(s) && LibraryFits(s) && Next(s, a, s') && Honest(s, a)
    ensures LibraryFits(s')
  {
    hide Next, Inv, JobsImported, LibraryFits, Commit, BuildPage, PersistsPage, IsAnswer, ExhaustionIsTrue;
    assert JobsImported(s);
    hide ImportInv;
    if Persists(s, a, s'.clock) {
      CommitIs(s, a, s');
      CommitStepFits(s, a.w, a.raw, a.keep, s'.clock);
      LibraryIgnoresClock(Commit(s, a.w, a.raw, a.keep, s'.clock), s'.clock);
    } else {
      QuietStepFits(s, a, s');
    }
  }

  lemma LibraryIgnoresClock(s: World, now: int)
    requires LibraryFits(s)
    ensures LibraryFits(s.(clock := now))
  {
    hide JobLibrary;
    var s' := s.(clock := now);
    forall id | id in s'.store.jobs
      ensures JobLibrary(id, s'.store.jobs[id], Committed(s', id), Removed(s', id), s'.store.messages)
    {
      assert JobLibrary(id, s.store.jobs[id], Committed(s, id), Removed(s, id), s.store.messages);
    }
  }

  lemma LibraryStarts(s: World)
    requires Init(s)
    ensures LibraryFits(s)
  {
  }

  lemma {:induction false} LibraryAlways(run: seq<World>, actions: seq<Action>, i: nat)
    requires IsHonestRun(run, actions) && i < |run|
    ensures LibraryFits(run[i])
  {
    hide Next, Inv, Init, Honest, ImportInv, LibraryFits;
    if i == 0 {
      LibraryStarts(run[0]);
    } else {
      LibraryAlways(run, actions, i - 1);
      InvAlways(run, actions, i - 1);
      ImportAlways(run, actions, i - 1);
      LibraryStep(run[i - 1], actions[i - 1], run[i]);
    }
  }
}
