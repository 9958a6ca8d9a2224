/** When a deletion sticks. A row is in the library exactly if it was there, or came with a
    persisted page, and was not removed since. So a deleted message comes back exactly with a page
    that holds it: never, if Telegram answers promptly; otherwise only through a job that was under
    way when the message was deleted and had not committed it yet. */
module Deletions {
  import opened Wrappers
  import opened ScanRows
  import opened TelegramAuth
  import opened ScanTransactions
  import opened StoreRules
  import opened Scanner
  import opened ScanProtocol
  import opened ProtocolInvariant
  import opened ScanSafety
  import opened Fencing
  import opened SourceViews
  import opened ExactlyOnce
  import opened JobLibraries
  import opened Organization
  import opened Replacement

  // ---------- One row through one step ----------

  predicate SweepsAway(s: World, a: Action, now: int, k: Key) {
    && IsSweep(s, a, now) && k.user == WorkerOf(s, a.w).lease.user
    && k in s.store.messages && s.store.messages[k].marker != Some(WorkerOf(s, a.w).lease.job)
  }

  /** The user deletes the row, or a replacement that found the source exhausted sweeps it away. */
  predicate RemovesRow(s: World, a: Action, now: int, k: Key) { k in Deleted(s, a) || SweepsAway(s, a, now, k) }

  lemma DeletingRemoves(s: World, a: Action, s': World, k: Key)
    requires Inv(s) && Next(s, a, s') && (a.DeleteLocal? || a.DeleteRemotely?)
    ensures k in s'.store.messages <==> k in s.store.messages && k !in Deleted(s, a)
  {
    hide Next, Inv, EraseRemotely, DeletesRemotely, Evolves, KeepsLiveMarkers, Forget;
    DeletionIs(s, a, s');
    if a.DeleteRemotely? {
      if DeletesRemotely(s, a.user, a.provenance, a.opens, a.answer) {
        AcceptedDeletionDeletes(s, a, s'.clock);
      } else {
        RefusedDeletionAdministers(s, a, s'.clock);
      }
    }
  }

  lemma FinishingRemoves(s: World, a: Action, s': World, k: Key)
    requires Inv(s) && Next(s, a, s') && a.FinishSlice?
    ensures k in s'.store.messages <==> k in s.store.messages && !SweepsAway(s, a, s'.clock, k)
  {
    hide Next, Inv, Finish, Shrinks, Disposition, Holds;
    FinishIs(s, a, s');
    FinishShrinks(s, a.w, a.decided, s'.clock);
  }

  lemma CommittingImports(s: World, a: Action, s': World, k: Key)
    requires Inv(s) && Next(s, a, s') && a.CommitPage?
    ensures k in s'.store.messages <==> k in s.store.messages || ImportsRow(s, a, s'.clock, k)
  {
    hide Next, Inv, Persists, Commit, BuildPage, PersistsPage, PageKeys, KeepsOrganization;
    if Persists(s, a, s'.clock) {
      PersistsIs(s, a, s'.clock);
      CommitIs(s, a, s');
      CommitImports(s, a.w, a.raw, a.keep, s'.clock);
    } else {
      UnpersistedCommitIs(s, a, s');
    }
  }

  lemma OthersNeitherImportNorRemove(s: World, a: Action, s': World, k: Key)
    requires Inv(s) && Next(s, a, s') && !a.CommitPage? && !a.FinishSlice? && !a.DeleteLocal? && !a.DeleteRemotely?
    ensures k in s'.store.messages <==> k in s.store.messages
  {
    hide Next, Inv, Shrinks;
    NothingElseAppears(s, a, s');
    NothingElseImports(s, a, s');
  }

  /** A row is in the library after a step exactly if the step imports it, or it was there and the
      step does not remove it. */
  lemma RowAfterStep(s: World, a: Action, s': World, k: Key)
    requires Inv(s) && Next(s, a, s')
    ensures k in s'.store.messages <==> ImportsRow(s, a, s'.clock, k) || (k in s.store.messages && !RemovesRow(s, a, s'.clock, k))
    ensures !(ImportsRow(s, a, s'.clock, k) && RemovesRow(s, a, s'.clock, k))
  {
    ImportsOrRemoves(s, a, s'.clock, k);
    hide Next, Inv, ImportsRow, Deleted, SweepsAway;
    if a.CommitPage? { CommittingImports(s, a, s', k); }
    else if a.FinishSlice? { FinishingRemoves(s, a, s', k); }
    else if a.DeleteLocal? || a.DeleteRemotely? { DeletingRemoves(s, a, s', k); }
    else { OthersNeitherImportNorRemove(s, a, s', k); }
  }

  lemma ImportsOrRemoves(s: World, a: Action, now: int, k: Key)
    ensures ImportsRow(s, a, now, k) ==> a.CommitPage?
    ensures k in Deleted(s, a) ==> a.DeleteLocal? || a.DeleteRemotely?
    ensures SweepsAway(s, a, now, k) ==> a.FinishSlice?
  {
    hide PageKeys, PersistsPage, BuildPage, DeletesRemotely, Holds, Disposition;
  }

  // ---------- One row through a stretch of a run ----------

  predicate ImportsAt(run: seq<World>, actions: seq<Action>, n: nat, k: Key)
    requires n < |actions| < |run|
  {
    ImportsRow(run[n], actions[n], run[n + 1].clock, k)
  }

  predicate RemovesAt(run: seq<World>, actions: seq<Action>, n: nat, k: Key)
    requires n < |actions| < |run|
  {
    RemovesRow(run[n], actions[n], run[n + 1].clock, k)
  }

  /** Step `n` imports the row, and nothing removes it before `m`. */
  predicate ImportedForGood(run: seq<World>, actions: seq<Action>, n: nat, m: nat, k: Key)
    requires n < m <= |actions| < |run|
  {
    ImportsAt(run, actions, n, k) && forall q :: n < q < m ==> !RemovesAt(run, actions, q, k)
  }

  predicate Kept(run: seq<World>, actions: seq<Action>, i: nat, m: nat, k: Key)
    requires i <= m <= |actions| < |run|
  {
    forall q :: i <= q < m ==> !RemovesAt(run, actions, q, k)
  }

  predicate Returned(run: seq<World>, actions: seq<Action>, i: nat, m: nat, k: Key)
    requires i <= m <= |actions| < |run|
  {
    exists n :: i <= n < m && ImportedForGood(run, actions, n, m, k)
  }

  lemma OneStepMore(run: seq<World>, actions: seq<Action>, i: nat, m: nat, k: Key)
    requires i < m <= |actions| < |run|
    ensures Kept(run, actions, i, m, k) <==> Kept(run, actions, i, m - 1, k) && !RemovesAt(run, actions, m - 1, k)
    ensures Returned(run, actions, i, m, k) <==>
              ImportsAt(run, actions, m - 1, k) || (Returned(run, actions, i, m - 1, k) && !RemovesAt(run, actions, m - 1, k))
  {
    hide ImportsAt, RemovesAt;
    if Returned(run, actions, i, m, k) && !ImportsAt(run, actions, m - 1, k) {
      var n :| i <= n < m && ImportedForGood(run, actions, n, m, k);
      assert ImportedForGood(run, actions, n, m - 1, k);
    }
    if Returned(run, actions, i, m - 1, k) && !RemovesAt(run, actions, m - 1, k) {
      var n :| i <= n < m - 1 && ImportedForGood(run, actions, n, m - 1, k);
      assert ImportedForGood(run, actions, n, m, k);
    }
    if ImportsAt(run, actions, m - 1, k) { assert ImportedForGood(run, actions, m - 1, m, k); }
  }

  /** Over any stretch of any run a row is in the library at the end exactly if it was there at the
      beginning and was not removed since, or a page imported it and it was not removed since. */
  lemma {:induction false} LibraryIsHistory(run: seq<World>, actions: seq<Action>, i: nat, m: nat, k: Key)
    requires IsRun(run, actions) && i <= m < |run|
    ensures k in run[m].store.messages <==>
              (k in run[i].store.messages && Kept(run, actions, i, m, k)) || Returned(run, actions, i, m, k)
  {
    hide Next, Inv, Init, ImportsRow, RemovesRow, Kept, Returned;
    if i == m {
      NothingHappensAtOnce(run, actions, i, k);
    } else {
      LibraryIsHistory(run, actions, i, m - 1, k);
      InvAlways(run, actions, m - 1);
      RowAfterStep(run[m - 1], actions[m - 1], run[m], k);
      OneStepMore(run, actions, i, m, k);
    }
  }

  lemma NothingHappensAtOnce(run: seq<World>, actions: seq<Action>, i: nat, k: Key)
    requires i <= |actions| < |run|
    ensures Kept(run, actions, i, i, k) && !Returned(run, actions, i, i, k)
  {
  }

  /** A deletion sticks exactly as long as no page with the message is persisted: a row that is
      removed, and not removed again, is back exactly if some later page held its message. */
  lemma RemovedRowsReturnWithPages(run: seq<World>, actions: seq<Action>, i: nat, m: nat, k: Key)
    requires IsRun(run, actions) && i < m < |run| && RemovesAt(run, actions, i, k)
    requires forall q :: i < q < m ==> !RemovesAt(run, actions, q, k)
    ensures k in run[m].store.messages <==> exists n :: i < n < m && ImportsAt(run, actions, n, k)
  {
    hide Next, Inv, Init, ImportsRow, RemovesRow;
    LibraryIsHistory(run, actions, i + 1, m, k);
    InvAlways(run, actions, i);
    RowAfterStep(run[i], actions[i], run[i + 1], k);
    forall n | i < n < m && ImportsAt(run, actions, n, k) ensures ImportedForGood(run, actions, n, m, k) {}
  }

  // ---------- Prompt answers ----------

  predicate IsListed(s: World, k: Key) { k.principal.Some? && k.tid in Source(s, k.principal.value) }

  lemma PromptImportsAreListed(s: World, a: Action, now: int, k: Key)
    requires Inv(s) && Prompt(s, a) && ImportsRow(s, a, now, k)
    ensures IsListed(s, k)
  {
    hide Prompt, BuildPage, PersistsPage;
    var v := WorkerOf(s, a.w);
    FetchedIsListed(s, a);
    SliceFits(s, a.w);
    PageKeysAreIds(v.lease, PageFor(v, a.raw, a.keep).messages, k);
    hide GoodStore, FreshTokens, WorkersFit, PageKeys;
  }

  /** If Telegram answers promptly, a message that is neither in the library nor listed does not
      come back as long as it is not listed: deleting it everywhere is final. */
  lemma PromptDeletionsStick(run: seq<World>, actions: seq<Action>, i: nat, m: nat, k: Key)
    requires IsPromptRun(run, actions) && i <= m < |run| && k !in run[i].store.messages
    requires forall n :: i <= n < m ==> !IsListed(run[n], k)
    ensures k !in run[m].store.messages
  {
    hide Next, Inv, Init, Prompt, ImportsRow, RemovesRow, IsListed;
    LibraryIsHistory(run, actions, i, m, k);
    forall n | i <= n < m ensures !ImportsAt(run, actions, n, k) {
      InvAlways(run, actions, n);
      if ImportsAt(run, actions, n, k) { PromptImportsAreListed(run[n], actions[n], run[n + 1].clock, k); }
    }
  }

  // ---------- Honest answers ----------

  /** Job `id` is under way for the row's user and account and has not committed its message. */
  predicate IsOpenFor(s: World, id: JobId, k: Key) {
    id in s.store.jobs && IsActive(s.store.jobs[id]) && k == LibraryKey(s.store.jobs[id], k.tid) && k.principal.Some?
    && k.tid !in Committed(s, id)
  }

  /** An honest page imports messages its job is open for, and has seen. */
  lemma HonestImportsAreOpen(s: World, a: Action, now: int, k: Key) returns (id: JobId)
    requires Inv(s) && ImportInv(s) && Honest(s, a) && ImportsRow(s, a, now, k)
    ensures CommitJob(s, a) == Some(id) && IsOpenFor(s, id, k) && k.tid in ViewOf(s, id).ever
  {
    hide Inv, ImportInv, BuildPage, CutPage, PersistsPage, PageKeys, IsImport, IsAnswer, Committed, ViewOf;
    PersistingOwns(s, a, now);
    var v := WorkerOf(s, a.w);
    id := v.lease.job;
    OwnerResumes(s, a.w);
    var page := PageFor(v, a.raw, a.keep).messages;
    PageKeysAreIds(v.lease, page, k);
    PageIsPrefix(v, a.raw, a.keep);
    AnswerIsNew(Committed(s, v.lease.job), ViewOf(s, v.lease.job), a.raw, Capacity(v) + 1, page);
    AnswersWereListed(Ids(a.raw), ViewOf(s, v.lease.job), v.offset, Capacity(v) + 1, a.raw, page, k.tid);
  }

  lemma AnswersWereListed(ids: seq<int>, view: View, offset: int, limit: nat, raw: seq<Scanned>, page: seq<Scanned>, t: int)
    requires IsAnswer(ids, view, offset, limit) && ids == Ids(raw) && page <= raw && t in Ids(page)
    ensures t in view.ever
  {
    var i :| 0 <= i < |page| && page[i].tid == t;
    assert ids[i] == t;
  }

  lemma PersistingOwns(s: World, a: Action, now: int)
    requires Inv(s) && Persists(s, a, now)
    ensures var v := WorkerOf(s, a.w);
            && OwnsJob(s, v) && MayFetch(v) && IsActive(s.store.jobs[v.lease.job])
            && s.store.jobs[v.lease.job].user == v.lease.user && s.store.jobs[v.lease.job].provenance == Some(v.lease.provenance)
  {
    hide BuildPage, CutPage, RepeatsNewMessage, ConnectionMatches;
    assert GoodStore(s.store) && WorkersFit(s);
    hide Inv, GoodStore, FreshTokens, WorkersFit;
  }

  /** A message that is not listed from `i` on is imported then only by a job that was under way
      in `i`, had not committed it, and had seen it listed before. */
  lemma UnlistedImportsAreStale(run: seq<World>, actions: seq<Action>, i: nat, n: nat, k: Key) returns (id: JobId)
    requires IsHonestRun(run, actions) && i <= n < |actions| && ImportsAt(run, actions, n, k)
    requires forall q :: i <= q <= n ==> !IsListed(run[q], k)
    ensures CommitJob(run[n], actions[n]) == Some(id) && id in run[i].store.jobs && IsOpenFor(run[i], id, k)
    ensures exists q :: 0 <= q < i && Lists(run[q], id, k.tid)
  {
    hide Next, Inv, Init, Honest, ImportInv, ImportsRow, IsListed, Lists, Lacks, IsOpenFor, CommitJob;
    InvAlways(run, actions, n);
    ImportAlways(run, actions, n);
    id := HonestImportsAreOpen(run[n], actions[n], run[n + 1].clock, k);
    OpenJobsAreBound(run[n], id, k);
    var c := BoundJobsWereCreated(run, actions, n, id);
    ViewIsHistory(run, actions, c, n, id, k.tid);
    var q :| c <= q <= n && Lists(run[q], id, k.tid);
    JobsOnlyMoveForward(run, actions, c, q, id);
    JobKeepsAccount(run, actions, q, n, id, k);
    if i <= q {
      ListedIsListed(run[q], id, k);
      assert false;
    }
    JobsOnlyMoveForward(run, actions, q, i, id);
    JobKeepsAccount(run, actions, i, n, id, k);
    CommitsOnlyGrow(run, actions, i, n, id);
    StillOpen(run[i], run[n], id, k);
  }

  lemma OpenJobsAreBound(s: World, id: JobId, k: Key)
    requires IsOpenFor(s, id, k)
    ensures id in s.store.jobs && s.store.jobs[id].provenance.Some?
  {
  }

  lemma ListedIsListed(s: World, id: JobId, k: Key)
    requires Lists(s, id, k.tid) && s.store.jobs[id].provenance.Some? && k == LibraryKey(s.store.jobs[id], k.tid)
    ensures IsListed(s, k)
  {
  }

  lemma StillOpen(s: World, s': World, id: JobId, k: Key)
    requires IsOpenFor(s', id, k) && Committed(s, id) <= Committed(s', id)
    requires id in s.store.jobs && IsActive(s.store.jobs[id]) && k == LibraryKey(s.store.jobs[id], k.tid)
    ensures IsOpenFor(s, id, k)
  {
  }

  /** A job that is open in `n` was active before, with the same account. */
  lemma JobKeepsAccount(run: seq<World>, actions: seq<Action>, q: nat, n: nat, id: JobId, k: Key)
    requires IsRun(run, actions) && q <= n < |run| && IsOpenFor(run[n], id, k) && id in run[q].store.jobs
    ensures IsActive(run[q].store.jobs[id]) && k == LibraryKey(run[q].store.jobs[id], k.tid)
    ensures run[q].store.jobs[id].provenance == run[n].store.jobs[id].provenance
  {
    hide Next, Inv, Init;
    JobsOnlyMoveForward(run, actions, q, n, id);
  }

  /** With honest answers, too, a deletion sticks unless a job is open for the message: if it is
      neither in the library nor listed, and no job of its user and account is under way that has
      not committed it, it does not come back as long as it is not listed. */
  lemma HonestDeletionsStick(run: seq<World>, actions: seq<Action>, i: nat, m: nat, k: Key)
    requires IsHonestRun(run, actions) && i <= m < |run| && k !in run[i].store.messages
    requires forall q :: i <= q < m ==> !IsListed(run[q], k)
    requires forall id :: id in run[i].store.jobs ==> !IsOpenFor(run[i], id, k)
    ensures k !in run[m].store.messages
  {
    hide Next, Inv, Init, Honest, ImportsRow, RemovesRow, IsListed, IsOpenFor, Lists;
    LibraryIsHistory(run, actions, i, m, k);
    forall n | i <= n < m ensures !ImportsAt(run, actions, n, k) {
      if ImportsAt(run, actions, n, k) {
        var id := UnlistedImportsAreStale(run, actions, i, n, k);
      }
    }
  }

  // ---------- Open jobs do bring messages back ----------

  lemma HonestRunGoesOn(run: seq<World>, actions: seq<Action>, a: Action, s': World)
    requires IsHonestRun(run, actions) && Next(run[|actions|], a, s') && Honest(run[|actions|], a)
    ensures IsHonestRun(run + [s'], actions + [a])
  {
    hide Next, Init, Honest;
    var run', actions' := run + [s'], actions + [a];
    assert run'[0] == run[0];
    forall i | 0 <= i < |actions'| ensures Next(run'[i], actions'[i], run'[i + 1]) && Honest(run'[i], actions'[i]) {
      if i < |actions| { assert Next(run[i], actions[i], run[i + 1]) && Honest(run[i], actions[i]); }
    }
  }

  /** Worker `w` holds its job and has fetched, from what is listed now, a page with the message of `k`. */
  predicate HasFetched(s: World, w: WorkerId, raw: seq<Scanned>, k: Key, now: int) {
    var v := WorkerOf(s, w);
    && MayFetch(v) && raw != [] && Holds(s.store, v.lease, now)
    && Ids(raw) == Fetch(Source(s, v.lease.provenance.principal), v.offset, Capacity(v) + 1)
    && k in PageKeys(v.lease, BuildPage(raw, Capacity(v)).messages)
  }

  /** The user deletes `k` everywhere. */
  predicate DeletesEverywhere(s: World, a: Action, k: Key) { a.DeleteRemotely? && Deletes(s, a) && k in a.keys }

  lemma DeletionIsAccepted(s: World, a: Action, s1: World, l: Lease, k: Key)
    requires Inv(s) && Next(s, a, s1) && DeletesEverywhere(s, a, k) && l.user == a.user && l.provenance == a.provenance
    ensures s1.store.jobs == s.store.jobs && s1.workers == s.workers
    ensures s1.store.messages == DeleteMessages(s.store, a.user, a.keys).messages && k.user == a.user && k.principal.Some?
    ensures ConnectionMatches(s1.store, l)
  {
    hide Inv, Watch, Without, Forget, Remember, DoWorker;
    DeletionIs(s, a, s1);
    AcceptedDeletionDeletes(s, a, s1.clock);
  }

  lemma DeletedIsNotListed(s: World, a: Action, s1: World, k: Key)
    requires Inv(s) && Next(s, a, s1) && DeletesEverywhere(s, a, k)
    ensures !IsListed(s1, k)
  {
    hide Next, GoodStore, FreshTokens, WorkersFit, Without, Watch, FirstView, DeletesRemotely;
    KeysAreOfTheAccount(s, a, s1);
    ListingStep(s, a, s1);
    var gone := set x | x in a.keys :: x.tid;
    assert k.tid in gone;
    SourcesDescend(s, a.provenance.principal);
    WithoutDescends(Source(s, a.provenance.principal), gone);
  }

  lemma SourcesDescend(s: World, principal: int)
    requires Inv(s)
    ensures Descending(Source(s, principal))
  {
    hide GoodStore, FreshTokens, WorkersFit;
  }

  lemma KeysAreOfTheAccount(s: World, a: Action, s1: World)
    requires Next(s, a, s1) && a.DeleteRemotely?
    ensures forall k :: k in a.keys ==> k.user == a.user && k.principal == Some(a.provenance.principal)
  {
    hide DoUser, DoWorker;
  }

  /** A fetched page is persisted as long as the lease and the connection hold. */
  lemma FetchedPagePersists(s: World, s1: World, w: WorkerId, raw: seq<Scanned>, k: Key)
    requires Inv(s) && HasFetched(s, w, raw, k, s1.clock) && s1.store.jobs == s.store.jobs && s1.workers == s.workers
    requires ConnectionMatches(s1.store, WorkerOf(s, w).lease)
    ensures var v := WorkerOf(s1, w);
            var keep := |BuildPage(raw, Capacity(v)).messages|;
            && PageFor(v, raw, keep) == BuildPage(raw, Capacity(v)) && PersistsPage(s1, w, raw, keep, s1.clock)
  {
    var v := WorkerOf(s, w);
    var source, page := Source(s, v.lease.provenance.principal), BuildPage(raw, Capacity(v)).messages;
    assert GoodSettings(s) && Descending(source);
    hide Inv, ConnectionMatches, Holds;
    BelowIsFilter(source, v.offset);
    forall i, j | 0 <= i < j < |page| ensures page[j].tid < page[i].tid {
      assert Ids(raw)[i] == Below(source, v.offset)[i] && Ids(raw)[j] == Below(source, v.offset)[j];
      assert page[i].tid == Ids(raw)[i] && page[j].tid == Ids(raw)[j];
    }
    assert k in PageKeys(v.lease, page);
  }

  lemma CommitFetched(s1: World, w: WorkerId, raw: seq<Scanned>, k: Key) returns (b: Action, s2: World)
    requires Inv(s1) && MayFetch(WorkerOf(s1, w)) && raw != []
    requires var v := WorkerOf(s1, w);
             var keep := |BuildPage(raw, Capacity(v)).messages|;
             && PageFor(v, raw, keep) == BuildPage(raw, Capacity(v)) && PersistsPage(s1, w, raw, keep, s1.clock)
             && k in PageKeys(v.lease, BuildPage(raw, Capacity(v)).messages)
    ensures b == CommitPage(w, raw, |BuildPage(raw, Capacity(WorkerOf(s1, w))).messages|) && Next(s1, b, s2)
    ensures k in s2.store.messages && s2.sources == s1.sources
  {
    var keep := |BuildPage(raw, Capacity(WorkerOf(s1, w))).messages|;
    hide Inv, BuildPage, CutPage, PersistsPage, Commit, PageKeys, KeepsOrganization, Next, UpsertAll;
    b := CommitPage(w, raw, keep);
    s2 := Commit(s1, w, raw, keep, s1.clock);
    CommitIsNext(s1, w, raw, keep);
    CommitImports(s1, w, raw, keep, s1.clock);
  }

  lemma CommitIsNext(s: World, w: WorkerId, raw: seq<Scanned>, keep: nat)
    requires MayFetch(WorkerOf(s, w)) && raw != [] && keep <= |BuildPage(raw, Capacity(WorkerOf(s, w))).messages|
    ensures var s' := Commit(s, w, raw, keep, s.clock);
            Next(s, CommitPage(w, raw, keep), s') && s'.sources == s.sources && s'.clock == s.clock
  {
    hide Commit, BuildPage, DoUser;
  }

  /** What was fetched just before the last step is still an honest answer after it. */
  lemma FetchedIsHonest(run: seq<World>, actions: seq<Action>, w: WorkerId, raw: seq<Scanned>, keep: nat, k: Key)
    requires IsRun(run, actions) && actions != []
    requires var s, s1 := run[|actions| - 1], run[|actions|];
             HasFetched(s, w, raw, k, s1.clock) && s1.store.jobs == s.store.jobs && s1.workers == s.workers
    ensures Honest(run[|actions|], CommitPage(w, raw, keep))
  {
    hide Next, Init, GoodStore, FreshTokens, IsAnswer, Fetch, BuildPage, PageKeys;
    var n := |actions| - 1;
    var v := WorkerOf(run[n], w);
    InvAlways(run, actions, n);
    SliceFits(run[n], w);
    EveryFetchIsAnAnswer(run, actions, n, n + 1, v.lease.job, v.offset, Capacity(v) + 1);
  }

  /** The other half: a message deleted everywhere while an open job has fetched it comes back. Any
      honest run whose last step is an accepted deletion goes on honestly with the commit of a page
      fetched just before it, and then the message is in the library and not listed. */
  lemma StalePagesBringBack(run: seq<World>, actions: seq<Action>, w: WorkerId, raw: seq<Scanned>, k: Key) returns (b: Action, s2: World)
    requires IsHonestRun(run, actions) && actions != []
    requires var s, a, s1 := run[|actions| - 1], actions[|actions| - 1], run[|actions|];
             && DeletesEverywhere(s, a, k) && HasFetched(s, w, raw, k, s1.clock)
             && WorkerOf(s, w).lease.user == a.user && WorkerOf(s, w).lease.provenance == a.provenance
    ensures IsHonestRun(run + [s2], actions + [b]) && b.CommitPage? && b.w == w && b.raw == raw
    ensures k !in run[|actions|].store.messages && !IsListed(run[|actions|], k)
    ensures k in s2.store.messages && !IsListed(s2, k)
  {
    hide Next, Init, Honest, Inv, Holds, DeletesEverywhere, BuildPage, PageKeys, Fetch, ConnectionMatches, PersistsPage, PageFor;
    var n := |actions| - 1;
    var s, a, s1 := run[n], actions[n], run[n + 1];
    InvAlways(run, actions, n);
    InvAlways(run, actions, n + 1);
    DeletionIsAccepted(s, a, s1, WorkerOf(s, w).lease, k);
    DeletedIsNotListed(s, a, s1, k);
    DeletedIsGone(s, a, k);
    FetchedPagePersists(s, s1, w, raw, k);
    b, s2 := CommitFetched(s1, w, raw, k);
    FetchedIsHonest(run, actions, w, raw, b.keep, k);
    HonestRunGoesOn(run, actions, b, s2);
  }

  lemma DeletedIsGone(s: World, a: Action, k: Key)
    requires DeletesEverywhere(s, a, k) && k.user == a.user
    ensures k !in DeleteMessages(s.store, a.user, a.keys).messages
  {
  }
}
