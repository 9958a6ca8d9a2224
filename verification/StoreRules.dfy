/** The rules every transaction keeps on the whole store, and what a transaction may do to
    the rows that were there before it. */
module StoreRules {
  import opened Wrappers
  import opened ScanRows
  import opened TelegramAuth
  import opened ScanTransactions

  predicate GoodJobs(jobs: map<JobId, Job>) { forall id :: id in jobs ==> GoodJob(jobs[id]) }

  predicate OneActivePerUser(jobs: map<JobId, Job>) {
    forall a, b :: a in jobs && b in jobs && jobs[a].user == jobs[b].user && IsActive(jobs[a]) && IsActive(jobs[b]) ==> a == b
  }

  /** A marker names an active replacement job of the row's own user. */
  predicate MarkersAreLive(jobs: map<JobId, Job>, messages: map<Key, Message>) {
    forall k :: k in messages && messages[k].marker.Some? ==>
      var id := messages[k].marker.value;
      id in jobs && jobs[id].user == k.user && IsActive(jobs[id]) && jobs[id].replace
  }

  predicate DistinctIds(messages: map<Key, Message>, next: nat) {
    && (forall k :: k in messages ==> messages[k].id < next)
    && (forall k, k' :: k in messages && k' in messages && k != k' ==> messages[k].id != messages[k'].id)
  }

  predicate GoodConnections(connections: map<UserId, Connection>) {
    && (forall u :: u in connections ==> Coherent(connections[u]))
    && (forall u, v :: u in connections && v in connections && u != v ==>
          connections[u].principal.None? || connections[u].principal != connections[v].principal)
  }

  predicate GoodStore(s: Store) {
    && GoodJobs(s.jobs) && OneActivePerUser(s.jobs)
    && MarkersAreLive(s.jobs, s.messages) && DistinctIds(s.messages, s.nextMessage)
    && GoodConnections(s.connections)
  }

  /** One job row before and after a transaction; `token` is the one a claim brings. */
  predicate RowEvolves(j: Job, j': Job, token: Option<Token>) {
    && j'.user == j.user && j'.replace == j.replace && j'.provenance == j.provenance
    && j'.pageSize == j.pageSize && j'.maxMessages == j.maxMessages && j'.maxRuntime == j.maxRuntime
    && j'.createdAt == j.createdAt
    && (j.startedAt.Some? ==> j'.startedAt == j.startedAt)
    && (j.stopRequested ==> j'.stopRequested)
    && (!IsActive(j) ==> j' == j)
    && j.scanned <= j'.scanned
    && (j.state == Stopping ==> j'.state !in {Pending, Running})
    && (j'.owner.Some? ==> j'.owner == j.owner || (j'.owner == token && j.state in {Pending, Running}))
  }

  /** The columns only a page commit writes. */
  predicate SameProgress(j: Job, j': Job) {
    j'.scanned == j.scanned && j'.pages == j.pages && j'.cursor == j.cursor
  }

  /** All job rows evolve, none appears, and their progress is untouched. */
  predicate Evolves(jobs: map<JobId, Job>, jobs': map<JobId, Job>, token: Option<Token>) {
    && jobs'.Keys == jobs.Keys
    && forall id :: id in jobs ==> RowEvolves(jobs[id], jobs'[id], token) && SameProgress(jobs[id], jobs'[id])
  }

  /** Surviving rows keep their identity and the user's organization of them. */
  predicate KeepsOrganization(messages: map<Key, Message>, messages': map<Key, Message>) {
    forall k :: k in messages && k in messages' ==>
      messages'[k].id == messages[k].id && messages'[k].category == messages[k].category
      && messages'[k].tags == messages[k].tags
  }

  /** Only markers changed, and only by being cleared. */
  predicate OnlyClearsMarkers(messages: map<Key, Message>, messages': map<Key, Message>) {
    && messages'.Keys == messages.Keys
    && forall k :: k in messages ==> messages'[k] == messages[k] || messages'[k] == messages[k].(marker := None)
  }

  /** A marker is only cleared when the job it names stops being active. */
  predicate KeepsLiveMarkers(messages: map<Key, Message>, jobs': map<JobId, Job>, messages': map<Key, Message>) {
    forall k :: k in messages && k in messages' && messages[k].marker.Some? && messages[k].marker.value in jobs'
                && IsActive(jobs'[messages[k].marker.value]) ==>
      messages'[k].marker == messages[k].marker
  }

  /** What every transaction that neither imports nor deletes messages does. */
  predicate Administrative(s: Store, s': Store, token: Option<Token>) {
    && Evolves(s.jobs, s'.jobs, token)
    && OnlyClearsMarkers(s.messages, s'.messages)
    && KeepsLiveMarkers(s.messages, s'.jobs, s'.messages)
    && s'.nextMessage == s.nextMessage
  }

  // ---------- Jobs and markers of one row ----------

  lemma UpdateEvolves(jobs: map<JobId, Job>, id: JobId, row: Job, token: Option<Token>)
    requires id in jobs && RowEvolves(jobs[id], row, token) && SameProgress(jobs[id], row)
    ensures Evolves(jobs, jobs[id := row], token)
    ensures GoodJobs(jobs) && GoodJob(row) ==> GoodJobs(jobs[id := row])
    ensures OneActivePerUser(jobs) ==> OneActivePerUser(jobs[id := row])
  {
  }

  lemma ClearingKeepsIds(messages: map<Key, Message>, messages': map<Key, Message>, next: nat)
    requires DistinctIds(messages, next) && OnlyClearsMarkers(messages, messages')
    ensures DistinctIds(messages', next)
  {
  }

  /** Replacing one job row by a good one keeps the store good, provided a row that stops
      being active loses its markers in the same transaction. */
  lemma UpdateKeeps(s: Store, id: JobId, row: Job, messages: map<Key, Message>, token: Option<Token>)
    requires GoodStore(s) && id in s.jobs
    requires GoodJob(row) && RowEvolves(s.jobs[id], row, token) && SameProgress(s.jobs[id], row)
    requires OnlyClearsMarkers(s.messages, messages)
    requires IsActive(row) || forall k :: k in messages ==> messages[k].marker != Some(id)
    requires KeepsLiveMarkers(s.messages, s.jobs[id := row], messages)
    ensures GoodStore(s.(jobs := s.jobs[id := row], messages := messages))
    ensures Administrative(s, s.(jobs := s.jobs[id := row], messages := messages), token)
  {
    UpdateEvolves(s.jobs, id, row, token);
    ClearingKeepsIds(s.messages, messages, s.nextMessage);
    hide GoodJobs, OneActivePerUser, DistinctIds, Evolves, GoodConnections, GoodJob;
  }

  lemma CancelStaleKeeps(s: Store, id: JobId, now: int)
    requires GoodStore(s) && id in s.jobs && s.jobs[id].state == Stopping
    ensures GoodStore(CancelStale(s, id, now)) && Administrative(s, CancelStale(s, id, now), None)
  {
    UpdateKeeps(s, id, CancelStaleRow(s.jobs[id], now), CancelStale(s, id, now).messages, None);
  }

  lemma StopKeeps(s: Store, id: JobId, now: int)
    requires GoodStore(s) && id in s.jobs && IsActive(s.jobs[id])
    ensures GoodStore(Stop(s, id, now)) && Administrative(s, Stop(s, id, now), None)
  {
    UpdateKeeps(s, id, StopRow(s.jobs[id], now), Stop(s, id, now).messages, None);
  }

  lemma ClaimKeeps(s: Store, id: JobId, token: Token, now: int)
    requires GoodStore(s)
    ensures GoodStore(Claim(s, id, token, now)) && Administrative(s, Claim(s, id, token, now), Some(token))
  {
    hide OneActivePerUser, DistinctIds, GoodConnections, GoodJob, RowEvolves, SameProgress, Evolves, ClaimedRow;
    if id !in s.jobs {
      OnlyConnectionsChange(s, s.connections, Some(token));
    } else {
      ClaimedRowEvolves(s.jobs[id], token, now);
      UpdateKeeps(s, id, ClaimedRow(s.jobs[id], token, now), Claim(s, id, token, now).messages, Some(token));
    }
  }

  lemma ClaimedRowEvolves(j: Job, token: Token, now: int)
    requires GoodJob(j)
    ensures var row := ClaimedRow(j, token, now);
            && GoodJob(row) && RowEvolves(j, row, Some(token)) && SameProgress(j, row)
            && (row.state in {Failed, Cancelled} <==> !IsActive(row) && row.state != Completed)
            && (row.state == Completed ==> row == j)
  {
  }

  lemma RenewKeeps(s: Store, l: Lease, now: int)
    requires GoodStore(s) && Holds(s, l, now)
    ensures GoodStore(Renew(s, l, now)) && Administrative(s, Renew(s, l, now), None)
  {
    UpdateKeeps(s, l.job, RenewRow(s.jobs[l.job], now), s.messages, None);
  }

  /** The snapshot agrees with the columns of the job that never change. */
  predicate LeaseFits(j: Job, l: Lease) {
    && j.user == l.user && j.provenance == Some(l.provenance) && j.replace == l.replace
    && j.pageSize == l.pageSize && j.maxMessages == l.maxMessages && j.maxRuntime == l.maxRuntime
    && l.scanned <= l.maxMessages
  }

  lemma RequeueKeeps(s: Store, l: Lease, now: int)
    requires GoodStore(s) && Holds(s, l, now) && LeaseFits(s.jobs[l.job], l)
    ensures GoodStore(Requeue(s, l, now)) && Administrative(s, Requeue(s, l, now), None)
  {
    UpdateKeeps(s, l.job, RequeueRow(s.jobs[l.job], now), Requeue(s, l, now).messages, None);
  }

  lemma ReleaseKeeps(s: Store, l: Lease, now: int)
    requires GoodStore(s) && HoldsIgnoringExpiry(s, l) && LeaseFits(s.jobs[l.job], l)
    ensures GoodStore(Release(s, l, now)) && Administrative(s, Release(s, l, now), None)
  {
    UpdateKeeps(s, l.job, ReleaseRow(s.jobs[l.job], now), Release(s, l, now).messages, None);
  }

  /** Bulk updates: every row evolves to a good one, and a marker that stays names a job
      that stays active. */
  lemma BulkKeeps(s: Store, jobs: map<JobId, Job>, messages: map<Key, Message>)
    requires GoodStore(s)
    requires Evolves(s.jobs, jobs, None) && GoodJobs(jobs)
    requires OnlyClearsMarkers(s.messages, messages)
    requires forall k :: k in messages && messages[k].marker.Some? && messages[k].marker.value in jobs ==> IsActive(jobs[messages[k].marker.value])
    ensures GoodStore(s.(jobs := jobs, messages := messages))
  {
    hide GoodJobs, OneActivePerUser, MarkersAreLive, DistinctIds, GoodConnections, Evolves, OnlyClearsMarkers;
    StillOneActive(s.jobs, jobs);
    MarkersStayLive(s.jobs, s.messages, jobs, messages);
    ClearingKeepsIds(s.messages, messages, s.nextMessage);
  }

  lemma StillOneActive(jobs: map<JobId, Job>, jobs': map<JobId, Job>)
    requires OneActivePerUser(jobs) && Evolves(jobs, jobs', None)
    ensures OneActivePerUser(jobs')
  {
  }

  lemma MarkersStayLive(jobs: map<JobId, Job>, messages: map<Key, Message>, jobs': map<JobId, Job>, messages': map<Key, Message>)
    requires MarkersAreLive(jobs, messages) && Evolves(jobs, jobs', None) && OnlyClearsMarkers(messages, messages')
    requires forall k :: k in messages' && messages'[k].marker.Some? && messages'[k].marker.value in jobs' ==>
               IsActive(jobs'[messages'[k].marker.value])
    ensures MarkersAreLive(jobs', messages')
  {
    hide SameProgress;
  }

  lemma TerminalizeExpiredKeeps(s: Store, now: int)
    requires GoodStore(s)
    ensures GoodStore(TerminalizeExpired(s, now)) && Administrative(s, TerminalizeExpired(s, now), None)
  {
    hide OneActivePerUser, DistinctIds, GoodConnections, GoodJob, RowEvolves, SameProgress, CancelStaleRow;
    var s' := TerminalizeExpired(s, now);
    forall id | id in s.jobs
      ensures RowEvolves(s.jobs[id], s'.jobs[id], None) && SameProgress(s.jobs[id], s'.jobs[id]) && GoodJob(s'.jobs[id])
      ensures id in ExpiredStopping(s.jobs, now) ==> !IsActive(s'.jobs[id])
    {
      StaleRowEvolves(s.jobs[id], now);
    }
    BulkKeeps(s, s'.jobs, s'.messages);
  }

  lemma StaleRowEvolves(j: Job, now: int)
    requires GoodJob(j)
    ensures RowEvolves(j, j, None) && SameProgress(j, j)
    ensures j.state == Stopping ==>
              var row := CancelStaleRow(j.(stopRequested := true), now);
              RowEvolves(j, row, None) && SameProgress(j, row) && GoodJob(row) && !IsActive(row)
  {
  }

  lemma CancelJobsEvolves(jobs: map<JobId, Job>, user: UserId, p: Option<Provenance>, now: int)
    requires GoodJobs(jobs)
    ensures var jobs' := CancelJobs(jobs, BoundJobs(jobs, user, p), now);
            Evolves(jobs, jobs', None) && GoodJobs(jobs')
  {
  }

  lemma CancelBoundKeeps(s: Store, user: UserId, p: Option<Provenance>, now: int)
    requires GoodStore(s)
    ensures GoodStore(CancelBound(s, user, p, now)) && Administrative(s, CancelBound(s, user, p, now), None)
    ensures CancelBound(s, user, p, now).connections == s.connections
  {
    hide OneActivePerUser, DistinctIds, GoodConnections, GoodJob, RowEvolves, SameProgress;
    var s' := CancelBound(s, user, p, now);
    CancelJobsEvolves(s.jobs, user, p, now);
    forall k | k in s'.messages && s'.messages[k].marker.Some? && s'.messages[k].marker.value in s'.jobs
      ensures IsActive(s'.jobs[s'.messages[k].marker.value])
    {
      assert k in s.messages && s.messages[k].marker == s'.messages[k].marker;
    }
    BulkKeeps(s, s'.jobs, s'.messages);
  }

  // ---------- Page persistence ----------

  function PageKeys(l: Lease, messages: seq<Scanned>): set<Key> {
    set i | 0 <= i < |messages| :: KeyOf(l, messages[i].tid)
  }

  lemma PageKeysGrow(l: Lease, messages: seq<Scanned>)
    requires messages != []
    ensures var n := |messages| - 1;
            PageKeys(l, messages) == PageKeys(l, messages[..n]) + {KeyOf(l, messages[n].tid)}
  {
    var n := |messages| - 1;
    forall k | k in PageKeys(l, messages) ensures k in PageKeys(l, messages[..n]) + {KeyOf(l, messages[n].tid)} {
      var i :| 0 <= i < |messages| && k == KeyOf(l, messages[i].tid);
      if i < n { assert messages[..n][i] == messages[i]; }
    }
    forall k | k in PageKeys(l, messages[..n]) ensures k in PageKeys(l, messages) {
      var i :| 0 <= i < n && k == KeyOf(l, messages[..n][i].tid);
      assert messages[i] == messages[..n][i];
    }
  }

  lemma {:induction false} UpsertAllKeys(t: Table, l: Lease, messages: seq<Scanned>)
    ensures var t' := UpsertAll(t, l, messages);
            && t'.rows.Keys == t.rows.Keys + PageKeys(l, messages)
            && (PageKeys(l, messages) <= t.rows.Keys ==> t'.next == t.next)
  {
    if messages != [] {
      UpsertAllKeys(t, l, messages[..|messages| - 1]);
      PageKeysGrow(l, messages);
    }
  }

  function OldMarker(rows: map<Key, Message>, k: Key): Option<JobId> { if k in rows then rows[k].marker else None }

  /** What an import of `keys` leaves of the table: one row per key, every old row with its
      identity and organization, every other row as it was, and the imported rows stamped
      by this scan. */
  predicate Imports(t: Table, l: Lease, keys: set<Key>, t': Table) {
    && t'.rows.Keys == t.rows.Keys + keys
    && t.next <= t'.next
    && (forall k :: k in t'.rows && k !in t.rows ==> t.next <= t'.rows[k].id)
    && KeepsOrganization(t.rows, t'.rows)
    && (forall k :: k in t.rows && k !in keys ==> t'.rows[k] == t.rows[k])
    && (forall k :: k in keys ==>
          && t'.rows[k].generation == Some(l.provenance.generation)
          && t'.rows[k].marker == if l.replace then Some(l.job) else OldMarker(t.rows, k))
  }

  lemma UpsertKeepsIds(t: Table, l: Lease, m: Scanned)
    requires DistinctIds(t.rows, t.next)
    ensures var t' := Upsert(t, l, m); DistinctIds(t'.rows, t'.next)
  {
    var t', k0 := Upsert(t, l, m), KeyOf(l, m.tid);
    forall k | k in t'.rows && k != k0 ensures t'.rows[k].id != t'.rows[k0].id {
      assert t'.rows[k] == t.rows[k];
    }
  }

  lemma UpsertImports(t: Table, l: Lease, m: Scanned)
    ensures Imports(t, l, {KeyOf(l, m.tid)}, Upsert(t, l, m))
  {
  }

  lemma ImportsCompose(t: Table, l: Lease, keys: set<Key>, t1: Table, more: set<Key>, t2: Table)
    requires Imports(t, l, keys, t1) && Imports(t1, l, more, t2)
    ensures Imports(t, l, keys + more, t2)
  {
    forall k | k in t.rows && k in t2.rows
      ensures t2.rows[k].id == t.rows[k].id && t2.rows[k].category == t.rows[k].category && t2.rows[k].tags == t.rows[k].tags
    {
      assert k in t1.rows;
    }
    forall k | k in keys + more
      ensures t2.rows[k].generation == Some(l.provenance.generation)
      ensures t2.rows[k].marker == if l.replace then Some(l.job) else OldMarker(t.rows, k)
    {
      if k !in more { assert t2.rows[k] == t1.rows[k]; }
      else if !l.replace && k !in keys && k in t.rows { assert t1.rows[k] == t.rows[k]; }
    }
  }

  lemma {:induction false} UpsertAllImports(t: Table, l: Lease, messages: seq<Scanned>)
    requires DistinctIds(t.rows, t.next)
    ensures Imports(t, l, PageKeys(l, messages), UpsertAll(t, l, messages))
    ensures var t' := UpsertAll(t, l, messages); DistinctIds(t'.rows, t'.next)
  {
    if messages != [] {
      var n := |messages| - 1;
      var before := UpsertAll(t, l, messages[..n]);
      UpsertAllImports(t, l, messages[..n]);
      UpsertImports(before, l, messages[n]);
      UpsertKeepsIds(before, l, messages[n]);
      ImportsCompose(t, l, PageKeys(l, messages[..n]), before, {KeyOf(l, messages[n].tid)}, UpsertAll(t, l, messages));
      PageKeysGrow(l, messages);
    }
  }

  /** The markers an import sets name the importing job. */
  lemma ImportKeepsMarkersLive(t: Table, l: Lease, messages: seq<Scanned>, t': Table, jobs: map<JobId, Job>)
    requires MarkersAreLive(jobs, t.rows) && Imports(t, l, PageKeys(l, messages), t')
    requires l.job in jobs && jobs[l.job].user == l.user && IsActive(jobs[l.job]) && jobs[l.job].replace == l.replace
    ensures MarkersAreLive(jobs, t'.rows)
  {
    forall k | k in t'.rows && t'.rows[k].marker.Some?
      ensures var id := t'.rows[k].marker.value; id in jobs && jobs[id].user == k.user && IsActive(jobs[id]) && jobs[id].replace
    {
      if k in PageKeys(l, messages) && l.replace { assert k.user == l.user; }
    }
  }

  lemma PageRowKeepsJobs(jobs: map<JobId, Job>, messages: map<Key, Message>, id: JobId, row: Job)
    requires GoodJobs(jobs) && OneActivePerUser(jobs) && MarkersAreLive(jobs, messages)
    requires id in jobs && GoodJob(row) && row.user == jobs[id].user && row.state == jobs[id].state && row.replace == jobs[id].replace
    ensures GoodJobs(jobs[id := row]) && OneActivePerUser(jobs[id := row]) && MarkersAreLive(jobs[id := row], messages)
  {
    hide GoodJob;
  }

  lemma PersistPageKeeps(s: Store, l: Lease, page: ScanPage, now: int)
    requires GoodStore(s) && Holds(s, l, now) && LeaseFits(s.jobs[l.job], l)
    requires page.messages != [] && page.next.Some?
    requires s.jobs[l.job].scanned + |page.messages| <= l.maxMessages
    ensures GoodStore(PersistPage(s, l, page))
    ensures Imports(Table(s.messages, s.nextMessage), l, PageKeys(l, page.messages),
                    Table(PersistPage(s, l, page).messages, PersistPage(s, l, page).nextMessage))
  {
    UpsertAllImports(Table(s.messages, s.nextMessage), l, page.messages);
    var s' := PersistPage(s, l, page);
    assert GoodJob(s.jobs[l.job]);
    PageRowKeepsJobs(s.jobs, s.messages, l.job, PageRow(s.jobs[l.job], page));
    hide GoodJobs, GoodJob, OneActivePerUser, MarkersAreLive, DistinctIds, GoodConnections, UpsertAll, Imports, PageKeys;
    ImportKeepsMarkersLive(Table(s.messages, s.nextMessage), l, page.messages, Table(s'.messages, s'.nextMessage), s'.jobs);
  }

  // ---------- Finalization ----------

  /** The only transaction of a worker that removes rows: the completion of a replacement
      that reached the end of the source. */
  predicate Sweeps(l: Lease, state: JobState, reason: Option<Reason>) {
    l.replace && state == Completed && reason == Some(SourceExhausted)
  }

  lemma SweptKeeps(s: Store, user: UserId, id: JobId)
    requires GoodStore(s)
    ensures GoodStore(s.(messages := Swept(s.messages, user, id)))
  {
  }

  /** The finalization of one job row over the rows that are left. */
  lemma FinalizeRowKeeps(s: Store, l: Lease, state: JobState, reason: Option<Reason>, now: int)
    requires GoodStore(s) && Holds(s, l, now) && LeaseFits(s.jobs[l.job], l)
    requires AcceptableEnd(s.jobs[l.job], state, reason)
    ensures var s' := s.(jobs := s.jobs[l.job := FinalizeRow(s.jobs[l.job], state, reason, now)],
                         messages := if l.replace then ClearUserMarkers(s.messages, l.user, {l.job}) else s.messages);
            GoodStore(s') && Administrative(s, s', None)
  {
    UpdateKeeps(s, l.job, FinalizeRow(s.jobs[l.job], state, reason, now),
                if l.replace then ClearUserMarkers(s.messages, l.user, {l.job}) else s.messages, None);
  }

  lemma FinalizeKeeps(s: Store, l: Lease, state: JobState, reason: Option<Reason>, now: int)
    requires GoodStore(s) && Holds(s, l, now) && LeaseFits(s.jobs[l.job], l)
    requires AcceptableEnd(s.jobs[l.job], state, reason)
    ensures var s' := Finalize(s, l, state, reason, now);
            && GoodStore(s') && Evolves(s.jobs, s'.jobs, None)
            && s'.connections == s.connections && s'.nextMessage == s.nextMessage
            && OnlyClearsMarkers(if Sweeps(l, state, reason) then Swept(s.messages, l.user, l.job) else s.messages, s'.messages)
  {
    var kept := if Sweeps(l, state, reason) then s.(messages := Swept(s.messages, l.user, l.job)) else s;
    SweptKeeps(s, l.user, l.job);
    hide GoodStore, GoodJob, AcceptableEnd, RowEvolves, SameProgress, LeaseFits;
    FinalizeRowKeeps(kept, l, state, reason, now);
  }

  lemma ClearedRowsKeepOrganization(messages: map<Key, Message>, kept: map<Key, Message>, messages': map<Key, Message>)
    requires forall k :: k in kept ==> k in messages && kept[k] == messages[k]
    ensures OnlyClearsMarkers(kept, messages') ==> KeepsOrganization(messages, messages')
  {
  }

  lemma EndSliceKeeps(s: Store, l: Lease, disposition: Option<(JobState, Reason)>, now: int)
    requires GoodStore(s) && Holds(s, l, now) && LeaseFits(s.jobs[l.job], l)
    requires disposition.Some? ==> AcceptableEnd(s.jobs[l.job], disposition.value.0, Some(disposition.value.1))
    ensures var s' := EndSlice(s, l, disposition, now);
            && GoodStore(s') && Evolves(s.jobs, s'.jobs, None) && KeepsOrganization(s.messages, s'.messages)
            && s'.connections == s.connections
  {
    hide GoodStore, Evolves, AcceptableEnd, KeepsOrganization, OnlyClearsMarkers;
    var s' := EndSlice(s, l, disposition, now);
    match disposition {
      case None =>
        RequeueKeeps(s, l, now);
        ClearedRowsKeepOrganization(s.messages, s.messages, s'.messages);
      case Some((state, reason)) =>
        FinalizeKeeps(s, l, state, Some(reason), now);
        ClearedRowsKeepOrganization(s.messages, Swept(s.messages, l.user, l.job), s'.messages);
        ClearedRowsKeepOrganization(s.messages, s.messages, s'.messages);
    }
  }

  // ---------- What may happen to rows outside of page commits ----------

  /** The columns a scan copies from Telegram. */
  predicate SameSource(m: Message, m': Message) {
    m'.id == m.id && m'.generation == m.generation && m'.content == m.content && m'.body == m.body && m'.media == m.media
  }

  /** No row appears, no copied column changes, markers are at most cleared. */
  predicate Shrinks(messages: map<Key, Message>, messages': map<Key, Message>) {
    forall k :: k in messages' ==>
      k in messages && SameSource(messages[k], messages'[k]) && messages'[k].marker in {None, messages[k].marker}
  }

  lemma ClearingShrinks(messages: map<Key, Message>, messages': map<Key, Message>)
    requires OnlyClearsMarkers(messages, messages')
    ensures Shrinks(messages, messages') && messages'.Keys == messages.Keys
  {
  }

  /** Only the completion of a replacement that reached the end of the source removes rows:
      it leaves all rows of other users, and the user's rows this job marked. */
  lemma EndSliceShrinks(s: Store, l: Lease, disposition: Option<(JobState, Reason)>, now: int)
    requires l.job in s.jobs
    ensures var s' := EndSlice(s, l, disposition, now);
            && Shrinks(s.messages, s'.messages)
            && (if l.replace && disposition == Some((Completed, SourceExhausted))
                then forall k :: k in s'.messages <==> k in s.messages && (k.user == l.user ==> s.messages[k].marker == Some(l.job))
                else s'.messages.Keys == s.messages.Keys)
  {
    hide FinalizeRow, RequeueRow;
  }

  lemma DeleteMessagesShrinks(s: Store, user: UserId, keys: set<Key>)
    ensures var s' := DeleteMessages(s, user, keys);
            Shrinks(s.messages, s'.messages) && forall k :: k in s'.messages <==> k in s.messages && !(k in keys && k.user == user)
  {
  }

  lemma ApplyShrinks(s: Store, user: UserId, effect: Effect, now: int)
    ensures var messages := Apply(s, user, effect, now).messages;
            Shrinks(s.messages, messages) && messages.Keys == s.messages.Keys
  {
    hide CancelJobs, BoundJobs;
  }

  lemma DeleteEverywhereShrinks(s: Store, user: UserId, p: Provenance, keys: set<Key>, opens: bool, answer: IdentityAnswer, now: int)
    ensures var messages := DeleteEverywhere(s, user, p, keys, opens, answer, now).messages;
            Shrinks(s.messages, messages) && forall k :: k in s.messages && k !in messages ==> k in keys && k.user == user
  {
    if user in s.connections {
      var effect := DeleteRemote(s.connections[user], p, opens, answer);
      ApplyShrinks(s, user, effect, now);
      DeleteMessagesShrinks(Apply(s, user, effect, now), user, keys);
      hide Apply, DeleteMessages, DeleteRemote;
    }
  }

  // ---------- Connections ----------

  lemma ConnectionKeeps(s: Store, user: UserId, row: Connection)
    requires GoodStore(s) && Coherent(row)
    requires row.principal.Some? ==> forall u :: u in s.connections && u != user ==> s.connections[u].principal != row.principal
    ensures GoodStore(s.(connections := s.connections[user := row]))
  {
  }

  lemma OnlyConnectionsChange(s: Store, connections: map<UserId, Connection>, token: Option<Token>)
    ensures Administrative(s, s.(connections := connections), token)
  {
  }

  lemma AdministrationIgnoresConnections(s: Store, connections: map<UserId, Connection>, s': Store)
    requires Administrative(s.(connections := connections), s', None)
    ensures Administrative(s, s', None)
  {
    hide Evolves, OnlyClearsMarkers, KeepsLiveMarkers;
  }

  lemma ApplyKeeps(s: Store, user: UserId, effect: Effect, now: int)
    requires GoodStore(s) && Coherent(effect.row)
    requires effect.row.principal.Some? ==>
               forall u :: u in s.connections && u != user ==> s.connections[u].principal != effect.row.principal
    ensures GoodStore(Apply(s, user, effect, now)) && Administrative(s, Apply(s, user, effect, now), None)
    ensures Apply(s, user, effect, now).connections == s.connections[user := effect.row]
  {
    hide GoodStore, Administrative, CancelBound, Coherent;
    var connections := s.connections[user := effect.row];
    ConnectionKeeps(s, user, effect.row);
    if effect.cancelled {
      CancelBoundKeeps(s.(connections := connections), user, None, now);
      AdministrationIgnoresConnections(s, connections, Apply(s, user, effect, now));
    } else {
      OnlyConnectionsChange(s, connections, None);
    }
  }

  lemma ServeKeeps(s: Store, user: UserId, r: Request, now: int)
    requires GoodStore(s) && Plausible(s.connections, user, r)
    ensures GoodStore(Serve(s, user, r, now)) && Administrative(s, Serve(s, user, r, now), None)
  {
    if user in s.connections {
      ApplyKeeps(s, user, RequestEffect(s.connections[user], s.connections, user, r, now), now);
    } else if r.AskDisconnect? {
      CancelBoundKeeps(s, user, None, now);
    } else if r.AskStart? {
      var effect := RequestEffect(FRESH, s.connections, user, r, now);
      if !effect.reply.Rejected? { ApplyKeeps(s, user, effect, now); }
    }
  }

  lemma DowngradeKeeps(s: Store, l: Lease, now: int)
    requires GoodStore(s)
    ensures GoodStore(Downgrade(s, l, now)) && Administrative(s, Downgrade(s, l, now), None)
  {
    if ConnectionBelongsTo(s, l) {
      var row := Erased(s.connections[l.user], Disconnected);
      ConnectionKeeps(s, l.user, row);
      CancelBoundKeeps(s.(connections := s.connections[l.user := row]), l.user, Some(l.provenance), now);
    }
  }

  lemma InvalidateUnreadableKeeps(s: Store, l: Lease)
    requires GoodStore(s)
    ensures GoodStore(InvalidateUnreadable(s, l)) && Administrative(s, InvalidateUnreadable(s, l), None)
  {
    if ConnectionMatches(s, l) { ConnectionKeeps(s, l.user, Erased(s.connections[l.user], Errored)); }
  }

  lemma SaveSessionKeeps(s: Store, l: Lease, session: Cipher)
    requires GoodStore(s) && ConnectionMatches(s, l)
    ensures GoodStore(SaveSession(s, l, session)) && Administrative(s, SaveSession(s, l, session), None)
  {
    ConnectionKeeps(s, l.user, s.connections[l.user].(session := Some(session)));
  }

  lemma DeleteMessagesKeeps(s: Store, user: UserId, keys: set<Key>)
    requires GoodStore(s)
    ensures var s' := DeleteMessages(s, user, keys);
            GoodStore(s') && s'.jobs == s.jobs && s'.nextMessage == s.nextMessage && KeepsOrganization(s.messages, s'.messages)
  {
  }

  lemma SameOrganizationKept(messages: map<Key, Message>)
    ensures KeepsOrganization(messages, messages)
  {
  }

  lemma OrganizationPasses(messages: map<Key, Message>, cleared: map<Key, Message>, messages': map<Key, Message>)
    requires OnlyClearsMarkers(messages, cleared) && KeepsOrganization(cleared, messages')
    ensures KeepsOrganization(messages, messages')
  {
  }

  lemma DeleteEverywhereKeeps(s: Store, user: UserId, p: Provenance, keys: set<Key>, opens: bool,
                              answer: IdentityAnswer, now: int)
    requires GoodStore(s)
    ensures var s' := DeleteEverywhere(s, user, p, keys, opens, answer, now);
            && GoodStore(s') && Evolves(s.jobs, s'.jobs, None) && KeepsOrganization(s.messages, s'.messages)
            && s'.nextMessage == s.nextMessage
  {
    if user in s.connections {
      var effect := DeleteRemote(s.connections[user], p, opens, answer);
      assert Coherent(s.connections[user]) && GoodConnections(s.connections);
      ApplyKeeps(s, user, effect, now);
      var s1 := Apply(s, user, effect, now);
      hide GoodStore, GoodConnections, KeepsOrganization, Evolves, Apply, DeleteRemote, DeleteMessages, Coherent, KeepsLiveMarkers;
      DeleteMessagesKeeps(s1, user, keys);
      OrganizationPasses(s.messages, s1.messages, s1.messages) by { SameOrganizationKept(s1.messages); }
      OrganizationPasses(s.messages, s1.messages, DeleteMessages(s1, user, keys).messages);
    } else {
      SameOrganizationKept(s.messages);
    }
  }

  // ---------- New jobs ----------

  /** With no active job the user's rows carry no markers, so clearing them all clears none. */
  lemma InsertKeeps(s: Store, id: JobId, job: Job)
    requires GoodStore(s) && id !in s.jobs && GoodJob(job) && !HasActiveJob(s.jobs, job.user)
    ensures var messages := if job.replace then ClearAllUserMarkers(s.messages, job.user) else s.messages;
            messages == s.messages && GoodStore(s.(jobs := s.jobs[id := job], messages := messages))
  {
    var messages := if job.replace then ClearAllUserMarkers(s.messages, job.user) else s.messages;
    forall k | k in s.messages ensures messages[k] == s.messages[k] {
      assert k.user == job.user && s.messages[k].marker.Some? ==> HasActiveJob(s.jobs, job.user);
    }
    assert messages == s.messages;
    hide DistinctIds, GoodConnections, ClearAllUserMarkers;
  }

  lemma CreateJobKeeps(s: Store, id: JobId, user: UserId, pageSize: nat, replace: bool, maxMessages: nat,
                       maxRuntime: nat, opens: bool, answer: IdentityAnswer, now: int)
    requires GoodStore(s) && id !in s.jobs && 0 < pageSize && 0 < maxRuntime
    ensures var s' := CreateJob(s, id, user, pageSize, replace, maxMessages, maxRuntime, opens, answer, now);
            && GoodStore(s') && s'.messages == s.messages && s'.nextMessage == s.nextMessage
            && (id !in s'.jobs ==> s'.jobs == s.jobs)
            && (id in s'.jobs ==>
                  && !HasActiveJob(s.jobs, user) && user in s'.connections
                  && s'.connections[user].state == Connected && s'.connections[user].principal.Some?
                  && s'.jobs == s.jobs[id := NewJob(user, pageSize, replace,
                       Provenance(s'.connections[user].principal.value, s'.connections[user].generation), maxMessages, maxRuntime, now)])
  {
    if user in s.connections {
      var effect := ValidateForScan(s.connections[user], opens, answer);
      var s1 := s.(connections := s.connections[user := effect.row]);
      ConnectionKeeps(s, user, effect.row);
      if effect.reply == ReplyConnected && !HasActiveJob(s.jobs, user) && effect.row.principal.Some? {
        var p := Provenance(effect.row.principal.value, effect.row.generation);
        hide GoodStore, HasActiveJob, ClearAllUserMarkers, Coherent, GoodJob;
        InsertKeeps(s1, id, NewJob(user, pageSize, replace, p, maxMessages, maxRuntime, now));
      }
    }
  }
}
