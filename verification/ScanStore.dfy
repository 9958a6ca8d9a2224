/** The transactions of telegram/service.py statement by statement, on the tables as fields.
    Each method is proved to leave exactly what the corresponding function of
    ScanTransactions says; the lemmas about those functions are then about this code. */
module ScanStore {
  import opened Wrappers
  import opened ScanRows
  import opened TelegramAuth
  import opened ScanTransactions
  import opened StoreRules
  import opened ScanProtocol
  import opened ScanOutcomes

  datatype StartReply = Started | Existing(id: JobId) | Busy | NotConnected | InvalidPageSize

  predicate IsActiveJobOf(jobs: map<JobId, Job>, user: UserId, id: JobId) {
    id in jobs && jobs[id].user == user && IsActive(jobs[id])
  }

  /** Every outcome of `start` with a valid page size: what it found and what it left. */
  ghost predicate StartOutcome(s: Store, id: JobId, user: UserId, pageSize: nat, replace: bool, maxMessages: nat, maxRuntime: nat,
                         opens: bool, answer: IdentityAnswer, now: int, reply: StartReply, s': Store)
  {
    if !HasActiveJob(s.jobs, user)
    then s' == CreateJob(s, id, user, pageSize, replace, maxMessages, maxRuntime, opens, answer, now) && (reply.Started? <==> id in s'.jobs)
    else
      exists active :: IsActiveJobOf(s.jobs, user, active) &&
        var job := s.jobs[active];
        if job.state == Pending || (job.state == Running && LeaseExpired(job, now))
        then s' == s && reply == (if job.replace == replace then Existing(active) else Busy)
        else if job.state == Stopping && LeaseExpired(job, now)
        then s' == CreateJob(CancelStale(s, active, now), id, user, pageSize, replace, maxMessages, maxRuntime, opens, answer, now)
             && (reply.Started? <==> id in s'.jobs)
        else s' == s && reply == Busy
  }

  function Tids(messages: seq<Scanned>): set<int> { set m | m in messages :: m.tid }

  /** In the first `i` messages no new message comes twice. */
  predicate NoRepeats(rows: map<Key, Message>, l: Lease, messages: seq<Scanned>, i: nat)
    requires i <= |messages|
  {
    forall a, b :: 0 <= a < b < i && messages[a].tid == messages[b].tid ==> KeyOf(l, messages[a].tid) in rows
  }

  /** One message more: what was imported so far has a row exactly for the keys that had one
      and for the messages so far. */
  lemma NextMessage(t: Table, l: Lease, messages: seq<Scanned>, i: nat)
    requires i < |messages|
    ensures UpsertAll(t, l, messages[..i + 1]) == Upsert(UpsertAll(t, l, messages[..i]), l, messages[i])
    ensures KeyOf(l, messages[i].tid) in UpsertAll(t, l, messages[..i]).rows <==>
              KeyOf(l, messages[i].tid) in t.rows || messages[i].tid in Tids(messages[..i])
    ensures Tids(messages[..i + 1]) == Tids(messages[..i]) + {messages[i].tid}
  {
    assert messages[..i + 1][..i] == messages[..i] && messages[..i + 1][i] == messages[i];
    UpsertAllKeys(t, l, messages[..i]);
    PageKeysAreTids(l, messages[..i], messages[i].tid);
    assert messages[..i + 1] == messages[..i] + [messages[i]];
  }

  lemma NothingYet(t: Table, l: Lease, messages: seq<Scanned>)
    ensures NoRepeats(t.rows, l, messages, 0) && UpsertAll(t, l, messages[..0]) == t && Tids(messages[..0]) == {}
  {
  }

  lemma NoRepeatsAtAll(rows: map<Key, Message>, l: Lease, messages: seq<Scanned>)
    requires NoRepeats(rows, l, messages, |messages|)
    ensures !RepeatsNewMessage(rows, l, messages)
  {
  }

  lemma PageKeysAreTids(l: Lease, messages: seq<Scanned>, t: int)
    ensures KeyOf(l, t) in PageKeys(l, messages) <==> t in Tids(messages)
  {
    if t in Tids(messages) {
      var m :| m in messages && m.tid == t;
      var i :| 0 <= i < |messages| && messages[i] == m;
      assert KeyOf(l, messages[i].tid) == KeyOf(l, t);
    }
  }

  lemma NextRepeats(rows: map<Key, Message>, l: Lease, messages: seq<Scanned>, i: nat)
    requires i < |messages| && NoRepeats(rows, l, messages, i)
    ensures if messages[i].tid in Tids(messages[..i]) && KeyOf(l, messages[i].tid) !in rows
            then RepeatsNewMessage(rows, l, messages) else NoRepeats(rows, l, messages, i + 1)
  {
    var t := messages[i].tid;
    if t in Tids(messages[..i]) && KeyOf(l, t) !in rows {
      var m :| m in messages[..i] && m.tid == t;
      var a :| 0 <= a < i && messages[a] == m;
    } else {
      forall a | 0 <= a < i && messages[a].tid == t ensures KeyOf(l, messages[a].tid) in rows {
        assert messages[..i][a] == messages[a];
      }
    }
  }

  /** The job's row after the first statements of a claim. */
  function SettledRow(j: Job, now: int): Job {
    if IsActive(j) && j.provenance.None? then FailLegacyRow(j, now)
    else if j.state == Stopping && LeaseExpired(j, now) then CancelStaleRow(j, now)
    else j
  }

  lemma SettledThenClaimed(j: Job, owner: Token, now: int)
    ensures var settled, claimed := SettledRow(j, now), ClaimedRow(j, owner, now);
            && (Claimable(settled, now) <==> Claimable(j, now))
            && (if Claimable(j, now) then settled == j && claimed == ClaimRow(j, owner, now) else claimed == settled)
            && (settled.state in {Failed, Cancelled} <==> claimed.state in {Failed, Cancelled})
  {
  }

  class Tables {
    var jobs: map<JobId, Job>
    var messages: map<Key, Message>
    var nextMessage: nat
    var connections: map<UserId, Connection>

    function Contents(): Store
      reads this
    {
      Store(jobs, messages, nextMessage, connections)
    }

    /** The rules of the tables. */
    ghost predicate Valid()
      reads this
    {
      GoodStore(Contents())
    }

    /** The lease was read from this row by a claim. */
    ghost predicate Fits(l: Lease)
      reads this
    {
      l.job in jobs && LeaseFits(jobs[l.job], l)
    }

    constructor (s: Store)
      ensures Contents() == s
    {
      jobs, messages, nextMessage, connections := s.jobs, s.messages, s.nextMessage, s.connections;
    }

    // ---------- Claiming ----------

    /** The first three statements of a claim: a legacy job fails, a stale stopping job is
        cancelled, and the markers of a job that is over are cleared. */
    method SettleJob(id: JobId, now: int)
      modifies this`jobs, this`messages
      ensures id !in old(jobs) ==> jobs == old(jobs) && messages == old(messages)
      ensures id in old(jobs) ==>
                var row := SettledRow(old(jobs)[id], now);
                && jobs == old(jobs)[id := row]
                && messages == if row.state == Failed || row.state == Cancelled then ClearMarkers(old(messages), {id}) else old(messages)
    {
      hide ClearMarkers;
      if id in jobs && IsActive(jobs[id]) && jobs[id].provenance.None? {
        jobs := jobs[id := FailLegacyRow(jobs[id], now)];
      }
      if id in jobs && jobs[id].state == Stopping && LeaseExpired(jobs[id], now) {
        jobs := jobs[id := CancelStaleRow(jobs[id], now)];
      }
      if id in jobs && (jobs[id].state == Failed || jobs[id].state == Cancelled) {
        messages := ClearMarkers(messages, {id});
      }
    }

    /** Three statements settle the job, and only then is it claimed. */
    method ClaimScanJob(id: JobId, owner: Token, now: int) returns (lease: Option<Lease>)
      modifies this
      ensures Contents() == Claim(old(Contents()), id, owner, now)
      ensures lease == if id in old(jobs) && Claimable(old(jobs[id]), now) then ReadLease(Contents(), id, owner) else None
      ensures old(Valid()) ==> Valid()
    {
      ghost var before := Contents();
      if Valid() { ClaimKeeps(before, id, owner, now); }
      if id in jobs { SettledThenClaimed(jobs[id], owner, now); }
      hide GoodStore, Administrative, ClearMarkers, SettledRow, ClaimedRow, ClaimRow;
      SettleJob(id, now);
      if !(id in jobs && Claimable(jobs[id], now)) { return None; }
      jobs := jobs[id := ClaimRow(jobs[id], owner, now)];
      return ReadLease(Contents(), id, owner);
    }

    method RenewLease(l: Lease, now: int) returns (ok: bool)
      modifies this
      ensures ok == Holds(old(Contents()), l, now)
      ensures Contents() == if ok then Renew(old(Contents()), l, now) else old(Contents())
      ensures ok ==> l.job in jobs && IsRenewed(old(jobs)[l.job], now, jobs[l.job])
      ensures ok ==> forall t :: t < now + SCAN_LEASE_SECONDS ==> Holds(Contents(), l, t)
      ensures old(Valid()) ==> Valid()
    {
      if Valid() && Holds(Contents(), l, now) { RenewKeeps(Contents(), l, now); }
      if Holds(Contents(), l, now) { RenewalLeaves(Contents(), l, now); }
      if !(l.job in jobs && Owns(jobs[l.job], l, now)) { return false; }
      jobs := jobs[l.job := RenewRow(jobs[l.job], now)];
      return true;
    }

    // ---------- Pages ----------

    /** The rows of one page, written into the session message by message: a message seen
        before is refreshed through the rows fetched up front, a new one is inserted. A new
        message that comes twice is not among those rows, and nothing is persisted. */
    method UpsertMessages(l: Lease, messages: seq<Scanned>, rows: map<Key, Message>, next: nat)
      returns (ok: bool, rows': map<Key, Message>, next': nat)
      ensures ok == !RepeatsNewMessage(rows, l, messages)
      ensures ok ==> Table(rows', next') == UpsertAll(Table(rows, next), l, messages)
    {
      hide UpsertAll, NoRepeats, RepeatsNewMessage, Tids;
      rows', next' := rows, next;
      var existing := set m | m in messages && KeyOf(l, m.tid) in rows :: m.tid;
      var seen := existing;
      var i := 0;
      NothingYet(Table(rows, next), l, messages);
      while i < |messages|
        invariant i <= |messages| && NoRepeats(rows, l, messages, i)
        invariant Table(rows', next') == UpsertAll(Table(rows, next), l, messages[..i])
        invariant seen == existing + Tids(messages[..i])
      {
        var m := messages[i];
        assert m.tid in existing <==> KeyOf(l, m.tid) in rows;
        NextMessage(Table(rows, next), l, messages, i);
        NextRepeats(rows, l, messages, i);
        if m.tid in seen {
          if m.tid !in existing { return false, rows, next; }
          rows' := rows'[KeyOf(l, m.tid) := Refreshed(rows'[KeyOf(l, m.tid)], l, m)];
        } else {
          seen := seen + {m.tid};
          rows' := rows'[KeyOf(l, m.tid) := Inserted(next', l, m)];
          next' := next' + 1;
        }
        i := i + 1;
      }
      assert messages[..i] == messages;
      NoRepeatsAtAll(rows, l, messages);
      return true, rows', next';
    }

    /** The fence is tested twice, when the transaction begins and when the counters are
        written; in between the lease may run out. */
    method PersistScanPage(l: Lease, page: ScanPage, now: int, later: int) returns (outcome: PageOutcome)
      requires now <= later
      modifies this
      ensures outcome == if PersistOutcome(old(Contents()), l, page, now) == PagePersisted && !Holds(old(Contents()), l, later)
                         then LeaseLost else PersistOutcome(old(Contents()), l, page, now)
      ensures outcome == PagePersisted <==> PersistOutcome(old(Contents()), l, page, later) == PagePersisted
      ensures Contents() == if outcome == PagePersisted then PersistPage(old(Contents()), l, page) else old(Contents())
      ensures old(Valid() && Fits(l) && page.messages != [] && page.next.Some? && jobs[l.job].scanned + |page.messages| <= l.maxMessages) ==> Valid()
    {
      if Valid() && Fits(l) && page.messages != [] && page.next.Some? && jobs[l.job].scanned + |page.messages| <= l.maxMessages
         && Holds(Contents(), l, now) {
        PersistPageKeeps(Contents(), l, page, now);
      }
      if !(l.user in connections && ConnectedAs(connections[l.user], l.provenance)) { return LeaseLost; }
      if !(l.job in jobs && Owns(jobs[l.job], l, now)) { return LeaseLost; }
      var ok, rows, next := UpsertMessages(l, page.messages, messages, nextMessage);
      if !ok { return PersistenceFailed; }
      if !Owns(jobs[l.job], l, later) { return LeaseLost; }
      messages, nextMessage := rows, next;
      jobs := jobs[l.job := PageRow(jobs[l.job], page)];
      return PagePersisted;
    }

    // ---------- Ending a slice ----------

    method FinalizeScanJob(l: Lease, state: JobState, reason: Option<Reason>, now: int) returns (ok: bool)
      modifies this
      ensures ok == Holds(old(Contents()), l, now)
      ensures Contents() == if ok then Finalize(old(Contents()), l, state, reason, now) else old(Contents())
      ensures old(Valid() && Fits(l) && AcceptableEnd(jobs[l.job], state, reason)) ==> Valid()
    {
      if Valid() && Fits(l) && AcceptableEnd(jobs[l.job], state, reason) && Holds(Contents(), l, now) {
        FinalizeKeeps(Contents(), l, state, reason, now);
      }
      if !(l.job in jobs && Owns(jobs[l.job], l, now)) { return false; }
      jobs := jobs[l.job := FinalizeRow(jobs[l.job], state, reason, now)];
      if l.replace {
        if state == Completed && reason == Some(SourceExhausted) {
          messages := map k | k in messages && !(k.user == l.user && messages[k].marker != Some(l.job)) :: messages[k];
        }
        messages := ClearUserMarkers(messages, l.user, {l.job});
      }
      return true;
    }

    /** The markers of a job about to be cancelled go first, found by the same fence. */
    method RequeueScanJob(l: Lease, now: int) returns (ok: bool)
      modifies this
      ensures ok == Holds(old(Contents()), l, now)
      ensures Contents() == if ok then Requeue(old(Contents()), l, now) else old(Contents())
      ensures old(Valid() && Fits(l)) ==> Valid()
    {
      if Valid() && Fits(l) && Holds(Contents(), l, now) { RequeueKeeps(Contents(), l, now); }
      if l.replace && l.job in jobs && Owns(jobs[l.job], l, now) && StopSeen(jobs[l.job]) {
        messages := ClearUserMarkers(messages, l.user, {l.job});
      }
      if !(l.job in jobs && Owns(jobs[l.job], l, now)) { return false; }
      jobs := jobs[l.job := RequeueRow(jobs[l.job], now)];
      return true;
    }

    method ReleaseInterruptedScan(l: Lease, now: int) returns (ok: bool)
      modifies this
      ensures ok == HoldsIgnoringExpiry(old(Contents()), l)
      ensures Contents() == if ok then Release(old(Contents()), l, now) else old(Contents())
      ensures old(Valid() && Fits(l)) ==> Valid()
    {
      if Valid() && Fits(l) && HoldsIgnoringExpiry(Contents(), l) { ReleaseKeeps(Contents(), l, now); }
      if l.replace && l.job in jobs && OwnsIgnoringExpiry(jobs[l.job], l) && StopSeen(jobs[l.job]) {
        messages := ClearUserMarkers(messages, l.user, {l.job});
      }
      if !(l.job in jobs && OwnsIgnoringExpiry(jobs[l.job], l)) { return false; }
      jobs := jobs[l.job := ReleaseRow(jobs[l.job], now)];
      return true;
    }

    method TerminalizeExpiredStoppingJobs(now: int) returns (count: nat)
      modifies this
      ensures Contents() == TerminalizeExpired(old(Contents()), now)
      ensures count == |ExpiredStopping(old(jobs), now)|
      ensures old(Valid()) ==> Valid()
    {
      if Valid() { TerminalizeExpiredKeeps(Contents(), now); }
      hide GoodStore, Administrative, ClearMarkers;
      var ids := ExpiredStopping(jobs, now);
      messages := ClearMarkers(messages, ids);
      jobs := map id | id in jobs ::
        if jobs[id].state == Stopping && LeaseExpired(jobs[id], now) then CancelStaleRow(jobs[id].(stopRequested := true), now) else jobs[id];
      return |ids|;
    }

    /** The worker's look at the stop flag; it has lost its lease if the row is no longer its own. */
    method StopRequested(l: Lease, now: int) returns (requested: Option<bool>)
      ensures Holds(Contents(), l, now) ==> requested == Some(jobs[l.job].stopRequested)
      ensures Valid() && requested.Some? ==> Holds(Contents(), l, now)
    {
      if l.job in jobs && jobs[l.job].user == l.user && jobs[l.job].provenance == Some(l.provenance) && jobs[l.job].owner == Some(l.owner)
         && jobs[l.job].expiresAt.Some? && jobs[l.job].expiresAt.value > now {
        return Some(jobs[l.job].stopRequested);
      }
      return None;
    }

    /** The end of `process_scan_job` after a slice that raised nothing. The remaining runtime is
        looked at before the transaction begins, at `decided`. */
    method EndProcessing(v: Worker, decided: int, now: int) returns (ok: bool)
      requires v.Slice? && v.ending.Some? && v.ending.value.Ended?
      modifies this
      ensures ok == Holds(old(Contents()), v.lease, now)
      ensures Contents() == if ok then EndSlice(old(Contents()), v.lease, Disposition(v, decided), now) else old(Contents())
      ensures ok ==> v.lease.job in jobs && EndsSlice(old(jobs)[v.lease.job], v.ending.value.reason,
                                                      v.lease.maxRuntime <= decided - v.lease.startedAt, now, jobs[v.lease.job])
    {
      if Holds(Contents(), v.lease, now) { EndOfSliceLeaves(Contents(), v, decided, now); }
      hide EndsSlice, ClearUserMarkers, Swept, FinalizeRow, RequeueRow;
      var reason := v.ending.value.reason;
      var remaining := v.lease.maxRuntime - (decided - v.lease.startedAt);
      var state := Completed;
      if reason == StoppedByUser {
        state := Cancelled;
      } else if reason == SourceExhausted || reason == MessageLimitReached || reason == RuntimeLimitReached {
        state := Completed;
      } else if remaining <= 0 {
        reason := RuntimeLimitReached;
      } else {
        ok := RequeueScanJob(v.lease, now);
        return ok;
      }
      ok := FinalizeScanJob(v.lease, state, Some(reason), now);
    }

    // ---------- The connection ----------

    /** Markers first, then the jobs, found by the same condition. */
    method CancelActiveScans(user: UserId, p: Option<Provenance>, now: int)
      modifies this
      ensures Contents() == CancelBound(old(Contents()), user, p, now)
      ensures old(Valid()) ==> Valid()
    {
      if Valid() { CancelBoundKeeps(Contents(), user, p, now); }
      hide GoodStore, Administrative, ClearUserMarkers;
      var ids := BoundJobs(jobs, user, p);
      messages := ClearUserMarkers(messages, user, ids);
      jobs := map id | id in jobs ::
        if jobs[id].user == user && IsActive(jobs[id]) && (p.Some? ==> jobs[id].provenance == p)
        then CancelBoundRow(jobs[id], now) else jobs[id];
    }

    method DowngradeConnection(l: Lease, now: int)
      modifies this
      ensures Contents() == Downgrade(old(Contents()), l, now)
      ensures old(Valid()) ==> Valid()
    {
      if Valid() { DowngradeKeeps(Contents(), l, now); }
      if l.user in connections && Matches(connections[l.user], l.provenance) {
        connections := connections[l.user := Erased(connections[l.user], Disconnected)];
        CancelActiveScans(l.user, Some(l.provenance), now);
      }
    }

    method InvalidateUnreadableConnection(l: Lease)
      modifies this
      ensures Contents() == InvalidateUnreadable(old(Contents()), l)
      ensures old(Valid()) ==> Valid()
    {
      if Valid() { InvalidateUnreadableKeeps(Contents(), l); }
      if l.user in connections && ConnectedAs(connections[l.user], l.provenance) && connections[l.user].session.Some? {
        connections := connections[l.user := Erased(connections[l.user], Errored)];
      }
    }

    method PersistRefreshedSession(l: Lease, session: Cipher, now: int, later: int) returns (ok: bool)
      requires now <= later
      modifies this
      ensures ok <==> ConnectionMatches(old(Contents()), l) && Holds(old(Contents()), l, later)
      ensures Contents() == if ok then SaveSession(old(Contents()), l, session) else old(Contents())
      ensures old(Valid()) ==> Valid()
    {
      if Valid() && ConnectionMatches(Contents(), l) { SaveSessionKeeps(Contents(), l, session); }
      if !(l.user in connections && ConnectedAs(connections[l.user], l.provenance)) { return false; }
      if !(l.job in jobs && Owns(jobs[l.job], l, now)) { return false; }
      var before := connections;
      connections := connections[l.user := connections[l.user].(session := Some(session))];
      if !Owns(jobs[l.job], l, later) {
        connections := before;
        return false;
      }
      return true;
    }

    // ---------- Requests of the user ----------

    method StopScan(user: UserId, now: int) returns (id: Option<JobId>)
      modifies this
      ensures id.None? <==> !HasActiveJob(old(jobs), user)
      ensures id.None? ==> Contents() == old(Contents())
      ensures id.Some? ==> IsActiveJobOf(old(jobs), user, id.value) && Contents() == Stop(old(Contents()), id.value, now)
      ensures old(Valid()) ==> Valid()
    {
      if !HasActiveJob(jobs, user) { return None; }
      var job: JobId :| job in jobs && jobs[job].user == user && IsActive(jobs[job]);
      if Valid() { StopKeeps(Contents(), job, now); }
      var row := jobs[job].(stopRequested := true);
      if row.state == Pending || LeaseExpired(row, now) {
        row := CancelStaleRow(row, now);
        if row.replace { messages := ClearUserMarkers(messages, user, {job}); }
      } else {
        row := row.(state := Stopping);
      }
      jobs := jobs[job := row];
      return Some(job);
    }

    /** A job that can still run is returned as it is, a stale stopping job is finished off in
        a transaction of its own, and any other active job refuses the request. */
    method StartScan(id: JobId, user: UserId, pageSize: int, replace: bool, maxMessages: nat, maxRuntime: nat,
                     opens: bool, answer: IdentityAnswer, now: int) returns (reply: StartReply)
      requires id !in jobs && OneActivePerUser(jobs)
      modifies this
      ensures reply == InvalidPageSize <==> pageSize <= 0
      ensures reply == InvalidPageSize ==> Contents() == old(Contents())
      ensures pageSize > 0 ==>
                StartOutcome(old(Contents()), id, user, pageSize, replace, maxMessages, maxRuntime, opens, answer, now,
                             reply, Contents())
    {
      if pageSize <= 0 { return InvalidPageSize; }
      if HasActiveJob(jobs, user) {
        var active: JobId :| active in jobs && jobs[active].user == user && IsActive(jobs[active]);
        var job := jobs[active];
        if job.state == Pending || (job.state == Running && LeaseExpired(job, now)) {
          if job.replace != replace { return Busy; }
          return Existing(active);
        }
        if !(job.state == Stopping && LeaseExpired(job, now)) { return Busy; }
        jobs := jobs[active := CancelStaleRow(job, now)];
        if job.replace { messages := ClearUserMarkers(messages, user, {active}); }
      }
      reply := InsertJob(id, user, pageSize, replace, maxMessages, maxRuntime, opens, answer, now);
    }

    /** The second transaction of `start`: the connection is validated, the markers of earlier
        replacements are cleared and the job is inserted. */
    method InsertJob(id: JobId, user: UserId, pageSize: nat, replace: bool, maxMessages: nat, maxRuntime: nat,
                     opens: bool, answer: IdentityAnswer, now: int) returns (reply: StartReply)
      requires id !in jobs
      modifies this
      ensures Contents() == CreateJob(old(Contents()), id, user, pageSize, replace, maxMessages, maxRuntime, opens, answer, now)
      ensures reply in {Started, NotConnected, Busy} && (reply == Started <==> id in jobs)
      ensures old(Valid()) && 0 < pageSize && 0 < maxRuntime ==> Valid()
    {
      if Valid() && 0 < pageSize && 0 < maxRuntime {
        CreateJobKeeps(Contents(), id, user, pageSize, replace, maxMessages, maxRuntime, opens, answer, now);
      }
      if user !in connections { return NotConnected; }
      var effect := ValidateForScan(connections[user], opens, answer);
      if effect.reply != ReplyConnected {
        connections := connections[user := effect.row];
        return NotConnected;
      }
      if effect.row.principal.None? { return NotConnected; }
      var before := messages;
      if replace { messages := ClearAllUserMarkers(messages, user); }
      if HasActiveJob(jobs, user) {
        messages := before;
        return Busy;
      }
      connections := connections[user := effect.row];
      var p := Provenance(effect.row.principal.value, effect.row.generation);
      jobs := jobs[id := NewJob(user, pageSize, replace, p, maxMessages, maxRuntime, now)];
      return Started;
    }
  }
}
