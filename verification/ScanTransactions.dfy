/** The committing transactions of telegram/service.py as functions on the whole store.
    Each function is one transaction: it happens entirely or not at all. */
module ScanTransactions {
  import opened Wrappers
  import opened ScanRows
  import opened TelegramAuth

  datatype Store = Store(
    jobs: map<JobId, Job>,
    messages: map<Key, Message>,
    nextMessage: nat,
    connections: map<UserId, Connection>)

  // ---------- Replacement markers ----------

  predicate MarkedBy(m: Message, ids: set<JobId>) { m.marker.Some? && m.marker.value in ids }

  function ClearMarkers(messages: map<Key, Message>, ids: set<JobId>): map<Key, Message> {
    map k | k in messages :: if MarkedBy(messages[k], ids) then messages[k].(marker := None) else messages[k]
  }

  /** The same with the tenant filter most statements carry. */
  function ClearUserMarkers(messages: map<Key, Message>, user: UserId, ids: set<JobId>): map<Key, Message> {
    map k | k in messages ::
      if k.user == user && MarkedBy(messages[k], ids) then messages[k].(marker := None) else messages[k]
  }

  function ClearAllUserMarkers(messages: map<Key, Message>, user: UserId): map<Key, Message> {
    map k | k in messages :: if k.user == user then messages[k].(marker := None) else messages[k]
  }

  // ---------- Cancelling the active jobs of a user ----------

  /** The active jobs of a user; with a provenance, only those bound to it. */
  function BoundJobs(jobs: map<JobId, Job>, user: UserId, p: Option<Provenance>): set<JobId> {
    set id | id in jobs && jobs[id].user == user && IsActive(jobs[id]) && (p.Some? ==> jobs[id].provenance == p)
  }

  function CancelJobs(jobs: map<JobId, Job>, ids: set<JobId>, now: int): map<JobId, Job> {
    map id | id in jobs :: if id in ids then CancelBoundRow(jobs[id], now) else jobs[id]
  }

  function CancelBound(s: Store, user: UserId, p: Option<Provenance>, now: int): (s': Store)
    ensures s'.connections == s.connections
  {
    var ids := BoundJobs(s.jobs, user, p);
    s.(messages := ClearUserMarkers(s.messages, user, ids), jobs := CancelJobs(s.jobs, ids, now))
  }

  // ---------- Scan start and stop ----------

  /** First transaction of `start`: a stale stopping job is finished off. */
  function CancelStale(s: Store, id: JobId, now: int): (s': Store)
    requires id in s.jobs
    ensures s'.connections == s.connections
  {
    var job := s.jobs[id];
    s.(jobs := s.jobs[id := CancelStaleRow(job, now)],
       messages := if job.replace then ClearUserMarkers(s.messages, job.user, {id}) else s.messages)
  }

  predicate HasActiveJob(jobs: map<JobId, Job>, user: UserId) {
    exists id :: id in jobs && jobs[id].user == user && IsActive(jobs[id])
  }

  /** Second transaction of `start`: the connection is validated and the job inserted. The
      partial unique index rejects a second active job, and then nothing is kept. */
  function CreateJob(s: Store, id: JobId, user: UserId, pageSize: nat, replace: bool,
                     maxMessages: nat, maxRuntime: nat, opens: bool, answer: IdentityAnswer, now: int): Store
  {
    if user !in s.connections then s
    else
      var effect := ValidateForScan(s.connections[user], opens, answer);
      if effect.reply != ReplyConnected then s.(connections := s.connections[user := effect.row])
      else if HasActiveJob(s.jobs, user) || effect.row.principal.None? then s
      else
        var p := Provenance(effect.row.principal.value, effect.row.generation);
        s.(connections := s.connections[user := effect.row],
           messages := if replace then ClearAllUserMarkers(s.messages, user) else s.messages,
           jobs := s.jobs[id := NewJob(user, pageSize, replace, p, maxMessages, maxRuntime, now)])
  }

  function Stop(s: Store, id: JobId, now: int): (s': Store)
    requires id in s.jobs
    ensures s'.connections == s.connections
  {
    var job := s.jobs[id];
    var job' := StopRow(job, now);
    s.(jobs := s.jobs[id := job'],
       messages := if job'.state == Cancelled && job.replace
                   then ClearUserMarkers(s.messages, job.user, {id}) else s.messages)
  }

  // ---------- Claim, renewal ----------

  /** What the three UPDATE statements of a claim do to the job's row. */
  function ClaimedRow(j: Job, owner: Token, now: int): Job {
    if IsActive(j) && j.provenance.None? then FailLegacyRow(j, now)
    else if j.state == Stopping && LeaseExpired(j, now) then CancelStaleRow(j, now)
    else if Claimable(j, now) then ClaimRow(j, owner, now)
    else j
  }

  function Claim(s: Store, id: JobId, owner: Token, now: int): (s': Store)
    ensures s'.connections == s.connections && s'.nextMessage == s.nextMessage
  {
    if id !in s.jobs then s
    else
      var job' := ClaimedRow(s.jobs[id], owner, now);
      s.(jobs := s.jobs[id := job'],
         messages := if job'.state in {Failed, Cancelled} then ClearMarkers(s.messages, {id}) else s.messages)
  }

  /** The snapshot a claim returns after its commit, if the job still has this owner. */
  function ReadLease(s: Store, id: JobId, owner: Token): Option<Lease> {
    if id !in s.jobs || s.jobs[id].owner != Some(owner) || s.jobs[id].provenance.None? || s.jobs[id].startedAt.None?
    then None
    else
      var j := s.jobs[id];
      Some(Lease(id, j.user, j.provenance.value, j.pageSize, j.scanned, j.cursor, j.maxMessages, j.maxRuntime,
                 j.startedAt.value, owner, j.replace))
  }

  predicate Holds(s: Store, l: Lease, now: int) { l.job in s.jobs && Owns(s.jobs[l.job], l, now) }

  predicate HoldsIgnoringExpiry(s: Store, l: Lease) { l.job in s.jobs && OwnsIgnoringExpiry(s.jobs[l.job], l) }

  function Renew(s: Store, l: Lease, now: int): (s': Store)
    requires l.job in s.jobs
    ensures s'.connections == s.connections
  {
    s.(jobs := s.jobs[l.job := RenewRow(s.jobs[l.job], now)])
  }

  // ---------- Page persistence ----------

  datatype Table = Table(rows: map<Key, Message>, next: nat)

  function KeyOf(l: Lease, tid: int): Key { Key(l.user, Some(l.provenance.principal), tid) }

  function Refreshed(row: Message, l: Lease, m: Scanned): Message {
    row.(generation := Some(l.provenance.generation), content := m.content, body := m.body,
         media := if m.media.Some? then m.media else if !m.image then None else row.media,
         marker := if l.replace then Some(l.job) else row.marker)
  }

  function Inserted(id: nat, l: Lease, m: Scanned): Message {
    Message(id, Some(l.provenance.generation), m.content, m.body, m.media, m.category, {}, if l.replace then Some(l.job) else None)
  }

  function Upsert(t: Table, l: Lease, m: Scanned): Table {
    var k := KeyOf(l, m.tid);
    if k in t.rows then t.(rows := t.rows[k := Refreshed(t.rows[k], l, m)])
    else Table(t.rows[k := Inserted(t.next, l, m)], t.next + 1)
  }

  function UpsertAll(t: Table, l: Lease, messages: seq<Scanned>): Table {
    if messages == [] then t
    else Upsert(UpsertAll(t, l, messages[..|messages| - 1]), l, messages[|messages| - 1])
  }

  /** A message that appears twice in a page and had no row before the page: the second
      lookup in the prefetched rows fails and the page is rolled back. */
  predicate RepeatsNewMessage(rows: map<Key, Message>, l: Lease, messages: seq<Scanned>) {
    exists i, j :: 0 <= i < j < |messages| && messages[i].tid == messages[j].tid && KeyOf(l, messages[i].tid) !in rows
  }

  predicate ConnectionMatches(s: Store, l: Lease) {
    l.user in s.connections && ConnectedAs(s.connections[l.user], l.provenance)
  }

  datatype PageOutcome = PagePersisted | LeaseLost | PersistenceFailed

  function PersistOutcome(s: Store, l: Lease, page: ScanPage, now: int): PageOutcome {
    if !ConnectionMatches(s, l) || !Holds(s, l, now) then LeaseLost
    else if RepeatsNewMessage(s.messages, l, page.messages) then PersistenceFailed
    else PagePersisted
  }

  function PersistPage(s: Store, l: Lease, page: ScanPage): (s': Store)
    requires l.job in s.jobs
    ensures s'.connections == s.connections
  {
    var t := UpsertAll(Table(s.messages, s.nextMessage), l, page.messages);
    s.(messages := t.rows, nextMessage := t.next, jobs := s.jobs[l.job := PageRow(s.jobs[l.job], page)])
  }

  // ---------- Ending a slice ----------

  /** What a finalization of a replacement job leaves of one user's rows. */
  function Swept(messages: map<Key, Message>, user: UserId, id: JobId): map<Key, Message> {
    map k | k in messages && (k.user == user ==> messages[k].marker == Some(id)) :: messages[k]
  }

  function Finalize(s: Store, l: Lease, state: JobState, reason: Option<Reason>, now: int): (s': Store)
    requires l.job in s.jobs
    ensures s'.connections == s.connections
  {
    var kept := if l.replace && state == Completed && reason == Some(SourceExhausted)
                then Swept(s.messages, l.user, l.job) else s.messages;
    s.(jobs := s.jobs[l.job := FinalizeRow(s.jobs[l.job], state, reason, now)],
       messages := if l.replace then ClearUserMarkers(kept, l.user, {l.job}) else kept)
  }

  function Requeue(s: Store, l: Lease, now: int): (s': Store)
    requires l.job in s.jobs
    ensures s'.connections == s.connections
  {
    s.(jobs := s.jobs[l.job := RequeueRow(s.jobs[l.job], now)],
       messages := if l.replace && StopSeen(s.jobs[l.job])
                   then ClearUserMarkers(s.messages, l.user, {l.job}) else s.messages)
  }

  /** The last transaction of a slice: a terminal state and its reason, or a requeue. */
  function EndSlice(s: Store, l: Lease, disposition: Option<(JobState, Reason)>, now: int): (s': Store)
    requires l.job in s.jobs
    ensures s'.connections == s.connections
  {
    match disposition
    case None => Requeue(s, l, now)
    case Some((state, reason)) => Finalize(s, l, state, Some(reason), now)
  }

  function Release(s: Store, l: Lease, now: int): (s': Store)
    requires l.job in s.jobs
    ensures s'.connections == s.connections
  {
    s.(jobs := s.jobs[l.job := ReleaseRow(s.jobs[l.job], now)],
       messages := if l.replace && StopSeen(s.jobs[l.job])
                   then ClearUserMarkers(s.messages, l.user, {l.job}) else s.messages)
  }

  function ExpiredStopping(jobs: map<JobId, Job>, now: int): set<JobId> {
    set id | id in jobs && jobs[id].state == Stopping && LeaseExpired(jobs[id], now)
  }

  function TerminalizeExpired(s: Store, now: int): (s': Store)
    ensures s'.connections == s.connections
    ensures ExpiredStopping(s'.jobs, now) == {}
    ensures forall id :: id in s.jobs && id !in ExpiredStopping(s.jobs, now) ==> id in s'.jobs && s'.jobs[id] == s.jobs[id]
  {
    var ids := ExpiredStopping(s.jobs, now);
    s.(messages := ClearMarkers(s.messages, ids),
       jobs := map id | id in s.jobs ::
         if id in ids then CancelStaleRow(s.jobs[id].(stopRequested := true), now) else s.jobs[id])
  }

  // ---------- Connection changes made by a worker ----------

  function SaveSession(s: Store, l: Lease, session: Cipher): Store
    requires l.user in s.connections
  {
    s.(connections := s.connections[l.user := s.connections[l.user].(session := Some(session))])
  }

  predicate ConnectionBelongsTo(s: Store, l: Lease) {
    l.user in s.connections && Matches(s.connections[l.user], l.provenance)
  }

  /** Telegram no longer honours the session: fenced by provenance, not by the lease. */
  function Downgrade(s: Store, l: Lease, now: int): Store {
    if !ConnectionBelongsTo(s, l) then s
    else
      CancelBound(s.(connections := s.connections[l.user := Erased(s.connections[l.user], Disconnected)]),
                  l.user, Some(l.provenance), now)
  }

  /** The worker cannot open the stored secrets. Jobs are left alone. */
  function InvalidateUnreadable(s: Store, l: Lease): Store {
    if !ConnectionMatches(s, l) || s.connections[l.user].session.None? then s
    else s.(connections := s.connections[l.user := Erased(s.connections[l.user], Errored)])
  }

  // ---------- Requests of the user ----------

  datatype Request =
    | AskStatus(opens: bool)
    | AskStart(start: StartRequest, sessionOpens: bool, phoneOpens: bool, startAnswer: StartAnswer)
    | AskVerify(secretsOpen: bool, verifyAnswer: VerifyAnswer)
    | AskDisconnect

  predicate Conflicts(connections: map<UserId, Connection>, user: UserId, identity: Option<int>) {
    identity.Some? && exists u :: u in connections && u != user && connections[u].principal == identity
  }

  function RequestEffect(c: Connection, connections: map<UserId, Connection>, user: UserId, r: Request, now: int): Effect {
    match r
    case AskStatus(opens) => Status(c, opens, now)
    case AskStart(start, opens, phoneOpens, answer) =>
      Start(c, start, opens, phoneOpens, answer, Conflicts(connections, user, answer.identity), now)
    case AskVerify(opens, answer) => Verify(c, opens, answer, Conflicts(connections, user, answer.identity), now)
    case AskDisconnect => Revoke(c)
  }

  /** Telegram does not call a client authorized that was given no session. */
  predicate Plausible(connections: map<UserId, Connection>, user: UserId, r: Request) {
    r.AskStart? && r.startAnswer.authorized ==> user in connections && ReusesSession(connections[user], r.sessionOpens)
  }

  function Apply(s: Store, user: UserId, effect: Effect, now: int): Store {
    var s' := s.(connections := s.connections[user := effect.row]);
    if effect.cancelled then CancelBound(s', user, None, now) else s'
  }

  /** A request about the user's connection. Without a row only `start` creates one, and
      only if it commits; a disconnect still cancels the active scans. */
  function Serve(s: Store, user: UserId, r: Request, now: int): Store {
    if user in s.connections then Apply(s, user, RequestEffect(s.connections[user], s.connections, user, r, now), now)
    else if r.AskDisconnect? then CancelBound(s, user, None, now)
    else if r.AskStart? then
      var effect := RequestEffect(FRESH, s.connections, user, r, now);
      if effect.reply.Rejected? then s else Apply(s, user, effect, now)
    else s
  }

  function DeleteMessages(s: Store, user: UserId, keys: set<Key>): (s': Store)
    ensures s'.connections == s.connections
  {
    s.(messages := map k | k in s.messages && !(k in keys && k.user == user) :: s.messages[k])
  }

  /** Deletes cached messages of one provenance in Telegram and then locally. */
  function DeleteEverywhere(s: Store, user: UserId, p: Provenance, keys: set<Key>, opens: bool,
                            answer: IdentityAnswer, now: int): Store
  {
    if user !in s.connections then s
    else
      var effect := DeleteRemote(s.connections[user], p, opens, answer);
      var s' := Apply(s, user, effect, now);
      if effect.reply == ReplyConnected then DeleteMessages(s', user, keys) else s'
  }

  function Recategorize(s: Store, k: Key, category: nat): (s': Store)
    requires k in s.messages
    ensures s'.connections == s.connections
  {
    s.(messages := s.messages[k := s.messages[k].(category := category)])
  }

  function Retag(s: Store, k: Key, tags: set<nat>): (s': Store)
    requires k in s.messages
    ensures s'.connections == s.connections
  {
    s.(messages := s.messages[k := s.messages[k].(tags := tags)])
  }

  /** The text of a cached message is the user's to edit, too. */
  function EditText(s: Store, k: Key, content: nat): (s': Store)
    requires k in s.messages
    ensures s'.connections == s.connections
  {
    s.(messages := s.messages[k := s.messages[k].(content := content)])
  }
}
