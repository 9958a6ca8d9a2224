/** The leased scan protocol as a transition system: one store, any number of workers that
    may crash between any two transactions, users acting at the same time, and a clock that
    never goes back. One action is one transaction, or one decision of a worker. */
module ScanProtocol {
  import opened Wrappers
  import opened ScanRows
  import opened TelegramAuth
  import opened ScanTransactions
  import opened Scanner

  /** How a slice ended: with a reason, or with an error while persisting a page. */
  datatype Ending = Ended(reason: Reason) | Broke

  /** `local` and `pages` are the scanner's own progress, `offset` its next offset. */
  datatype Worker =
    | Idle
    | Claiming(job: JobId, owner: Token)
    | Slice(lease: Lease, local: nat, pages: nat, offset: int, ending: Option<Ending>)

  datatype Settings = Settings(maxMessages: nat, maxRuntime: nat, slicePages: nat)

  /** `sources` is what Telegram lists for each account now. The last five fields are history:
      tokens ever used, the ids each job committed in order, the ids the user deleted after a
      job committed them, what each job could have seen of its source from its creation to its
      end, and the principal each generation of a connection was bound to. */
  datatype World = World(
    store: Store,
    workers: map<WorkerId, Worker>,
    clock: int,
    sources: map<int, seq<int>>,
    settings: Settings,
    used: set<Token>,
    committed: map<JobId, seq<int>>,
    removed: map<JobId, set<int>>,
    views: map<JobId, View>,
    bound: map<(UserId, nat), int>)

  datatype Action =
    // users
    | FinishStale(id: JobId)
    | StartScan(id: JobId, user: UserId, pageSize: nat, replace: bool, opens: bool, answer: IdentityAnswer)
    | StopScan(id: JobId)
    | Ask(user: UserId, request: Request)
    | DeleteLocal(user: UserId, keys: set<Key>)
    | DeleteRemotely(user: UserId, provenance: Provenance, keys: set<Key>, opens: bool, answer: IdentityAnswer)
    | SetCategory(key: Key, category: nat)
    | SetTags(key: Key, tags: set<nat>)
    | EditContent(key: Key, content: nat)
    // messages sent, or deleted in another Telegram client
    | TelegramChanges(principal: int, ids: seq<int>)
    // workers
    | Sweep
    | ClaimJob(w: WorkerId, id: JobId, token: Token)
    | TakeLease(w: WorkerId)
    | Heartbeat(w: WorkerId)
    | CommitPage(w: WorkerId, raw: seq<Scanned>, keep: nat)
    | Conclude(w: WorkerId, reason: Reason)
    | LookForStop(w: WorkerId)
    | SaveRefreshedSession(w: WorkerId, session: Cipher)
    | LoseAuthorization(w: WorkerId)
    | FindUnreadable(w: WorkerId)
    | FinishSlice(w: WorkerId, decided: int)
    | FailSlice(w: WorkerId)
    | ReleaseSlice(w: WorkerId)
    | Crash(w: WorkerId)

  function Source(s: World, principal: int): seq<int> {
    if principal in s.sources then s.sources[principal] else []
  }

  function Committed(s: World, id: JobId): seq<int> { if id in s.committed then s.committed[id] else [] }

  function Removed(s: World, id: JobId): set<int> { if id in s.removed then s.removed[id] else {} }

  function ViewOf(s: World, id: JobId): View { if id in s.views then s.views[id] else View({}, {}) }

  function WorkerOf(s: World, w: WorkerId): Worker { if w in s.workers then s.workers[w] else Idle }

  predicate Slicing(s: World, w: WorkerId) { WorkerOf(s, w).Slice? }

  /** The scanner's own budget: what the job had left when it was claimed. */
  function Budget(l: Lease): int { l.maxMessages - l.scanned }

  // ---------- What the scanner does with one answer of the client ----------

  predicate MayFetch(v: Worker) {
    v.Slice? && v.ending.None? && v.local < Budget(v.lease)
  }

  function Capacity(v: Worker): nat
    requires MayFetch(v)
  {
    PageCapacity(v.lease.pageSize, Budget(v.lease) - v.local)
  }

  function PageFor(v: Worker, raw: seq<Scanned>, keep: nat): ScanPage
    requires MayFetch(v) && keep <= |BuildPage(raw, Capacity(v)).messages|
  {
    CutPage(BuildPage(raw, Capacity(v)), keep)
  }

  predicate IsCut(v: Worker, raw: seq<Scanned>, keep: nat)
    requires MayFetch(v)
  {
    keep < |BuildPage(raw, Capacity(v)).messages|
  }

  /** The scanner's bookkeeping after a page was persisted. */
  function AfterPage(v: Worker, raw: seq<Scanned>, keep: nat): (v': Worker)
    requires MayFetch(v) && keep <= |BuildPage(raw, Capacity(v)).messages|
    ensures v'.Slice? && v'.lease == v.lease
  {
    var page := PageFor(v, raw, keep);
    var next := if page.next.Some? then page.next.value else v.offset;
    v.(local := v.local + |page.messages|, pages := v.pages + 1, offset := next,
       ending := if IsCut(v, raw, keep) then Some(Ended(SliceTimeLimit))
                 else if !page.hasMore || next == v.offset then Some(Ended(SourceExhausted))
                 else None)
  }

  predicate MayConclude(s: World, v: Worker, reason: Reason, now: int)
    requires v.Slice?
  {
    match reason
    case SourceExhausted => MayFetch(v)
    case MessageLimitReached => v.ending.None? && Budget(v.lease) <= v.local
    case SlicePageLimit => v.ending.None? && s.settings.slicePages <= v.pages
    case SliceTimeLimit => v.ending != Some(Broke)
    case RuntimeLimitReached => v.ending != Some(Broke) && v.lease.maxRuntime <= now - v.lease.startedAt
    case StoppedByUser => false
  }

  /** The disposition of a slice that ended, decided at `now`: a terminal state and its reason,
      or a requeue. */
  function Disposition(v: Worker, now: int): Option<(JobState, Reason)>
    requires v.Slice? && v.ending.Some? && v.ending.value.Ended?
  {
    var reason := v.ending.value.reason;
    if reason == StoppedByUser then Some((Cancelled, StoppedByUser))
    else if reason in {SourceExhausted, MessageLimitReached, RuntimeLimitReached} then Some((Completed, reason))
    else if v.lease.maxRuntime <= now - v.lease.startedAt then Some((Completed, RuntimeLimitReached))
    else None
  }

  // ---------- Actions ----------

  predicate Enabled(s: World, a: Action, now: int) {
    var jobs := s.store.jobs;
    match a
    case FinishStale(id) => id in jobs && jobs[id].state == Stopping && LeaseExpired(jobs[id], now)
    case StartScan(id, user, pageSize, _, _, _) => id !in jobs && 0 < pageSize
    case StopScan(id) => id in jobs && IsActive(jobs[id])
    case Ask(user, request) => Plausible(s.store.connections, user, request)
    case DeleteLocal(_, _) => true
    case DeleteRemotely(user, p, keys, _, _) =>
      forall k :: k in keys ==>
        && k in s.store.messages && k.user == user && k.principal == Some(p.principal)
        && s.store.messages[k].generation == Some(p.generation)
    case SetCategory(key, _) => key in s.store.messages
    case SetTags(key, _) => key in s.store.messages
    case EditContent(key, _) => key in s.store.messages
    case TelegramChanges(_, ids) => Descending(ids)
    case Sweep => true
    case ClaimJob(w, _, token) => WorkerOf(s, w).Idle? && token !in s.used
    case TakeLease(w) => WorkerOf(s, w).Claiming?
    case Heartbeat(w) => Slicing(s, w)
    case CommitPage(w, raw, keep) =>
      MayFetch(WorkerOf(s, w)) && raw != [] && keep <= |BuildPage(raw, Capacity(WorkerOf(s, w))).messages|
    case Conclude(w, reason) => Slicing(s, w) && MayConclude(s, WorkerOf(s, w), reason, now)
    case LookForStop(w) => Slicing(s, w) && WorkerOf(s, w).ending.None?
    case SaveRefreshedSession(w, _) => Slicing(s, w)
    case LoseAuthorization(w) => Slicing(s, w)
    case FindUnreadable(w) => Slicing(s, w)
    case FinishSlice(w, decided) =>
      Slicing(s, w) && WorkerOf(s, w).ending.Some? && WorkerOf(s, w).ending.value.Ended? && decided <= now
    case FailSlice(w) => Slicing(s, w)
    case ReleaseSlice(w) => Slicing(s, w)
    case Crash(_) => true
  }

  predicate Exhausted(v: Worker) { v.Slice? && v.ending == Some(Ended(SourceExhausted)) }

  /** The slice ended for a reason that completes the job. */
  predicate Completes(v: Worker) {
    && v.Slice? && v.ending.Some? && v.ending.value.Ended?
    && (v.ending.value.reason.SourceExhausted? || v.ending.value.reason.MessageLimitReached? || v.ending.value.reason.RuntimeLimitReached?)
  }

  /** What no action of a worker touches. */
  predicate KeepsHistory(s: World, s': World) {
    && s'.bound == s.bound && s'.removed == s.removed && s'.settings == s.settings && s'.clock == s.clock
    && s'.sources == s.sources && s'.views == s.views
  }

  /** A worker's action leaves connections, other workers and what users do alone. */
  ghost predicate OnlyScans(s: World, w: WorkerId, s': World) {
    && s'.store.connections == s.store.connections && KeepsHistory(s, s')
    && forall u :: u != w ==> WorkerOf(s', u) == WorkerOf(s, u)
  }

  /** Beyond that, nothing is imported, and the worker does not come to think that the job is
      complete. */
  ghost predicate ImportsNothing(s: World, w: WorkerId, s': World) {
    && OnlyScans(s, w, s') && s'.committed == s.committed
    && (Completes(WorkerOf(s', w)) ==> WorkerOf(s', w) == WorkerOf(s, w))
  }

  /** A user's action leaves the workers and their history alone. */
  predicate OnlyServes(s: World, s': World) {
    && s'.workers == s.workers && s'.used == s.used && s'.committed == s.committed && s'.clock == s.clock
    && s'.settings == s.settings
  }

  function Set(s: World, w: WorkerId, v: Worker): World { s.(workers := s.workers[w := v]) }

  /** The key of the row a message of the job's source has in the library of its user. */
  function LibraryKey(j: Job, t: int): Key {
    Key(j.user, if j.provenance.Some? then Some(j.provenance.value.principal) else None, t)
  }

  /** Records, for every active job of the user, which ids it committed are now deleted. */
  function Forget(s: World, user: UserId, keys: set<Key>): map<JobId, set<int>> {
    map id | id in s.store.jobs ::
      if s.store.jobs[id].user == user && IsActive(s.store.jobs[id])
      then Removed(s, id) + (set t | t in Committed(s, id) && LibraryKey(s.store.jobs[id], t) in keys)
      else Removed(s, id)
  }

  /** What active jobs bound to `principal` could have seen, after Telegram lists `ids`. */
  function Watch(s: World, principal: int, ids: seq<int>): map<JobId, View> {
    map id | id in s.store.jobs ::
      var j, view := s.store.jobs[id], ViewOf(s, id);
      if IsActive(j) && j.provenance.Some? && j.provenance.value.principal == principal
      then View(view.always * IdSet(ids), view.ever + IdSet(ids))
      else view
  }

  /** Telegram lists `ids` for `principal` from now on. */
  function Relist(s: World, principal: int, ids: seq<int>): (s': World)
    ensures s'.store == s.store && OnlyServes(s, s')
  {
    s.(sources := s.sources[principal := ids], views := Watch(s, principal, ids))
  }

  function Without(ids: seq<int>, gone: set<int>): seq<int> {
    if ids == [] then []
    else
      var rest := Without(ids[..|ids| - 1], gone);
      if ids[|ids| - 1] in gone then rest else rest + [ids[|ids| - 1]]
  }

  /** What a job created now could see: its source as it is. */
  function FirstView(s: World, store: Store, id: JobId): View {
    if id in store.jobs && store.jobs[id].provenance.Some?
    then View(IdSet(Source(s, store.jobs[id].provenance.value.principal)), IdSet(Source(s, store.jobs[id].provenance.value.principal)))
    else View({}, {})
  }

  /** Telegram accepted the deletion, so the source itself loses messages. */
  predicate DeletesRemotely(s: World, user: UserId, p: Provenance, opens: bool, answer: IdentityAnswer) {
    user in s.store.connections && DeleteRemote(s.store.connections[user], p, opens, answer).reply == ReplyConnected
  }

  function Remember(bound: map<(UserId, nat), int>, connections: map<UserId, Connection>, user: UserId)
    : map<(UserId, nat), int>
  {
    if user in connections && connections[user].principal.Some?
    then bound[(user, connections[user].generation) := connections[user].principal.value]
    else bound
  }

  function WithStore(s: World, store: Store, user: UserId): World {
    s.(store := store, bound := Remember(s.bound, store.connections, user))
  }

  function Commit(s: World, w: WorkerId, raw: seq<Scanned>, keep: nat, now: int): (s': World)
    requires MayFetch(WorkerOf(s, w)) && keep <= |BuildPage(raw, Capacity(WorkerOf(s, w))).messages|
    ensures OnlyScans(s, w, s') && s'.used == s.used
  {
    var v := WorkerOf(s, w);
    var page := PageFor(v, raw, keep);
    if page.messages == [] then Set(s, w, v.(ending := Some(Ended(SliceTimeLimit))))
    else
      match PersistOutcome(s.store, v.lease, page, now)
      case LeaseLost => Set(s, w, Idle)
      case PersistenceFailed => Set(s, w, v.(ending := Some(Broke)))
      case PagePersisted =>
        Set(s, w, AfterPage(v, raw, keep))
          .(store := PersistPage(s.store, v.lease, page),
            committed := s.committed[v.lease.job := Committed(s, v.lease.job) + Ids(page.messages)])
  }

  /** The remaining runtime was looked at earlier than the lease. */
  function Finish(s: World, w: WorkerId, decided: int, now: int): (s': World)
    requires Slicing(s, w) && WorkerOf(s, w).ending.Some? && WorkerOf(s, w).ending.value.Ended?
    ensures ImportsNothing(s, w, s') && s'.used == s.used && s'.store.nextMessage == s.store.nextMessage
  {
    var v := WorkerOf(s, w);
    if !Holds(s.store, v.lease, now) then Set(s, w, Idle)
    else
      Set(s, w, Idle).(store := EndSlice(s.store, v.lease, Disposition(v, decided), now))
  }

  function Fail(s: World, w: WorkerId, now: int): (s': World)
    requires Slicing(s, w)
    ensures ImportsNothing(s, w, s') && s'.used == s.used && s'.store.nextMessage == s.store.nextMessage
  {
    var lease := WorkerOf(s, w).lease;
    if Holds(s.store, lease, now) then Set(s, w, Idle).(store := Finalize(s.store, lease, Failed, None, now))
    else Set(s, w, Idle)
  }

  function GiveBack(s: World, w: WorkerId, now: int): (s': World)
    requires Slicing(s, w)
    ensures ImportsNothing(s, w, s') && s'.used == s.used && s'.store.nextMessage == s.store.nextMessage
  {
    var lease := WorkerOf(s, w).lease;
    if HoldsIgnoringExpiry(s.store, lease) then Set(s, w, Idle).(store := Release(s.store, lease, now))
    else Set(s, w, Idle)
  }

  function Beat(s: World, w: WorkerId, now: int): (s': World)
    requires Slicing(s, w)
    ensures ImportsNothing(s, w, s') && s'.used == s.used && s'.store.nextMessage == s.store.nextMessage
  {
    var lease := WorkerOf(s, w).lease;
    if Holds(s.store, lease, now) then s.(store := Renew(s.store, lease, now)) else Set(s, w, Idle)
  }

  function Refresh(s: World, w: WorkerId, session: Cipher, now: int): (s': World)
    requires Slicing(s, w)
    ensures KeepsHistory(s, s') && s'.committed == s.committed && s'.used == s.used
  {
    var lease := WorkerOf(s, w).lease;
    if ConnectionMatches(s.store, lease) && Holds(s.store, lease, now)
    then s.(store := SaveSession(s.store, lease, session))
    else Set(s, w, Idle)
  }

  function ReadStop(s: World, w: WorkerId, now: int): (s': World)
    requires Slicing(s, w)
    ensures ImportsNothing(s, w, s') && s'.used == s.used && s'.store.nextMessage == s.store.nextMessage
  {
    var v := WorkerOf(s, w);
    if !Holds(s.store, v.lease, now) then Set(s, w, Idle)
    else if s.store.jobs[v.lease.job].stopRequested then Set(s, w, v.(ending := Some(Ended(StoppedByUser))))
    else s
  }

  function Snapshot(s: World, w: WorkerId): (s': World)
    requires WorkerOf(s, w).Claiming?
    ensures ImportsNothing(s, w, s') && s'.used == s.used && s'.store.nextMessage == s.store.nextMessage
  {
    var v := WorkerOf(s, w);
    Set(s, w, match ReadLease(s.store, v.job, v.owner)
              case None => Idle
              case Some(lease) => Slice(lease, 0, 0, Offset(lease.cursor), None))
  }

  function Grab(s: World, w: WorkerId, id: JobId, token: Token, now: int): (s': World)
    ensures ImportsNothing(s, w, s')
  {
    hide Claim;
    var store := Claim(s.store, id, token, now);
    Set(s, w, if id in store.jobs && store.jobs[id].owner == Some(token) then Claiming(id, token) else Idle)
      .(store := store, used := s.used + {token})
  }

  function Launch(s: World, id: JobId, user: UserId, pageSize: nat, replace: bool, opens: bool,
                  answer: IdentityAnswer, now: int): (s': World)
    ensures OnlyServes(s, s')
  {
    var store := CreateJob(s.store, id, user, pageSize, replace, s.settings.maxMessages, s.settings.maxRuntime, opens, answer, now);
    WithStore(s, store, user).(views := if id in store.jobs then s.views[id := FirstView(s, store, id)] else s.views)
  }

  function Answer(s: World, user: UserId, request: Request, now: int): (s': World)
    ensures OnlyServes(s, s')
  {
    WithStore(s, Serve(s.store, user, request, now), user)
  }

  function Erase(s: World, user: UserId, keys: set<Key>): (s': World)
    ensures OnlyServes(s, s')
  {
    s.(store := DeleteMessages(s.store, user, keys), removed := Forget(s, user, keys))
  }

  function EraseRemotely(s: World, user: UserId, p: Provenance, keys: set<Key>, opens: bool,
                         answer: IdentityAnswer, now: int): (s': World)
    ensures OnlyServes(s, s')
  {
    var s1 := WithStore(s, DeleteEverywhere(s.store, user, p, keys, opens, answer, now), user);
    if DeletesRemotely(s, user, p, opens, answer) then
      var s2 := Relist(s, p.principal, Without(Source(s, p.principal), set k | k in keys :: k.tid));
      s1.(removed := Forget(s, user, keys), sources := s2.sources, views := s2.views)
    else s1
  }

  function DoUser(s: World, a: Action, now: int): (s': World)
    requires Enabled(s, a, now)
    ensures OnlyServes(s, s')
  {
    match a
    case FinishStale(id) => s.(store := CancelStale(s.store, id, now))
    case StartScan(id, user, pageSize, replace, opens, answer) => Launch(s, id, user, pageSize, replace, opens, answer, now)
    case StopScan(id) => s.(store := Stop(s.store, id, now))
    case Ask(user, request) => Answer(s, user, request, now)
    case DeleteLocal(user, keys) => Erase(s, user, keys)
    case DeleteRemotely(user, p, keys, opens, answer) => EraseRemotely(s, user, p, keys, opens, answer, now)
    case SetCategory(key, category) => s.(store := Recategorize(s.store, key, category))
    case SetTags(key, tags) => s.(store := Retag(s.store, key, tags))
    case EditContent(key, content) => s.(store := EditText(s.store, key, content))
    case TelegramChanges(principal, ids) => Relist(s, principal, ids)
    case _ => s
  }

  function DoWorker(s: World, a: Action, now: int): (s': World)
    requires Enabled(s, a, now)
    ensures KeepsHistory(s, s')
    ensures a.SaveRefreshedSession? || a.LoseAuthorization? || a.FindUnreadable? || s'.store.connections == s.store.connections
    ensures a.CommitPage? || s'.committed == s.committed
    ensures a.ClaimJob? || s'.used == s.used
  {
    hide Claim, Renew, EndSlice, Finalize, Release, PersistPage, PersistOutcome, TerminalizeExpired, BuildPage, AfterPage, Plausible,
         ReadLease, Holds, HoldsIgnoringExpiry, MayConclude, Disposition, Commit, Finish, Fail, GiveBack, Beat, ReadStop, Snapshot, Grab,
         Refresh, Downgrade, InvalidateUnreadable;
    match a
    case Sweep => s.(store := TerminalizeExpired(s.store, now))
    case ClaimJob(w, id, token) => Grab(s, w, id, token, now)
    case TakeLease(w) => Snapshot(s, w)
    case Heartbeat(w) => Beat(s, w, now)
    case CommitPage(w, raw, keep) => Commit(s, w, raw, keep, now)
    case Conclude(w, reason) => Set(s, w, WorkerOf(s, w).(ending := Some(Ended(reason))))
    case LookForStop(w) => ReadStop(s, w, now)
    case SaveRefreshedSession(w, session) => Refresh(s, w, session, now)
    case LoseAuthorization(w) => s.(store := Downgrade(s.store, WorkerOf(s, w).lease, now))
    case FindUnreadable(w) => s.(store := InvalidateUnreadable(s.store, WorkerOf(s, w).lease))
    case FinishSlice(w, decided) => Finish(s, w, decided, now)
    case FailSlice(w) => Fail(s, w, now)
    case ReleaseSlice(w) => GiveBack(s, w, now)
    case Crash(w) => Set(s, w, Idle)
    case _ => s
  }

  predicate IsUserAction(a: Action) {
    a.FinishStale? || a.StartScan? || a.StopScan? || a.Ask? || a.DeleteLocal? || a.DeleteRemotely? || a.SetCategory? || a.SetTags?
    || a.EditContent? || a.TelegramChanges?
  }

  function Do(s: World, a: Action, now: int): World
    requires Enabled(s, a, now)
  {
    if IsUserAction(a) then DoUser(s, a, now) else DoWorker(s, a, now)
  }

  predicate Next(s: World, a: Action, s': World) {
    && s.clock <= s'.clock
    && Enabled(s, a, s'.clock)
    && s' == Do(s, a, s'.clock).(clock := s'.clock)
  }

  /** The store of a new deployment: no connections, and at most rows imported before
      provenance was recorded, which carry no marker. */
  predicate Init(s: World) {
    && (forall id :: id in s.store.jobs ==> LegacyJob(s.store.jobs[id], s.clock))
    && (forall a, b :: a in s.store.jobs && b in s.store.jobs && s.store.jobs[a].user == s.store.jobs[b].user ==> a == b)
    && (forall k :: k in s.store.messages ==>
          k.principal.None? && s.store.messages[k].marker.None? && s.store.messages[k].generation.None?
          && s.store.messages[k].id < s.store.nextMessage)
    && (forall k, k' :: k in s.store.messages && k' in s.store.messages && k != k' ==>
          s.store.messages[k].id != s.store.messages[k'].id)
    && s.store.connections == map[] && s.workers == map[]
    && s.used == {} && s.committed == map[] && s.removed == map[] && s.views == map[] && s.bound == map[]
    && 0 < s.settings.maxMessages && 0 < s.settings.maxRuntime
    && (forall p :: p in s.sources ==> Descending(s.sources[p]))
  }

  /** A job queued before provenance was recorded. */
  predicate LegacyJob(j: Job, clock: int) {
    && GoodJob(j) && j.state == Pending && j.provenance.None? && j.scanned == 0
    && j.createdAt <= clock && (j.heartbeatAt.Some? ==> j.heartbeatAt.value <= clock)
  }

  /** A run: worlds joined by the actions between them. */
  predicate IsRun(run: seq<World>, actions: seq<Action>) {
    && |run| == |actions| + 1
    && Init(run[0])
    && forall i :: 0 <= i < |actions| ==> Next(run[i], actions[i], run[i + 1])
  }
}
