/** The rows of the scan tables (scan_jobs, messages) and the single-row rules every
    transaction of the scan lifecycle keeps. Times are whole seconds; surrogate keys,
    owner tokens and ciphertexts are natural numbers. */
module ScanRows {
  import opened Wrappers

  type UserId = nat
  type JobId = nat
  type WorkerId = nat
  type Token = nat
  type Cipher = nat

  const SCAN_LEASE_SECONDS := 90

  /** The verified Telegram account and the generation of the connection it was verified in.
      The two columns are null together, so the pair is one optional value. */
  datatype Provenance = Provenance(principal: int, generation: nat)

  datatype JobState = Pending | Running | Stopping | Completed | Failed | Cancelled

  datatype Reason =
    | SourceExhausted
    | MessageLimitReached
    | RuntimeLimitReached
    | StoppedByUser
    | SlicePageLimit
    | SliceTimeLimit

  datatype Job = Job(
    user: UserId,
    state: JobState,
    stopRequested: bool,
    replace: bool,
    scanned: nat,
    pages: nat,
    pageSize: nat,
    maxMessages: nat,
    maxRuntime: nat,
    reason: Option<Reason>,
    provenance: Option<Provenance>,
    cursor: Option<int>,
    createdAt: int,
    startedAt: Option<int>,
    finishedAt: Option<int>,
    heartbeatAt: Option<int>,
    hasError: bool,
    owner: Option<Token>,
    expiresAt: Option<int>)

  /** The unique constraint of the messages table. Rows imported before provenance was
      recorded have no principal. */
  datatype Key = Key(user: UserId, principal: Option<int>, tid: int)

  /** A cached message. `content` is its text, `body` the other columns copied from Telegram
      on every scan; `category` and `tags` are the user's organization. */
  datatype Message = Message(
    id: nat,
    generation: Option<nat>,
    content: nat,
    body: nat,
    media: Option<nat>,
    category: nat,
    tags: set<nat>,
    marker: Option<JobId>)

  /** A normalized message of a scanned page, with the category the categorizer and the
      user's category table give it. */
  datatype Scanned = Scanned(tid: int, content: nat, body: nat, image: bool, media: Option<nat>, category: nat)

  datatype ScanPage = ScanPage(messages: seq<Scanned>, hasMore: bool, next: Option<int>)

  /** A worker's snapshot of the job it claimed. */
  datatype Lease = Lease(
    job: JobId,
    user: UserId,
    provenance: Provenance,
    pageSize: nat,
    scanned: nat,
    cursor: Option<int>,
    maxMessages: nat,
    maxRuntime: nat,
    startedAt: int,
    owner: Token,
    replace: bool)

  predicate IsActiveState(s: JobState) { s in {Pending, Running, Stopping} }

  predicate IsActive(j: Job) { IsActiveState(j.state) }

  predicate LeaseExpired(j: Job, now: int) { j.expiresAt.None? || j.expiresAt.value <= now }

  predicate Claimable(j: Job, now: int) {
    j.provenance.Some? && (j.state == Pending || (j.state == Running && LeaseExpired(j, now)))
  }

  /** The WHERE clause shared by every fenced statement of a worker. */
  predicate Owns(j: Job, l: Lease, now: int) {
    && OwnsIgnoringExpiry(j, l)
    && j.expiresAt.Some? && j.expiresAt.value > now
  }

  predicate OwnsIgnoringExpiry(j: Job, l: Lease) {
    && j.user == l.user
    && j.provenance == Some(l.provenance)
    && j.owner == Some(l.owner)
    && j.state in {Running, Stopping}
  }

  /** Single-row coherence of a scan job. */
  predicate GoodJob(j: Job) {
    && (j.owner.Some? <==> j.state in {Running, Stopping})
    && (j.expiresAt.Some? <==> j.owner.Some?)
    && (j.finishedAt.Some? <==> !IsActive(j))
    && (IsActive(j) ==> (j.stopRequested <==> j.state == Stopping) && j.reason.None?)
    && (j.hasError <==> j.state == Failed)
    && (j.state == Completed ==> j.reason in {Some(SourceExhausted), Some(MessageLimitReached), Some(RuntimeLimitReached)})
    && (j.state == Failed ==> j.reason.None?)
    && (j.state == Cancelled ==> j.stopRequested && j.reason in {None, Some(StoppedByUser)})
    && (j.owner.Some? ==> j.startedAt.Some? && j.heartbeatAt.Some? && j.provenance.Some?)
    && (j.owner.Some? ==> j.expiresAt.value == j.heartbeatAt.value + SCAN_LEASE_SECONDS)
    && 0 < j.pageSize && 0 < j.maxRuntime
    && j.scanned <= j.maxMessages
    && (j.scanned == 0 <==> j.cursor.None?)
  }

  // ---------- Row updates, one per UPDATE statement of the service ----------

  function ClearLease(j: Job): Job { j.(owner := None, expiresAt := None) }

  function NewJob(user: UserId, pageSize: nat, replace: bool, p: Provenance,
                  maxMessages: nat, maxRuntime: nat, now: int): (r: Job)
    ensures 0 < pageSize && 0 < maxRuntime ==> GoodJob(r) && IsActive(r)
  {
    Job(user, Pending, false, replace, 0, 0, pageSize, maxMessages, maxRuntime, None, Some(p), None,
        now, None, None, None, false, None, None)
  }

  function ClaimRow(j: Job, owner: Token, now: int): (r: Job)
    ensures GoodJob(j) && Claimable(j, now) ==> GoodJob(r) && !LeaseExpired(r, now)
  {
    j.(state := Running, owner := Some(owner), expiresAt := Some(now + SCAN_LEASE_SECONDS), heartbeatAt := Some(now),
       startedAt := if j.startedAt.None? then Some(now) else j.startedAt,
       finishedAt := None, hasError := false, reason := None)
  }

  /** "Scan job has no Telegram provenance." */
  function FailLegacyRow(j: Job, now: int): (r: Job)
    ensures GoodJob(j) && IsActive(j) ==> GoodJob(r)
  {
    ClearLease(j.(state := Failed, hasError := true, finishedAt := Some(now), reason := None))
  }

  function CancelStaleRow(j: Job, now: int): (r: Job)
    ensures GoodJob(j) && j.state == Stopping ==> GoodJob(r)
  {
    ClearLease(j.(state := Cancelled, reason := Some(StoppedByUser), finishedAt := Some(now)))
  }

  /** Cancellation by a change of the Telegram connection; the reason column is untouched. */
  function CancelBoundRow(j: Job, now: int): (r: Job)
    ensures GoodJob(j) && IsActive(j) ==> GoodJob(r) && !IsActive(r)
  {
    ClearLease(j.(state := Cancelled, stopRequested := true, finishedAt := Some(now)))
  }

  function StopRow(j: Job, now: int): (r: Job)
    ensures GoodJob(j) && IsActive(j) ==> GoodJob(r) && r.state in {Stopping, Cancelled}
    // Nobody runs the job exactly if it has no unexpired lease; then it is cancelled at once.
    ensures GoodJob(j) && IsActive(j) ==> (r.state == Cancelled <==> LeaseExpired(j, now))
  {
    if j.state == Pending || LeaseExpired(j, now)
    then CancelStaleRow(j.(stopRequested := true), now)
    else j.(stopRequested := true, state := Stopping)
  }

  function RenewRow(j: Job, now: int): (r: Job)
    ensures GoodJob(j) && j.owner.Some? ==> GoodJob(r)
  {
    j.(heartbeatAt := Some(now), expiresAt := Some(now + SCAN_LEASE_SECONDS))
  }

  function PageRow(j: Job, page: ScanPage): (r: Job)
    ensures GoodJob(j) && page.messages != [] && page.next.Some? && j.scanned + |page.messages| <= j.maxMessages ==> GoodJob(r)
  {
    j.(scanned := j.scanned + |page.messages|, pages := j.pages + 1, cursor := page.next)
  }

  function FinalizeRow(j: Job, state: JobState, reason: Option<Reason>, now: int): (r: Job)
    ensures GoodJob(j) && AcceptableEnd(j, state, reason) ==> GoodJob(r)
  {
    ClearLease(j.(state := state, hasError := state == Failed, reason := reason, finishedAt := Some(now)))
  }

  /** The combinations a worker finalizes with; a cancellation needs the stop flag. */
  predicate AcceptableEnd(j: Job, state: JobState, reason: Option<Reason>) {
    match state
    case Completed => reason in {Some(SourceExhausted), Some(MessageLimitReached), Some(RuntimeLimitReached)}
    case Failed => reason.None?
    case Cancelled => reason == Some(StoppedByUser) && j.stopRequested
    case _ => false
  }

  predicate StopSeen(j: Job) { j.stopRequested || j.state == Stopping }

  function RequeueRow(j: Job, now: int): (r: Job)
    ensures GoodJob(j) && j.owner.Some? ==> GoodJob(r) && (r.state == Cancelled <==> j.stopRequested)
  {
    var stop := StopSeen(j);
    ClearLease(j.(state := if stop then Cancelled else Pending,
                  reason := if stop then Some(StoppedByUser) else None,
                  finishedAt := if stop then Some(now) else None,
                  heartbeatAt := Some(now)))
  }

  /** Unlike a requeue, a release looks at the stop flag alone and keeps the heartbeat. */
  function ReleaseRow(j: Job, now: int): (r: Job)
    ensures GoodJob(j) && j.owner.Some? ==> GoodJob(r) && (r.state == Cancelled <==> StopSeen(j))
  {
    ClearLease(j.(state := if j.stopRequested then Cancelled else Pending,
                  reason := if j.stopRequested then Some(StoppedByUser) else None,
                  finishedAt := if j.stopRequested then Some(now) else None))
  }
}
