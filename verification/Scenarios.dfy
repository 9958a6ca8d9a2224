/** Concrete runs: a message deleted everywhere that comes back through a page fetched before, and
    a job that is overtaken twice by the same other job through a stale pick. */
module Scenarios {
  import opened Wrappers
  import opened ScanRows
  import opened TelegramAuth
  import opened ScanTransactions
  import opened StoreRules
  import opened Scanner
  import opened ScanProtocol
  import opened ProtocolInvariant
  import opened Fencing
  import opened SourceViews
  import opened ExactlyOnce
  import opened JobLibraries
  import opened Organization
  import opened Deletions
  import opened FairQueue

  // ---------- Connecting ----------

  function Awaiting(now: int): Connection {
    Connection(Challenged, None, Some(1), Some(2), Some(3), Some(9), Some(4), Some(now + CHALLENGE_TTL_SECONDS), false, 1)
  }

  function Online(principal: int): Connection {
    Connection(Connected, Some(principal), Some(1), Some(2), Some(3), Some(9), None, None, false, 1)
  }

  const ASK_FOR_CODE := AskStart(StartRequest(1, 2, 3, false), true, true, StartAnswer(true, false, None, Some(4), 9))

  function EnterCode(principal: int): Request { AskVerify(true, VerifyAnswer(true, SignedIn, true, Some(principal), 9)) }

  function ItIs(principal: int): IdentityAnswer { IdentityAnswer(true, true, Some(principal), 9) }

  lemma NothingToCancel(s: Store, user: UserId, now: int)
    requires forall id :: id in s.jobs ==> s.jobs[id].user != user
    ensures CancelBound(s, user, None, now) == s
  {
    assert BoundJobs(s.jobs, user, None) == {};
    assert CancelJobs(s.jobs, {}, now) == s.jobs;
    assert ClearUserMarkers(s.messages, user, {}) == s.messages;
  }

  lemma SendCode(s: World, user: UserId, now: int) returns (s': World)
    requires s.clock <= now && user !in s.store.connections && forall id :: id in s.store.jobs ==> s.store.jobs[id].user != user
    ensures s' == s.(clock := now, store := s.store.(connections := s.store.connections[user := Awaiting(now)]))
    ensures Next(s, Ask(user, ASK_FOR_CODE), s')
  {
    var row := s.store.(connections := s.store.connections[user := Awaiting(now)]);
    NothingToCancel(row, user, now);
    hide CancelBound, DoWorker, OnlyServes, Verify, Status, Revoke;
    s' := s.(clock := now, store := row);
    assert Serve(s.store, user, ASK_FOR_CODE, now) == row;
  }

  lemma CheckCode(s: World, user: UserId, principal: int, now: int) returns (s': World)
    requires s.clock <= now < s.clock + CHALLENGE_TTL_SECONDS
    requires user in s.store.connections && s.store.connections[user] == Awaiting(s.clock)
    requires forall u :: u in s.store.connections ==> s.store.connections[u].principal != Some(principal)
    ensures s' == s.(clock := now, store := s.store.(connections := s.store.connections[user := Online(principal)]),
                     bound := s.bound[(user, 1) := principal])
    ensures Next(s, Ask(user, EnterCode(principal)), s')
  {
    hide CancelBound, DoWorker, OnlyServes, Start, Status, Revoke;
    s' := s.(clock := now, store := s.store.(connections := s.store.connections[user := Online(principal)]),
             bound := s.bound[(user, 1) := principal]);
    assert !Conflicts(s.store.connections, user, Some(principal));
    assert Serve(s.store, user, EnterCode(principal), now) == s'.store;
  }

  // ---------- One job ----------

  lemma Enqueue(s: World, id: JobId, user: UserId, principal: int, now: int) returns (s': World)
    requires s.clock <= now && id !in s.store.jobs && !HasActiveJob(s.store.jobs, user)
    requires user in s.store.connections && s.store.connections[user] == Online(principal)
    requires (user, 1) in s.bound && s.bound[(user, 1)] == principal
    ensures var job := NewJob(user, 10, false, Provenance(principal, 1), s.settings.maxMessages, s.settings.maxRuntime, now);
            var listed := IdSet(Source(s, principal));
            s' == s.(clock := now, store := s.store.(jobs := s.store.jobs[id := job]), views := s.views[id := View(listed, listed)])
    ensures Next(s, StartScan(id, user, 10, false, true, ItIs(principal)), s')
  {
    hide HasActiveJob, DoWorker, OnlyServes, Source;
    var store := CreateJob(s.store, id, user, 10, false, s.settings.maxMessages, s.settings.maxRuntime, true, ItIs(principal), now);
    assert s.store.connections[user := Online(principal)] == s.store.connections;
    assert s.bound[(user, 1) := principal] == s.bound;
    s' := Launch(s, id, user, 10, false, true, ItIs(principal), now).(clock := now);
  }

  /** What the worker knows of a job it has just claimed. */
  function LeaseOn(j: Job, id: JobId, token: Token, now: int): Lease
    requires j.provenance.Some?
  {
    Lease(id, j.user, j.provenance.value, j.pageSize, j.scanned, j.cursor, j.maxMessages, j.maxRuntime,
          if j.startedAt.Some? then j.startedAt.value else now, token, j.replace)
  }

  lemma ClaimFree(s: World, w: WorkerId, id: JobId, token: Token, now: int) returns (s': World)
    requires s.clock <= now && WorkerOf(s, w).Idle? && token !in s.used
    requires id in s.store.jobs && Claimable(s.store.jobs[id], now)
    ensures s' == s.(clock := now, store := s.store.(jobs := s.store.jobs[id := ClaimRow(s.store.jobs[id], token, now)]),
                     workers := s.workers[w := Claiming(id, token)], used := s.used + {token})
    ensures Next(s, ClaimJob(w, id, token), s')
  {
    hide DoUser, ClearMarkers, ImportsNothing, KeepsHistory;
    s' := Grab(s, w, id, token, now).(clock := now);
  }

  lemma TakeClaimed(s: World, w: WorkerId, j: Job, now: int) returns (s': World)
    requires s.clock <= now && WorkerOf(s, w).Claiming? && j.provenance.Some?
    requires var v := WorkerOf(s, w); v.job in s.store.jobs && s.store.jobs[v.job] == ClaimRow(j, v.owner, s.clock)
    ensures var v := WorkerOf(s, w);
            var l := LeaseOn(j, v.job, v.owner, s.clock);
            s' == s.(clock := now, workers := s.workers[w := Slice(l, 0, 0, Offset(l.cursor), None)])
    ensures Next(s, TakeLease(w), s')
  {
    hide DoUser, ImportsNothing, KeepsHistory;
    s' := Snapshot(s, w).(clock := now);
  }

  lemma ConcludeSlice(s: World, w: WorkerId, reason: Reason, now: int) returns (s': World)
    requires s.clock <= now && Slicing(s, w) && MayConclude(s, WorkerOf(s, w), reason, now)
    ensures s' == s.(clock := now, workers := s.workers[w := WorkerOf(s, w).(ending := Some(Ended(reason)))])
    ensures Next(s, Conclude(w, reason), s')
  {
    hide DoUser, MayConclude, KeepsHistory;
    s' := s.(clock := now, workers := s.workers[w := WorkerOf(s, w).(ending := Some(Ended(reason)))]);
  }

  /** The end of a slice of a job that is not a replacement touches its row alone. */
  lemma EndHeldSlice(s: World, w: WorkerId, now: int) returns (s': World)
    requires s.clock <= now && Slicing(s, w) && WorkerOf(s, w).ending.Some? && WorkerOf(s, w).ending.value.Ended?
    requires Holds(s.store, WorkerOf(s, w).lease, now) && !WorkerOf(s, w).lease.replace
    ensures var v := WorkerOf(s, w);
            var j := s.store.jobs[v.lease.job];
            var row := match Disposition(v, now)
                       case None => RequeueRow(j, now)
                       case Some((state, reason)) => FinalizeRow(j, state, Some(reason), now);
            s' == s.(clock := now, store := s.store.(jobs := s.store.jobs[v.lease.job := row]), workers := s.workers[w := Idle])
    ensures Next(s, FinishSlice(w, now), s')
  {
    hide DoUser, KeepsHistory, OnlyScans, ImportsNothing, Disposition, FinalizeRow, RequeueRow;
    s' := Finish(s, w, now, now).(clock := now);
  }

  /** A new deployment; Telegram lists one message for account 7, and nothing for account 8. */
  const EMPTY := World(Store(map[], map[], 0, map[]), map[], 0, map[7 := [5]], Settings(10, 1000, 5), {}, map[], map[], map[], map[])

  function QueuedAt(user: UserId, principal: int, now: int): Job {
    NewJob(user, 10, false, Provenance(principal, 1), EMPTY.settings.maxMessages, EMPTY.settings.maxRuntime, now)
  }

  lemma EmptyIsInitial()
    ensures Init(EMPTY)
  {
  }

  // ---------- Overtaken twice ----------

  /** User 1 queues job 10, and then user 2 job 11. */
  lemma TwoJobs() returns (run: seq<World>, actions: seq<Action>)
    ensures IsRun(run, actions) && |actions| == 6 && run[6].clock == 1 && run[6].workers == map[] && run[6].used == {}
    ensures run[6].store.jobs == map[10 := QueuedAt(1, 7, 0), 11 := QueuedAt(2, 8, 1)] && run[6].settings == EMPTY.settings
  {
    hide Next, Init;
    EmptyIsInitial();
    var s1 := SendCode(EMPTY, 1, 0);
    var s2 := CheckCode(s1, 1, 7, 0);
    var s3 := Enqueue(s2, 10, 1, 7, 0);
    var s4 := SendCode(s3, 2, 1);
    var s5 := CheckCode(s4, 2, 8, 1);
    var s6 := Enqueue(s5, 11, 2, 8, 1);
    run := [EMPTY, s1, s2, s3, s4, s5, s6];
    actions := [Ask(1, ASK_FOR_CODE), Ask(1, EnterCode(7)), StartScan(10, 1, 10, false, true, ItIs(7)),
                Ask(2, ASK_FOR_CODE), Ask(2, EnterCode(8)), StartScan(11, 2, 10, false, true, ItIs(8))];
  }

  function Queue(first: Job): map<JobId, Job> { map[10 := first, 11 := QueuedAt(2, 8, 1)] }

  function Claimed(): Job { ClaimRow(QueuedAt(1, 7, 0), 100, 2) }

  /** One worker runs a slice of job 10, and another claims the job again. */
  predicate ClaimsTwice(run: seq<World>, actions: seq<Action>) {
    && IsRun(run, actions) && |run| == 12 && |actions| == 11
    && actions[6] == ClaimJob(0, 10, 100) && actions[7] == TakeLease(0) && actions[8] == Conclude(0, SliceTimeLimit)
    && actions[9] == FinishSlice(0, 5) && actions[10] == ClaimJob(1, 10, 101)
    && (forall n :: 6 <= n <= 11 ==> run[n].clock == n - 5)
    && run[6].store.jobs == Queue(QueuedAt(1, 7, 0)) && run[10].store.jobs == Queue(RequeueRow(Claimed(), 5))
    && forall n :: 7 <= n <= 9 ==> run[n].store.jobs == Queue(Claimed())
  }

  lemma SliceAndReclaim(s6: World) returns (s7: World, s8: World, s9: World, s10: World, s11: World)
    requires s6.clock == 1 && s6.workers == map[] && s6.used == {} && s6.store.jobs == Queue(QueuedAt(1, 7, 0)) && s6.settings == EMPTY.settings
    ensures Next(s6, ClaimJob(0, 10, 100), s7) && Next(s7, TakeLease(0), s8) && Next(s8, Conclude(0, SliceTimeLimit), s9)
    ensures Next(s9, FinishSlice(0, 5), s10) && Next(s10, ClaimJob(1, 10, 101), s11)
    ensures s7.clock == 2 && s8.clock == 3 && s9.clock == 4 && s10.clock == 5 && s11.clock == 6
    ensures s7.store.jobs == s8.store.jobs == s9.store.jobs == Queue(Claimed()) && s10.store.jobs == Queue(RequeueRow(Claimed(), 5))
  {
    hide Next;
    s7 := ClaimFree(s6, 0, 10, 100, 2);
    s8 := TakeClaimed(s7, 0, QueuedAt(1, 7, 0), 3);
    s9 := ConcludeSlice(s8, 0, SliceTimeLimit, 4);
    s10 := EndHeldSlice(s9, 0, 5);
    s11 := ClaimFree(s10, 1, 10, 101, 6);
  }

  lemma TwoClaims() returns (run: seq<World>, actions: seq<Action>)
    ensures ClaimsTwice(run, actions)
  {
    hide Next, Init, Queue, Claimed, RequeueRow;
    var front, acts := TwoJobs();
    FirstInQueue();
    var s7, s8, s9, s10, s11 := SliceAndReclaim(front[6]);
    run := front + [s7, s8, s9, s10, s11];
    actions := acts + [ClaimJob(0, 10, 100), TakeLease(0), Conclude(0, SliceTimeLimit), FinishSlice(0, 5), ClaimJob(1, 10, 101)];
    RunsJoin(front, acts, run, actions);
  }

  lemma FirstInQueue()
    ensures Queue(QueuedAt(1, 7, 0)) == map[10 := QueuedAt(1, 7, 0), 11 := QueuedAt(2, 8, 1)]
  {
  }

  lemma RunsJoin(front: seq<World>, acts: seq<Action>, run: seq<World>, actions: seq<Action>)
    requires IsRun(front, acts) && front <= run && acts <= actions && |run| == |actions| + 1
    requires forall i :: |acts| <= i < |actions| ==> Next(run[i], actions[i], run[i + 1])
    ensures IsRun(run, actions)
  {
    hide Next, Init;
    forall i | 0 <= i < |actions| ensures Next(run[i], actions[i], run[i + 1]) {
      if i < |acts| { assert Next(front[i], acts[i], front[i + 1]); }
    }
  }

  lemma SecondWaits(run: seq<World>, actions: seq<Action>)
    requires ClaimsTwice(run, actions)
    ensures WaitsFrom(run, actions, 6, 11, 11)
  {
    hide IsRun, Queue, Claimed, RequeueRow;
    SecondIsPending(QueuedAt(1, 7, 0));
    SecondIsPending(Claimed());
    SecondIsPending(RequeueRow(Claimed(), 5));
  }

  lemma SecondIsPending(first: Job)
    ensures 11 in Queue(first) && Queue(first)[11].state == Pending
  {
  }

  lemma FirstIsTakenTwice(run: seq<World>, actions: seq<Action>)
    requires ClaimsTwice(run, actions)
    ensures Taken(run, actions, 6, 11) == 2
    ensures forall n :: 6 <= n < 11 ==> (TakesAt(run, actions, n) <==> n == 6 || n == 10)
  {
    hide IsRun, WaitingSince;
    assert Taken(run, actions, 6, 7) == 1;
    assert Taken(run, actions, 6, 8) == 1;
    assert Taken(run, actions, 6, 9) == 1;
    assert Taken(run, actions, 6, 10) == 1;
  }

  /** Both claims were picked before the first of them. */
  lemma BothPickedFirst(run: seq<World>, actions: seq<Action>)
    requires ClaimsTwice(run, actions)
    ensures OneClaimPerPick(run, actions, map[6 := Pick(6, 2), 10 := Pick(6, 2)], 6, 11, 11)
  {
    hide IsRun;
    FirstIsTakenTwice(run, actions);
    FirstIsPicked(run[6].store.jobs);
    hide ConsidersBoth, TakesAt;
  }

  lemma FirstIsPicked(jobs: map<JobId, Job>)
    requires jobs == Queue(QueuedAt(1, 7, 0))
    ensures ConsidersBoth(jobs, 10, 2, 11) && Before(jobs, 11) == {10}
  {
  }

  /** Two workers pick job 10, the first in the queue. One runs a slice of it, and then the other
      claims it again from its old pick: job 11 is overtaken twice by the only job in front of it. */
  lemma OvertakenTwice() returns (run: seq<World>, actions: seq<Action>, picks: map<nat, Pick>)
    ensures WaitsFrom(run, actions, 6, 11, 11) && OneClaimPerPick(run, actions, picks, 6, 11, 11)
    ensures |Before(run[6].store.jobs, 11)| == 1 && Taken(run, actions, 6, 11) == 2
  {
    hide ClaimsTwice, WaitsFrom, OneClaimPerPick, Before, Taken;
    run, actions := TwoClaims();
    picks := map[6 := Pick(6, 2), 10 := Pick(6, 2)];
    SecondWaits(run, actions);
    FirstIsTakenTwice(run, actions);
    BothPickedFirst(run, actions);
    OnlyFirstIsBefore(run, actions);
  }

  lemma OnlyFirstIsBefore(run: seq<World>, actions: seq<Action>)
    requires ClaimsTwice(run, actions)
    ensures 11 in run[6].store.jobs && |Before(run[6].store.jobs, 11)| == 1
  {
    hide IsRun;
    FirstIsPicked(run[6].store.jobs);
  }

  // ---------- A deleted message comes back ----------

  const LETTER := Scanned(5, 20, 30, false, None, 0)
  const ROW := Key(1, Some(7), 5)
  const MINE := Provenance(7, 1)

  /** User 1 connects and queues a job, and worker 0 claims it. */
  lemma FirstJob() returns (run: seq<World>, actions: seq<Action>)
    ensures IsHonestRun(run, actions) && |actions| == 5
    ensures var job := QueuedAt(1, 7, 0);
            run[5] == EMPTY.(store := Store(map[10 := ClaimRow(job, 100, 0)], map[], 0, map[1 := Online(7)]), used := {100},
                             workers := map[0 := Slice(LeaseOn(job, 10, 100, 0), 0, 0, 0, None)],
                             views := map[10 := View({5}, {5})], bound := map[(1, 1) := 7])
  {
    hide Next, Init;
    EmptyIsInitial();
    var s1 := SendCode(EMPTY, 1, 0);
    var s2 := CheckCode(s1, 1, 7, 0);
    var s3 := Enqueue(s2, 10, 1, 7, 0);
    var s4 := ClaimFree(s3, 0, 10, 100, 0);
    var s5 := TakeClaimed(s4, 0, QueuedAt(1, 7, 0), 0);
    assert IdSet([5]) == {5} && Source(s2, 7) == [5];
    assert s5.views == map[10 := View({5}, {5})] && s5.bound == map[(1, 1) := 7] && s5.used == {100};
    assert s5.store.connections == map[1 := Online(7)] && s5.store.jobs == map[10 := ClaimRow(QueuedAt(1, 7, 0), 100, 0)];
    assert s5.workers == map[0 := Slice(LeaseOn(QueuedAt(1, 7, 0), 10, 100, 0), 0, 0, 0, None)];
    run := [EMPTY, s1, s2, s3, s4, s5];
    actions := [Ask(1, ASK_FOR_CODE), Ask(1, EnterCode(7)), StartScan(10, 1, 10, false, true, ItIs(7)), ClaimJob(0, 10, 100), TakeLease(0)];
  }

  /** It imports the one message listed, and the job completes. */
  lemma FirstImport() returns (run: seq<World>, actions: seq<Action>)
    ensures IsHonestRun(run, actions) && |actions| == 7 && run[7].clock == 0 && WorkerOf(run[7], 0) == Idle && run[7].used == {100}
    ensures var s := run[7];
            && s.sources == EMPTY.sources && s.settings == EMPTY.settings && s.bound == map[(1, 1) := 7]
            && s.store.connections == map[1 := Online(7)]
            && s.store.messages.Keys == {ROW} && s.store.messages[ROW].generation == Some(1)
            && s.store.jobs.Keys == {10} && s.store.jobs[10].state == Completed && s.committed.Keys == {10}
  {
    hide Next, Init, Honest;
    run, actions := FirstJob();
    var s6 := CommitLetter(run[5], 100, 10);
    HonestRunGoesOn(run, actions, CommitPage(0, [LETTER], 1), s6);
    run, actions := run + [s6], actions + [CommitPage(0, [LETTER], 1)];
    var s7 := EndHeldSlice(s6, 0, 0);
    OthersAreHonest(s6, FinishSlice(0, 0));
    HonestRunGoesOn(run, actions, FinishSlice(0, 0), s7);
    run, actions := run + [s7], actions + [FinishSlice(0, 0)];
  }

  lemma OthersAreHonest(s: World, a: Action)
    requires !a.CommitPage? && !a.Conclude?
    ensures Honest(s, a)
  {
  }

  /** Worker 0 holds job `id` of user 1 at its beginning. */
  predicate HoldsNewJob(s: World, id: JobId, token: Token) {
    && s.clock == 0 && s.settings == EMPTY.settings
    && id in s.store.jobs && s.store.jobs[id] == ClaimRow(QueuedAt(1, 7, 0), token, 0)
    && WorkerOf(s, 0) == Slice(LeaseOn(QueuedAt(1, 7, 0), id, token, 0), 0, 0, 0, None)
  }

  lemma LetterPage(v: Worker)
    requires MayFetch(v) && v.offset == 0 && v.lease.pageSize == 10 && v.local == 0 && Budget(v.lease) == 10
    ensures Capacity(v) == 10 && BuildPage([LETTER], 10).messages == [LETTER]
    ensures PageFor(v, [LETTER], 1) == ScanPage([LETTER], false, Some(5))
    ensures AfterPage(v, [LETTER], 1) == v.(local := 1, pages := v.pages + 1, offset := 5, ending := Some(Ended(SourceExhausted)))
  {
  }

  lemma LetterRow(l: Lease)
    requires l.user == 1 && l.provenance == MINE
    ensures UpsertAll(Table(map[], 0), l, [LETTER]) == Table(map[ROW := Inserted(0, l, LETTER)], 1)
    ensures !RepeatsNewMessage(map[], l, [LETTER])
  {
    assert [LETTER][..0] == [];
  }

  lemma LetterIsAnswer()
    ensures Ids([LETTER]) == [5] == Fetch([5], 0, 11) && IsAnswer([5], View({5}, {5}), 0, 11)
  {
  }

  /** It commits the page with the letter. */
  lemma CommitLetter(s: World, token: Token, id: JobId) returns (s': World)
    requires HoldsNewJob(s, id, token) && 1 in s.store.connections && s.store.connections[1] == Online(7)
    requires s.store.messages == map[] && s.store.nextMessage == 0 && Committed(s, id) == [] && ViewOf(s, id) == View({5}, {5})
    ensures Next(s, CommitPage(0, [LETTER], 1), s') && Honest(s, CommitPage(0, [LETTER], 1))
    ensures var v := WorkerOf(s, 0);
            s' == s.(store := s.store.(messages := map[ROW := Inserted(0, v.lease, LETTER)], nextMessage := 1,
                                       jobs := s.store.jobs[id := PageRow(s.store.jobs[id], ScanPage([LETTER], false, Some(5)))]),
                     committed := s.committed[id := [5]],
                     workers := s.workers[0 := v.(local := 1, pages := 1, offset := 5, ending := Some(Ended(SourceExhausted)))])
  {
    hide DoUser, KeepsHistory, OnlyScans, BuildPage, CutPage, UpsertAll, AfterPage, PageFor, IsAnswer, Ids, RepeatsNewMessage;
    LetterPage(WorkerOf(s, 0));
    LetterRow(WorkerOf(s, 0).lease);
    LetterIsAnswer();
    assert [] + [5] == [5];
    s' := Commit(s, 0, [LETTER], 1, 0);
  }

  const DELETE_LETTER := DeleteRemotely(1, MINE, {ROW}, true, ItIs(7))

  /** A second job of the user fetches the message again. */
  lemma SecondJob() returns (run: seq<World>, actions: seq<Action>)
    ensures IsHonestRun(run, actions) && |actions| == 10
    ensures var s := run[10];
            && s.clock == 0 && WorkerOf(s, 0).Slice? && WorkerOf(s, 0).lease.user == 1 && WorkerOf(s, 0).lease.provenance == MINE
            && HasFetched(s, 0, [LETTER], ROW, 0)
            && 1 in s.store.connections && s.store.connections[1] == Online(7)
            && ROW in s.store.messages && s.store.messages[ROW].generation == Some(1)
  {
    hide Next, Init, Honest, HasFetched, HasActiveJob;
    run, actions := FirstImport();
    NobodyIsActive(run[7].store.jobs);
    var s8 := Enqueue(run[7], 11, 1, 7, 0);
    var s9 := ClaimFree(s8, 0, 11, 101, 0);
    var s10 := TakeClaimed(s9, 0, QueuedAt(1, 7, 0), 0);
    LetterIsFetched(s10);
    var a, b, c := StartScan(11, 1, 10, false, true, ItIs(7)), ClaimJob(0, 11, 101), TakeLease(0);
    OthersAreHonest(run[7], a);
    OthersAreHonest(s8, b);
    OthersAreHonest(s9, c);
    HonestRunGoesOn(run, actions, a, s8);
    HonestRunGoesOn(run + [s8], actions + [a], b, s9);
    HonestRunGoesOn(run + [s8] + [s9], actions + [a] + [b], c, s10);
    run, actions := run + [s8] + [s9] + [s10], actions + [a] + [b] + [c];
  }

  lemma NobodyIsActive(jobs: map<JobId, Job>)
    requires jobs.Keys == {10} && jobs[10].state == Completed
    ensures !HasActiveJob(jobs, 1)
  {
  }

  lemma LetterIsFetched(s: World)
    requires HoldsNewJob(s, 11, 101) && s.sources == map[7 := [5]]
    ensures HasFetched(s, 0, [LETTER], ROW, 0)
  {
    hide HoldsNewJob, BuildPage, PageKeys, Ids, Fetch, Holds, Capacity, MayFetch;
    NewJobIsHeld(s, 11, 101);
    LetterFits();
    LetterKeys(WorkerOf(s, 0).lease);
  }

  lemma LetterFits()
    ensures BuildPage([LETTER], 10).messages == [LETTER] && Ids([LETTER]) == Fetch([5], 0, 11)
  {
  }

  lemma NewJobIsHeld(s: World, id: JobId, token: Token)
    requires HoldsNewJob(s, id, token)
    ensures var v := WorkerOf(s, 0);
            && MayFetch(v) && Capacity(v) == 10 && v.offset == 0
            && v.lease.user == 1 && v.lease.provenance == MINE && Holds(s.store, v.lease, 0)
  {
  }

  lemma LetterKeys(l: Lease)
    requires l.user == 1 && l.provenance == MINE
    ensures ROW in PageKeys(l, [LETTER])
  {
    assert KeyOf(l, [LETTER][0].tid) == ROW;
  }

  /** The user deletes it everywhere. */
  lemma DeleteLetter(s: World) returns (s': World)
    requires s.clock == 0 && 1 in s.store.connections && s.store.connections[1] == Online(7)
    requires ROW in s.store.messages && s.store.messages[ROW].generation == Some(1)
    ensures Next(s, DELETE_LETTER, s') && s'.clock == 0 && DeletesEverywhere(s, DELETE_LETTER, ROW)
  {
    hide DoWorker, DeleteEverywhere, Relist, Forget;
    s' := EraseRemotely(s, 1, MINE, {ROW}, true, ItIs(7), 0).(clock := 0);
  }

  /** A run from a new deployment, honest throughout, in which a message the user deletes here and
      in Telegram is in the library one step later, and in Telegram no more. */
  lemma DeletedMessageReturns() returns (run: seq<World>, actions: seq<Action>)
    ensures IsHonestRun(run, actions) && |actions| == 12 && DeletesEverywhere(run[10], actions[10], ROW)
    ensures ROW in run[10].store.messages && ROW !in run[11].store.messages && ROW in run[12].store.messages
    ensures !IsListed(run[11], ROW) && !IsListed(run[12], ROW)
  {
    hide Next, Init, Honest, HasFetched, IsListed, DeletesEverywhere;
    var run10, actions10 := SecondJob();
    var s11 := DeleteLetter(run10[10]);
    OthersAreHonest(run10[10], DELETE_LETTER);
    HonestRunGoesOn(run10, actions10, DELETE_LETTER, s11);
    var run11, actions11 := run10 + [s11], actions10 + [DELETE_LETTER];
    var b, s12 := StalePagesBringBack(run11, actions11, 0, [LETTER], ROW);
    run, actions := run11 + [s12], actions11 + [b];
  }
}
