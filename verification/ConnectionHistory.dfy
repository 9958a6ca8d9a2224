/** Generations of a Telegram connection over whole runs: a generation never falls, is bound
    to at most one principal, and every job and every imported row carries a bound pair. */
module ConnectionHistory {
  import opened Wrappers
  import opened ScanRows
  import opened TelegramAuth
  import opened ScanTransactions
  import opened StoreRules
  import opened Scanner
  import opened ScanProtocol
  import opened ProtocolInvariant
  import opened Fencing

  function RowOrFresh(connections: map<UserId, Connection>, user: UserId): Connection {
    if user in connections then connections[user] else FRESH
  }

  /** At most the user's row changed, by a transition of the connection. */
  predicate ConnectionStep(connections: map<UserId, Connection>, connections': map<UserId, Connection>, user: UserId) {
    connections' == connections
    || (user in connections' && connections' == connections[user := connections'[user]]
        && GenerationStep(RowOrFresh(connections, user), connections'[user]))
  }

  /** The history agrees with the rows: it knows every bound principal, nothing about a
      generation to come, and nothing about the generation of a pending challenge. */
  predicate HistoryFits(bound: map<(UserId, nat), int>, connections: map<UserId, Connection>) {
    && (forall u :: u in connections && connections[u].principal.Some? ==>
          (u, connections[u].generation) in bound && bound[(u, connections[u].generation)] == connections[u].principal.value)
    && (forall x :: x in bound ==> x.0 in connections && x.1 <= connections[x.0].generation)
    && (forall u :: u in connections && connections[u].state == Challenged ==> (u, connections[u].generation) !in bound)
  }

  predicate Extends(bound: map<(UserId, nat), int>, bound': map<(UserId, nat), int>) {
    forall x :: x in bound ==> x in bound' && bound'[x] == bound[x]
  }

  predicate Knows(bound: map<(UserId, nat), int>, user: UserId, p: Provenance) {
    (user, p.generation) in bound && bound[(user, p.generation)] == p.principal
  }

  /** A transition never rebinds a generation. */
  lemma BindingExtends(bound: map<(UserId, nat), int>, connections: map<UserId, Connection>,
                       connections': map<UserId, Connection>, user: UserId)
    requires HistoryFits(bound, connections) && ConnectionStep(connections, connections', user)
    requires forall u :: u in connections ==> Coherent(connections[u])
    requires forall u :: u in connections' ==> Coherent(connections'[u])
    ensures var bound' := Remember(bound, connections', user); Extends(bound, bound') && HistoryFits(bound', connections')
  {
    var bound' := Remember(bound, connections', user);
    if connections' != connections {
      var c, c' := RowOrFresh(connections, user), connections'[user];
      assert c'.principal.Some? && (user, c'.generation) in bound ==> bound[(user, c'.generation)] == c'.principal.value;
    } else if user in connections && connections[user].principal.Some? {
      assert bound' == bound;
    }
  }

  // ---------- What each transaction does to the connections ----------

  lemma ServeSteps(s: Store, user: UserId, r: Request, now: int)
    requires GoodStore(s)
    ensures ConnectionStep(s.connections, Serve(s, user, r, now).connections, user)
  {
    var c := RowOrFresh(s.connections, user);
    assert Coherent(c);
    RequestSteps(c, s.connections, user, r, now);
    hide CancelBound, RequestEffect, GoodStore, GenerationStep, Coherent;
  }

  lemma RequestSteps(c: Connection, connections: map<UserId, Connection>, user: UserId, r: Request, now: int)
    requires Coherent(c)
    ensures GenerationStep(c, RequestEffect(c, connections, user, r, now).row)
  {
    hide Status, Start, Verify, Conflicts;
  }

  lemma CreateJobSteps(s: Store, id: JobId, user: UserId, pageSize: nat, replace: bool, maxMessages: nat,
                       maxRuntime: nat, opens: bool, answer: IdentityAnswer, now: int)
    requires GoodStore(s)
    ensures ConnectionStep(s.connections, CreateJob(s, id, user, pageSize, replace, maxMessages, maxRuntime, opens, answer, now).connections, user)
  {
    hide ClearAllUserMarkers, HasActiveJob;
  }

  lemma DeleteEverywhereSteps(s: Store, user: UserId, p: Provenance, keys: set<Key>, opens: bool, answer: IdentityAnswer, now: int)
    requires GoodStore(s)
    ensures ConnectionStep(s.connections, DeleteEverywhere(s, user, p, keys, opens, answer, now).connections, user)
  {
    hide CancelJobs, BoundJobs, ClearUserMarkers;
  }

  /** The principal of at most one row changed, and only by being erased. */
  predicate BindsNothing(connections: map<UserId, Connection>, connections': map<UserId, Connection>, user: UserId) {
    connections' == connections
    || (user in connections && user in connections' && connections' == connections[user := connections'[user]]
        && (connections'[user].principal.None? ||
            (connections'[user].principal == connections[user].principal && connections'[user].generation == connections[user].generation)))
  }

  lemma WorkerSteps(s: Store, l: Lease, session: Cipher, now: int)
    requires GoodStore(s)
    ensures ConnectionStep(s.connections, Downgrade(s, l, now).connections, l.user)
    ensures ConnectionStep(s.connections, InvalidateUnreadable(s, l).connections, l.user)
    ensures ConnectionMatches(s, l) ==> ConnectionStep(s.connections, SaveSession(s, l, session).connections, l.user)
  {
    hide CancelBound;
  }

  /** A worker never binds: it refreshes the session of its own connection or erases it. */
  lemma WorkersBindNothing(s: Store, l: Lease, session: Cipher, now: int)
    ensures BindsNothing(s.connections, Downgrade(s, l, now).connections, l.user)
    ensures BindsNothing(s.connections, InvalidateUnreadable(s, l).connections, l.user)
    ensures ConnectionMatches(s, l) ==> BindsNothing(s.connections, SaveSession(s, l, session).connections, l.user)
  {
    hide CancelBound;
  }

  lemma ErasingFits(bound: map<(UserId, nat), int>, connections: map<UserId, Connection>,
                    connections': map<UserId, Connection>, user: UserId)
    requires HistoryFits(bound, connections)
    requires ConnectionStep(connections, connections', user) && BindsNothing(connections, connections', user)
    ensures HistoryFits(bound, connections')
  {
  }

  // ---------- What each action does to the connections ----------

  predicate AboutConnection(a: Action) { a.Ask? || a.StartScan? || a.DeleteRemotely? }

  predicate ChangesConnection(a: Action) { a.SaveRefreshedSession? || a.LoseAuthorization? || a.FindUnreadable? }

  /** The user whose connection an action may change. */
  function Subject(s: World, a: Action): UserId {
    match a
    case Ask(user, _) => user
    case StartScan(_, user, _, _, _, _) => user
    case DeleteRemotely(user, _, _, _, _) => user
    case SaveRefreshedSession(w, _) => if Slicing(s, w) then WorkerOf(s, w).lease.user else 0
    case LoseAuthorization(w) => if Slicing(s, w) then WorkerOf(s, w).lease.user else 0
    case FindUnreadable(w) => if Slicing(s, w) then WorkerOf(s, w).lease.user else 0
    case _ => 0
  }

  lemma AnswerStep(s: World, user: UserId, r: Request, now: int)
    requires GoodStore(s.store)
    ensures var s' := Answer(s, user, r, now);
            ConnectionStep(s.store.connections, s'.store.connections, user) && s'.bound == Remember(s.bound, s'.store.connections, user)
  {
    ServeSteps(s.store, user, r, now);
    hide Serve, GoodStore, ConnectionStep, Remember;
  }

  lemma LaunchStep(s: World, a: Action, now: int)
    requires GoodStore(s.store) && a.StartScan?
    ensures var s' := Launch(s, a.id, a.user, a.pageSize, a.replace, a.opens, a.answer, now);
            ConnectionStep(s.store.connections, s'.store.connections, a.user) && s'.bound == Remember(s.bound, s'.store.connections, a.user)
  {
    CreateJobSteps(s.store, a.id, a.user, a.pageSize, a.replace, s.settings.maxMessages, s.settings.maxRuntime, a.opens, a.answer, now);
    hide CreateJob, GoodStore, ConnectionStep, Remember;
  }

  lemma EraseRemotelyStep(s: World, a: Action, now: int)
    requires GoodStore(s.store) && a.DeleteRemotely?
    ensures var s' := EraseRemotely(s, a.user, a.provenance, a.keys, a.opens, a.answer, now);
            ConnectionStep(s.store.connections, s'.store.connections, a.user) && s'.bound == Remember(s.bound, s'.store.connections, a.user)
  {
    hide DeleteEverywhere, DeletesRemotely, Forget, GoodStore, ConnectionStep, Remember, OnlyServes, Relist, Without;
    DeleteEverywhereSteps(s.store, a.user, a.provenance, a.keys, a.opens, a.answer, now);
  }

  lemma RequestStep(s: World, a: Action, now: int)
    requires GoodStore(s.store) && Enabled(s, a, now) && AboutConnection(a)
    ensures var s' := DoUser(s, a, now);
            ConnectionStep(s.store.connections, s'.store.connections, a.user) && s'.bound == Remember(s.bound, s'.store.connections, a.user)
  {
    hide GoodStore, Answer, Launch, EraseRemotely, Erase, ConnectionStep, Remember;
    match a {
      case Ask(user, r) => AnswerStep(s, user, r, now);
      case StartScan(_, _, _, _, _, _) => LaunchStep(s, a, now);
      case DeleteRemotely(_, _, _, _, _) => EraseRemotelyStep(s, a, now);
      case _ =>
    }
  }

  predicate Erases(connections: map<UserId, Connection>, connections': map<UserId, Connection>, user: UserId) {
    ConnectionStep(connections, connections', user) && BindsNothing(connections, connections', user)
  }

  lemma WorkerConnectionStep(s: World, a: Action, now: int)
    requires GoodStore(s.store) && Enabled(s, a, now) && ChangesConnection(a)
    ensures Erases(s.store.connections, DoWorker(s, a, now).store.connections, Subject(s, a))
  {
    hide GoodStore, ConnectionStep, BindsNothing, SaveSession, Downgrade, InvalidateUnreadable, ConnectionMatches, Holds, KeepsHistory,
         Plausible, MayConclude, BuildPage, Disposition;
    var l := WorkerOf(s, a.w).lease;
    WorkerSteps(s.store, l, if a.SaveRefreshedSession? then a.session else 0, now);
    WorkersBindNothing(s.store, l, if a.SaveRefreshedSession? then a.session else 0, now);
    NoStepErases(s.store.connections, l.user);
  }

  lemma NoStepErases(connections: map<UserId, Connection>, user: UserId)
    ensures ConnectionStep(connections, connections, user) && BindsNothing(connections, connections, user)
  {
  }

  lemma UserElsewhere(s: World, a: Action, now: int)
    requires Enabled(s, a, now) && IsUserAction(a) && !AboutConnection(a)
    ensures DoUser(s, a, now).store.connections == s.store.connections && DoUser(s, a, now).bound == s.bound
  {
    hide CancelStale, Stop, DeleteMessages, Recategorize, Retag, Forget;
  }

  lemma SubjectOfRequest(s: World, a: Action)
    requires AboutConnection(a)
    ensures Subject(s, a) == a.user
  {
  }

  lemma StoreIsGood(s: World)
    requires Inv(s)
    ensures GoodStore(s.store)
  {
  }

  lemma ConnectionsStep(s: World, a: Action, s': World)
    requires Inv(s) && Next(s, a, s')
    ensures ConnectionStep(s.store.connections, s'.store.connections, Subject(s, a))
    ensures if AboutConnection(a) then s'.bound == Remember(s.bound, s'.store.connections, Subject(s, a))
            else s'.bound == s.bound && BindsNothing(s.store.connections, s'.store.connections, Subject(s, a))
  {
    hide Inv, GoodStore, Enabled, DoUser, DoWorker, ConnectionStep, BindsNothing, OnlyServes, Remember, Subject;
    StoreIsGood(s);
    if AboutConnection(a) {
      RequestStep(s, a, s'.clock);
      SubjectOfRequest(s, a);
    } else if ChangesConnection(a) {
      WorkerConnectionStep(s, a, s'.clock);
    } else {
      NoStepErases(s.store.connections, Subject(s, a));
      if IsUserAction(a) { UserElsewhere(s, a, s'.clock); } else { WorkersElsewhere(s, a, s'.clock); }
    }
  }

  lemma HistoryStep(s: World, a: Action, s': World)
    requires Inv(s) && Inv(s') && Next(s, a, s') && HistoryFits(s.bound, s.store.connections)
    ensures HistoryFits(s'.bound, s'.store.connections) && Extends(s.bound, s'.bound)
    ensures forall u :: u in s.store.connections ==>
              u in s'.store.connections && s.store.connections[u].generation <= s'.store.connections[u].generation
  {
    hide Next;
    ConnectionsStep(s, a, s');
    if AboutConnection(a) { BindingExtends(s.bound, s.store.connections, s'.store.connections, Subject(s, a)); }
    else { ErasingFits(s.bound, s.store.connections, s'.store.connections, Subject(s, a)); }
  }

  // ---------- Provenance of jobs and rows ----------

  predicate JobsAreBound(bound: map<(UserId, nat), int>, jobs: map<JobId, Job>) {
    forall id :: id in jobs && jobs[id].provenance.Some? ==> Knows(bound, jobs[id].user, jobs[id].provenance.value)
  }

  predicate RowsAreBound(bound: map<(UserId, nat), int>, messages: map<Key, Message>) {
    forall k :: k in messages ==>
      && (k.principal.Some? <==> messages[k].generation.Some?)
      && (k.principal.Some? ==> Knows(bound, k.user, Provenance(k.principal.value, messages[k].generation.value)))
  }

  lemma NewJobIsBound(s: World, a: Action, s': World)
    requires Inv(s) && Next(s, a, s') && a.StartScan? && JobsAreBound(s.bound, s.store.jobs)
    requires Extends(s.bound, s'.bound) && HistoryFits(s'.bound, s'.store.connections)
    ensures JobsAreBound(s'.bound, s'.store.jobs)
  {
    hide Next;
    LaunchIs(s, a, s');
    LaunchInserts(s, a, s'.clock);
    hide Launch, OnlyClearsMarkers, Inv, GoodStore;
  }

  lemma JobsStayBound(s: World, a: Action, s': World)
    requires Inv(s) && Next(s, a, s') && JobsAreBound(s.bound, s.store.jobs)
    requires Extends(s.bound, s'.bound) && HistoryFits(s'.bound, s'.store.connections)
    ensures JobsAreBound(s'.bound, s'.store.jobs)
  {
    hide Next, Inv, KeepsOrganization, Administrative, SameProgress, HistoryFits;
    if a.StartScan? { NewJobIsBound(s, a, s'); } else { InvStep(s, a, s'); }
  }

  lemma ImportsAreBound(bound: map<(UserId, nat), int>, s: Store, l: Lease, page: ScanPage)
    requires RowsAreBound(bound, s.messages) && Knows(bound, l.user, l.provenance) && GoodStore(s) && l.job in s.jobs
    ensures RowsAreBound(bound, PersistPage(s, l, page).messages)
  {
    UpsertAllImports(Table(s.messages, s.nextMessage), l, page.messages);
    hide UpsertAll;
    var messages := PersistPage(s, l, page).messages;
    forall k | k in messages
      ensures k.principal.Some? <==> messages[k].generation.Some?
      ensures k.principal.Some? ==> Knows(bound, k.user, Provenance(k.principal.value, messages[k].generation.value))
    {
      if k in PageKeys(l, page.messages) { assert k.user == l.user && k.principal == Some(l.provenance.principal); }
    }
  }

  lemma RowsStayBound(s: World, a: Action, s': World)
    requires Inv(s) && Next(s, a, s') && JobsAreBound(s.bound, s.store.jobs) && RowsAreBound(s.bound, s.store.messages)
    requires Extends(s.bound, s'.bound)
    ensures RowsAreBound(s'.bound, s'.store.messages)
  {
    hide Next;
    if a.CommitPage? {
      CommitIs(s, a, s');
      var v := WorkerOf(s, a.w);
      SliceFits(s, a.w);
      hide GoodStore, PersistPage, BuildPage, InStep, FreshTokens, WorkersFit;
      if PersistsPage(s, a.w, a.raw, a.keep, s'.clock) {
        ImportsAreBound(s.bound, s.store, v.lease, PageFor(v, a.raw, a.keep));
      } else {
        UnpersistedPageKeeps(s, a.w, a.raw, a.keep, s'.clock);
      }
    } else {
      hide Inv;
      NothingElseImports(s, a, s');
    }
  }

  lemma HistoryStarts(s: World)
    requires Init(s)
    ensures HistoryFits(s.bound, s.store.connections)
    ensures JobsAreBound(s.bound, s.store.jobs) && RowsAreBound(s.bound, s.store.messages)
  {
  }

  /** The history invariant in every world of every run. */
  lemma {:induction false} HistoryAlways(run: seq<World>, actions: seq<Action>, i: nat)
    requires IsRun(run, actions) && i < |run|
    ensures Inv(run[i]) && HistoryFits(run[i].bound, run[i].store.connections)
    ensures JobsAreBound(run[i].bound, run[i].store.jobs) && RowsAreBound(run[i].bound, run[i].store.messages)
  {
    hide Next, Inv, Init;
    InvAlways(run, actions, i);
    if i == 0 {
      HistoryStarts(run[0]);
    } else {
      var s, a, s' := run[i - 1], actions[i - 1], run[i];
      HistoryAlways(run, actions, i - 1);
      HistoryStep(s, a, s');
      JobsStayBound(s, a, s');
      RowsStayBound(s, a, s');
    }
  }

  // ---------- The results ----------

  /** Between two worlds of a run a connection stays, its generation does not fall, and what
      was bound stays bound to the same principal. */
  lemma {:induction false} GenerationsNeverFall(run: seq<World>, actions: seq<Action>, i: nat, k: nat, user: UserId)
    requires IsRun(run, actions) && i <= k < |run| && user in run[i].store.connections
    ensures user in run[k].store.connections
    ensures run[i].store.connections[user].generation <= run[k].store.connections[user].generation
    ensures Extends(run[i].bound, run[k].bound)
  {
    hide Next, Inv, Init;
    if i < k {
      GenerationsNeverFall(run, actions, i, k - 1, user);
      HistoryAlways(run, actions, k - 1);
      InvAlways(run, actions, k);
      HistoryStep(run[k - 1], actions[k - 1], run[k]);
    }
  }

  /** One principal per generation: whenever a user's connection shows the same generation
      twice in a run, bound both times, it shows the same principal. */
  lemma OnePrincipalPerGeneration(run: seq<World>, actions: seq<Action>, i: nat, k: nat, user: UserId)
    requires IsRun(run, actions) && i <= k < |run|
    requires user in run[i].store.connections && user in run[k].store.connections
    requires run[i].store.connections[user].generation == run[k].store.connections[user].generation
    requires run[i].store.connections[user].principal.Some? && run[k].store.connections[user].principal.Some?
    ensures run[i].store.connections[user].principal == run[k].store.connections[user].principal
  {
    hide Next, Inv, Init;
    HistoryAlways(run, actions, i);
    HistoryAlways(run, actions, k);
    GenerationsNeverFall(run, actions, i, k, user);
  }

  /** Cached messages of one user with the same connection generation come from the same
      Telegram account, even when seen at different times. */
  lemma OnePrincipalPerRowGeneration(run: seq<World>, actions: seq<Action>, i: nat, m: nat, k: Key, k': Key)
    requires IsRun(run, actions) && i <= m < |run|
    requires k in run[i].store.messages && k' in run[m].store.messages && k.user == k'.user
    requires run[i].store.messages[k].generation.Some?
    requires run[i].store.messages[k].generation == run[m].store.messages[k'].generation
    ensures k.principal == k'.principal
  {
    hide Next, Inv, Init;
    HistoryAlways(run, actions, i);
    HistoryAlways(run, actions, m);
    assert k.user in run[i].store.connections;
    GenerationsNeverFall(run, actions, i, m, k.user);
  }

  /** What a worker does to a connection is fenced: only the holder of an unexpired lease saves
      a refreshed session, and then nothing but the session; any other change erases the very
      connection the job is bound to. */
  lemma WorkersTouchOnlyTheirConnection(s: World, a: Action, s': World, user: UserId)
    requires Next(s, a, s') && !IsUserAction(a) && user in s.store.connections
    requires user !in s'.store.connections || s'.store.connections[user] != s.store.connections[user]
    ensures ChangesConnection(a) && Slicing(s, a.w) && user in s'.store.connections
    ensures var l, c, c' := WorkerOf(s, a.w).lease, s.store.connections[user], s'.store.connections[user];
            && l.user == user && Matches(c, l.provenance)
            && (if a.SaveRefreshedSession?
                then c.state == Connected && Holds(s.store, l, s'.clock) && c' == c.(session := Some(a.session))
                else c' in {Erased(c, Disconnected), Erased(c, Errored)})
  {
    hide CancelBound, Holds, DoUser, KeepsHistory, BuildPage, MayConclude, Plausible;
    if !ChangesConnection(a) {
      WorkersElsewhere(s, a, s'.clock);
      hide DoWorker;
    }
  }

  lemma WorkersElsewhere(s: World, a: Action, now: int)
    requires Enabled(s, a, now) && !IsUserAction(a) && !ChangesConnection(a)
    ensures DoWorker(s, a, now).store.connections == s.store.connections
  {
    hide Enabled;
  }
}
