/** telegram/streams.py: the leases on a user's status streams. A claim tries the slots one by
    one, each in its own transaction, with the time it began at; other claims, renewals and
    releases may be committed in between. */
module StreamSlots {
  import opened Wrappers

  type UserId = nat
  type Owner = nat

  const STREAM_LEASE_SECONDS := 45

  datatype Slot = Slot(owner: Owner, expiresAt: int)

  type Slots = map<(UserId, nat), Slot>

  datatype Lease = Lease(user: UserId, slot: nat, owner: Owner)

  // ---------- The transactions ----------

  /** The slot can be taken: it is free, or its lease had run out when the claim began. */
  predicate Takeable(slots: Slots, user: UserId, slot: nat, started: int) {
    (user, slot) in slots ==> slots[(user, slot)].expiresAt <= started
  }

  function Take(slots: Slots, user: UserId, slot: nat, owner: Owner, started: int): Slots {
    slots[(user, slot) := Slot(owner, started + STREAM_LEASE_SECONDS)]
  }

  predicate Holds(slots: Slots, l: Lease) { (l.user, l.slot) in slots && slots[(l.user, l.slot)].owner == l.owner }

  function Renew(slots: Slots, l: Lease, now: int): Slots {
    if Holds(slots, l) && slots[(l.user, l.slot)].expiresAt > now
    then slots[(l.user, l.slot) := Slot(l.owner, now + STREAM_LEASE_SECONDS)]
    else slots
  }

  function Release(slots: Slots, l: Lease): Slots {
    if Holds(slots, l) then slots - {(l.user, l.slot)} else slots
  }

  class StreamTable {
    var slots: Slots

    constructor ()
      ensures slots == map[]
    {
      slots := map[];
    }

    /** One round of the claim: reclaim an expired row, or insert one; an existing row makes
        the insert fail. */
    method TrySlot(user: UserId, slot: nat, owner: Owner, started: int) returns (taken: bool)
      modifies this
      ensures taken == Takeable(old(slots), user, slot, started)
      ensures slots == if taken then Take(old(slots), user, slot, owner, started) else old(slots)
    {
      if (user, slot) in slots && slots[(user, slot)].expiresAt <= started {
        slots := slots[(user, slot) := Slot(owner, started + STREAM_LEASE_SECONDS)];
        return true;
      }
      if (user, slot) in slots { return false; }
      slots := slots[(user, slot) := Slot(owner, started + STREAM_LEASE_SECONDS)];
      return true;
    }

    /** An undisturbed claim takes the first slot that can be taken, and fails only if none can. */
    method ClaimScanStream(user: UserId, owner: Owner, maxStreams: nat, now: int) returns (lease: Option<Lease>)
      modifies this
      ensures lease.None? ==> slots == old(slots) && forall i :: 0 <= i < maxStreams ==> !Takeable(slots, user, i, now)
      ensures lease.Some? ==>
                && lease.value.user == user && lease.value.owner == owner && lease.value.slot < maxStreams
                && Takeable(old(slots), user, lease.value.slot, now)
                && (forall i :: 0 <= i < lease.value.slot ==> !Takeable(old(slots), user, i, now))
                && slots == Take(old(slots), user, lease.value.slot, owner, now)
    {
      for slot := 0 to maxStreams
        invariant slots == old(slots) && forall i :: 0 <= i < slot ==> !Takeable(slots, user, i, now)
      {
        var taken := TrySlot(user, slot, owner, now);
        if taken { return Some(Lease(user, slot, owner)); }
      }
      return None;
    }

    method RenewScanStream(l: Lease, now: int) returns (ok: bool)
      modifies this
      ensures ok == (Holds(old(slots), l) && old(slots)[(l.user, l.slot)].expiresAt > now)
      ensures slots == Renew(old(slots), l, now)
    {
      if !((l.user, l.slot) in slots && slots[(l.user, l.slot)].owner == l.owner && slots[(l.user, l.slot)].expiresAt > now) {
        return false;
      }
      slots := slots[(l.user, l.slot) := Slot(l.owner, now + STREAM_LEASE_SECONDS)];
      return true;
    }

    method ReleaseScanStream(l: Lease)
      modifies this
      ensures slots == Release(old(slots), l)
    {
      slots := map k | k in slots && !(k == (l.user, l.slot) && slots[k].owner == l.owner) :: slots[k];
    }
  }

  // ---------- The protocol ----------

  /** A claim under way: when it began and the slot it tries next. */
  datatype Attempt = Attempt(user: UserId, started: int, next: nat)

  /** A lease as its owner knows it. */
  datatype Grant = Grant(lease: Lease, expiresAt: int)

  datatype World = World(slots: Slots, attempts: map<Owner, Attempt>, granted: map<Owner, Grant>, used: set<Owner>, clock: int, maxStreams: nat)

  datatype Action =
    | Begin(user: UserId, owner: Owner)
    | Try(owner: Owner)
    | Heartbeat(owner: Owner)
    | Close(owner: Owner)
    | Vanish(owner: Owner)

  predicate Enabled(s: World, a: Action) {
    match a
    case Begin(_, owner) => owner !in s.used
    case Try(owner) => owner in s.attempts && s.attempts[owner].next < s.maxStreams
    case Heartbeat(owner) => owner in s.granted
    case Close(owner) => owner in s.granted
    case Vanish(_) => true
  }

  /** A heartbeat that finds its row extends the lease its owner knows, too. */
  function Beat(s: World, owner: Owner, now: int): World
    requires owner in s.granted
  {
    var l := s.granted[owner].lease;
    var renewed := Holds(s.slots, l) && s.slots[(l.user, l.slot)].expiresAt > now;
    s.(slots := Renew(s.slots, l, now),
       granted := if renewed then s.granted[owner := Grant(l, now + STREAM_LEASE_SECONDS)] else s.granted)
  }

  function TryNext(s: World, owner: Owner): World
    requires owner in s.attempts
  {
    var t := s.attempts[owner];
    if Takeable(s.slots, t.user, t.next, t.started) then
      s.(slots := Take(s.slots, t.user, t.next, owner, t.started), attempts := s.attempts - {owner},
         granted := s.granted[owner := Grant(Lease(t.user, t.next, owner), t.started + STREAM_LEASE_SECONDS)])
    else s.(attempts := s.attempts[owner := t.(next := t.next + 1)])
  }

  function Do(s: World, a: Action, now: int): World
    requires Enabled(s, a)
  {
    match a
    case Begin(user, owner) => s.(attempts := s.attempts[owner := Attempt(user, now, 0)], used := s.used + {owner})
    case Try(owner) => TryNext(s, owner)
    case Heartbeat(owner) => Beat(s, owner, now)
    case Close(owner) => s.(slots := Release(s.slots, s.granted[owner].lease), granted := s.granted - {owner})
    case Vanish(owner) => s.(attempts := s.attempts - {owner})
  }

  predicate Next(s: World, a: Action, s': World) {
    s.clock <= s'.clock && Enabled(s, a) && s' == Do(s, a, s'.clock).(clock := s'.clock)
  }

  predicate Init(s: World) { s.slots == map[] && s.attempts == map[] && s.granted == map[] && s.used == {} }

  predicate IsRun(run: seq<World>, actions: seq<Action>) {
    && |run| == |actions| + 1 && Init(run[0])
    && forall i :: 0 <= i < |actions| ==> Next(run[i], actions[i], run[i + 1])
  }

  // ---------- The invariant ----------

  predicate Unexpired(s: World, owner: Owner) { owner in s.granted && s.clock < s.granted[owner].expiresAt }

  /** Every row belongs to a granted lease, and every lease its owner still takes for valid has its row. */
  predicate Inv(s: World) {
    && (forall k :: k in s.slots ==>
          && k.1 < s.maxStreams && s.slots[k].owner in s.granted
          && s.granted[s.slots[k].owner] == Grant(Lease(k.0, k.1, s.slots[k].owner), s.slots[k].expiresAt))
    && (forall o :: o in s.granted ==>
          && o in s.used && s.granted[o].lease.owner == o && s.granted[o].lease.slot < s.maxStreams
          && s.granted[o].expiresAt <= s.clock + STREAM_LEASE_SECONDS)
    && (forall o :: o in s.granted && Unexpired(s, o) ==> Holds(s.slots, s.granted[o].lease))
    && (forall o :: o in s.attempts ==> o in s.used && o !in s.granted && s.attempts[o].started <= s.clock)
  }

  lemma TimePasses(s: World, now: int)
    requires Inv(s) && s.clock <= now
    ensures Inv(s.(clock := now))
  {
  }

  lemma TryKeeps(s: World, owner: Owner)
    requires Inv(s) && owner in s.attempts && s.attempts[owner].next < s.maxStreams
    ensures Inv(TryNext(s, owner))
  {
    var t, s' := s.attempts[owner], TryNext(s, owner);
    if Takeable(s.slots, t.user, t.next, t.started) {
      if (t.user, t.next) in s.slots { assert !Unexpired(s, s.slots[(t.user, t.next)].owner); }
      forall o | o in s'.granted && Unexpired(s', o) ensures Holds(s'.slots, s'.granted[o].lease) {
        if o != owner { assert Unexpired(s, o) && Holds(s.slots, s.granted[o].lease); }
      }
    }
  }

  lemma BeatKeeps(s: World, owner: Owner)
    requires Inv(s) && owner in s.granted
    ensures Inv(Beat(s, owner, s.clock))
  {
    var l, s' := s.granted[owner].lease, Beat(s, owner, s.clock);
    if Holds(s.slots, l) && s.slots[(l.user, l.slot)].expiresAt > s.clock {
      forall o | o in s'.granted && Unexpired(s', o) ensures Holds(s'.slots, s'.granted[o].lease) {
        if o != owner { assert Unexpired(s, o) && Holds(s.slots, s.granted[o].lease); }
      }
    } else {
      assert s' == s;
    }
  }

  lemma BeginKeeps(s: World, user: UserId, owner: Owner)
    requires Inv(s) && owner !in s.used
    ensures Inv(s.(attempts := s.attempts[owner := Attempt(user, s.clock, 0)], used := s.used + {owner}))
  {
  }

  lemma VanishKeeps(s: World, owner: Owner)
    requires Inv(s)
    ensures Inv(s.(attempts := s.attempts - {owner}))
  {
  }

  lemma CloseKeeps(s: World, owner: Owner)
    requires Inv(s) && owner in s.granted
    ensures Inv(s.(slots := Release(s.slots, s.granted[owner].lease), granted := s.granted - {owner}))
  {
  }

  lemma InvStep(s: World, a: Action, s': World)
    requires Inv(s) && Next(s, a, s')
    ensures Inv(s') && s'.maxStreams == s.maxStreams
  {
    hide Inv, Renew, Take, Release, Holds;
    var s1 := s.(clock := s'.clock);
    TimePasses(s, s'.clock);
    match a {
      case Begin(user, owner) => BeginKeeps(s1, user, owner);
      case Try(owner) => TryKeeps(s1, owner);
      case Heartbeat(owner) => BeatKeeps(s1, owner);
      case Close(owner) => CloseKeeps(s1, owner);
      case Vanish(owner) => VanishKeeps(s1, owner);
    }
  }

  lemma {:induction false} InvAlways(run: seq<World>, actions: seq<Action>, i: nat)
    requires IsRun(run, actions) && i < |run|
    ensures Inv(run[i]) && run[i].maxStreams == run[0].maxStreams
  {
    hide Inv, Next;
    if i == 0 {
      InvStarts(run[0]);
    } else {
      InvAlways(run, actions, i - 1);
      InvStep(run[i - 1], actions[i - 1], run[i]);
    }
  }

  lemma InvStarts(s: World)
    requires Init(s)
    ensures Inv(s)
  {
  }

  // ---------- The results ----------

  /** The owners that take their lease on a stream of this user for valid. */
  function Streaming(s: World, user: UserId): set<Owner> {
    set o | o in s.granted && Unexpired(s, o) && s.granted[o].lease.user == user
  }

  lemma {:induction false} FewerThan(owners: set<Owner>, slotOf: map<Owner, nat>, n: nat)
    requires forall o :: o in owners ==> o in slotOf && slotOf[o] < n
    requires forall o, p :: o in owners && p in owners && o != p ==> slotOf[o] != slotOf[p]
    ensures |owners| <= n
  {
    if owners == {} {
    } else if o :| o in owners && slotOf[o] == n - 1 {
      FewerThan(owners - {o}, slotOf, n - 1);
    } else {
      var o :| o in owners;
      assert slotOf[o] < n - 1;
      FewerThan(owners, slotOf, n - 1);
    }
  }

  /** At any time at most `maxStreams` owners hold an unexpired lease of a user, on distinct slots. */
  lemma StreamsAreBounded(run: seq<World>, actions: seq<Action>, i: nat, user: UserId)
    requires IsRun(run, actions) && i < |run|
    ensures forall o, p :: o in Streaming(run[i], user) && p in Streaming(run[i], user) && o != p ==>
              run[i].granted[o].lease.slot != run[i].granted[p].lease.slot
    ensures |Streaming(run[i], user)| <= run[0].maxStreams
  {
    InvAlways(run, actions, i);
    var s := run[i];
    var slotOf := map o | o in s.granted :: s.granted[o].lease.slot;
    forall o, p | o in Streaming(s, user) && p in Streaming(s, user) && o != p
      ensures s.granted[o].lease.slot != s.granted[p].lease.slot
    {
      assert Holds(s.slots, s.granted[o].lease) && Holds(s.slots, s.granted[p].lease);
    }
    FewerThan(Streaming(s, user), slotOf, s.maxStreams);
  }

  /** The owner is neither trying for a slot nor has one, and its token is spent. */
  predicate IsOut(s: World, owner: Owner) {
    owner in s.used && owner !in s.attempts && forall k :: k in s.slots ==> s.slots[k].owner != owner
  }

  lemma OutStaysOut(s: World, a: Action, s': World, owner: Owner)
    requires Inv(s) && Next(s, a, s') && IsOut(s, owner)
    ensures IsOut(s', owner) && (a.owner == owner ==> s'.slots == s.slots)
  {
  }

  lemma ReclaimedIsOut(s: World, owner: Owner)
    requires Inv(s) && owner in s.granted && !Holds(s.slots, s.granted[owner].lease)
    ensures IsOut(s, owner)
  {
  }

  /** Once the slot of an owner was reclaimed, the owner has no row in any later world of the
      run, and nothing it does there, heartbeat or close, changes a row. */
  lemma {:induction false} ReclaimedForGood(run: seq<World>, actions: seq<Action>, i: nat, k: nat, owner: Owner)
    requires IsRun(run, actions) && i <= k < |run|
    requires owner in run[i].granted && !Holds(run[i].slots, run[i].granted[owner].lease)
    ensures IsOut(run[k], owner) && !Unexpired(run[k], owner)
    ensures k < |actions| && actions[k].owner == owner ==> run[k + 1].slots == run[k].slots
  {
    hide Inv, Next, Unexpired, IsOut;
    InvAlways(run, actions, k);
    if i == k {
      ReclaimedIsOut(run[i], owner);
    } else {
      ReclaimedForGood(run, actions, i, k - 1, owner);
      InvAlways(run, actions, k - 1);
      OutStaysOut(run[k - 1], actions[k - 1], run[k], owner);
    }
    OutIsExpired(run[k], owner);
    if k < |actions| { OutStaysOut(run[k], actions[k], run[k + 1], owner); }
  }

  lemma OutIsExpired(s: World, owner: Owner)
    requires Inv(s) && IsOut(s, owner)
    ensures !Unexpired(s, owner)
  {
  }

  /** An unexpired lease is taken from its owner by nobody: after any step of anyone else it
      is unexpired and holds its row, or time has run out. */
  lemma NobodyTakesAnUnexpiredLease(s: World, a: Action, s': World, owner: Owner)
    requires Inv(s) && Next(s, a, s') && Unexpired(s, owner) && !(a.Close? && a.owner == owner)
    ensures owner in s'.granted && s'.granted[owner].lease == s.granted[owner].lease
    ensures s.granted[owner].expiresAt <= s'.granted[owner].expiresAt
    ensures Unexpired(s', owner) ==> Holds(s'.slots, s'.granted[owner].lease)
  {
    InvStep(s, a, s');
  }

  /** The claim of `owner` tried `slot` in this step and found it held, with a lease that was
      unexpired when the claim began. */
  predicate FindsHeld(s: World, a: Action, owner: Owner, slot: nat) {
    && a == Try(owner) && owner in s.attempts && s.attempts[owner].next == slot
    && (s.attempts[owner].user, slot) in s.slots
    && s.attempts[owner].started < s.slots[(s.attempts[owner].user, slot)].expiresAt
  }

  lemma GivesUpOnlyHeldSlots(s: World, a: Action, s': World, owner: Owner)
    requires Inv(s) && Next(s, a, s') && owner in s'.attempts
    ensures if owner in s.attempts
            then s'.attempts[owner] == s.attempts[owner] ||
                   (s'.attempts[owner] == s.attempts[owner].(next := s.attempts[owner].next + 1)
                    && FindsHeld(s, a, owner, s.attempts[owner].next))
            else s'.attempts[owner].next == 0
  {
  }

  /** A claim fails only if it found every slot held by a lease that was unexpired when the
      claim began, each at the moment it tried it. */
  lemma {:induction false} ClaimsFailOnlyWhenFull(run: seq<World>, actions: seq<Action>, i: nat, owner: Owner, slot: nat)
    requires IsRun(run, actions) && i < |run| && owner in run[i].attempts && slot < run[i].attempts[owner].next
    ensures exists m :: 0 <= m < i && FindsHeld(run[m], actions[m], owner, slot)
  {
    hide Inv, Next, FindsHeld;
    InvAlways(run, actions, i);
    if i > 0 {
      var s, a := run[i - 1], actions[i - 1];
      InvAlways(run, actions, i - 1);
      GivesUpOnlyHeldSlots(s, a, run[i], owner);
      if slot < s.attempts[owner].next { ClaimsFailOnlyWhenFull(run, actions, i - 1, owner, slot); }
    }
  }
}
