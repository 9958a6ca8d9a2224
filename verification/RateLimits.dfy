/** abuse.py: fixed-window counters shared by all API processes. Times are microseconds since
    the epoch. The keyed hash of a subject is taken to be injective, so subjects stand for
    their hashes. */
module RateLimits {
  import opened Wrappers

  const SECOND := 1_000_000

  datatype RuleData = RuleData(scope: string, limit: nat, seconds: nat)

  /** A rule has a positive quota and a window of at least one whole second. */
  type Rule = r: RuleData | 0 < r.limit && 0 < r.seconds witness RuleData("login_ip", 50, 900)

  datatype Check = Check(rule: Rule, subject: string)

  datatype BucketKey = BucketKey(scope: string, subject: string, start: int)

  datatype Bucket = Bucket(hits: nat, expiresAt: int)

  type Buckets = map<BucketKey, Bucket>

  // ---------- Windows ----------

  function Window(r: Rule): int { r.seconds * SECOND }

  function WindowStart(now: int, r: Rule): int { now / SECOND / r.seconds * r.seconds * SECOND }

  lemma {:induction false} Multiples(p: int, q: int, b: int)
    requires 0 < b && p < q
    ensures p * b + b <= q * b
    decreases q - p
  {
    assert (q - 1) * b + b == q * b;
    if p < q - 1 { Multiples(p, q - 1, b); }
  }

  lemma Quotient(c: int, b: int, q: int)
    requires 0 < b && q * b <= c < q * b + b
    ensures c / b == q
  {
    var p := c / b;
    assert c == p * b + c % b;
    if p < q { Multiples(p, q, b); }
    if q < p { Multiples(q, p, b); }
  }

  lemma DivisionStep(a: int, b: int, c: int)
    requires 0 < b && a <= c <= a + b
    ensures c / b == a / b || c / b == a / b + 1
  {
    var q := a / b;
    assert a == q * b + a % b;
    assert (q + 1) * b == q * b + b;
    if c < q * b + b { Quotient(c, b, q); } else { assert c < (q + 1) * b + b; Quotient(c, b, q + 1); }
  }

  /** A moment lies in its window. */
  lemma WindowContains(now: int, r: Rule)
    ensures WindowStart(now, r) <= now < WindowStart(now, r) + Window(r)
  {
    var s := now / SECOND;
    var q := s / r.seconds;
    assert s == q * r.seconds + s % r.seconds;
    assert q * r.seconds <= s < q * r.seconds + r.seconds;
  }

  /** An interval of the window's length meets at most two windows. */
  lemma TwoWindows(from: int, now: int, r: Rule)
    requires from <= now < from + Window(r)
    ensures WindowStart(now, r) == WindowStart(from, r) || WindowStart(now, r) == WindowStart(from, r) + Window(r)
  {
    var a, c := from / SECOND, now / SECOND;
    assert a <= c <= a + r.seconds;
    DivisionStep(a, r.seconds, c);
    var q := a / r.seconds;
    assert (q + 1) * r.seconds * SECOND == q * r.seconds * SECOND + r.seconds * SECOND by {
      assert (q + 1) * r.seconds == q * r.seconds + r.seconds;
    }
  }

  /** The seconds a rejected caller is told to wait, rounded up. */
  function RetryAfter(now: int, r: Rule): (s: int)
    ensures now + s * SECOND >= WindowStart(now, r) + Window(r)
    ensures now + (s - 1) * SECOND < WindowStart(now, r) + Window(r)
    ensures 1 <= s <= r.seconds
  {
    WindowContains(now, r);
    (WindowStart(now, r) + Window(r) - now + SECOND - 1) / SECOND
  }

  // ---------- Checks ----------

  predicate SameCounter(a: Check, b: Check) { a.rule.scope == b.rule.scope && a.subject == b.subject }

  /** The checks without repetitions, in order; `None` when a subject is empty or one scope and
      subject come with two rules. */
  function Uniques(checks: seq<Check>): (r: Option<seq<Check>>)
    ensures r.Some? ==> forall c :: c in r.value <==> c in checks
    ensures r.Some? ==> forall i, j :: 0 <= i < j < |r.value| ==> !SameCounter(r.value[i], r.value[j])
  {
    if checks == [] then Some([])
    else
      var n := |checks| - 1;
      var c := checks[n];
      match Uniques(checks[..n])
      case None => None
      case Some(u) =>
        if c.subject == "" then None
        else if exists d :: d in u && SameCounter(d, c) then (if c in u then Some(u) else None)
        else Some(u + [c])
  }

  lemma NoChecks(checks: seq<Check>)
    ensures Uniques(checks[..0]) == Some([])
  {
  }

  lemma NextCheck(checks: seq<Check>, i: nat)
    requires i < |checks| && Uniques(checks[..i]).Some?
    ensures var u, c := Uniques(checks[..i]).value, checks[i];
            Uniques(checks[..i + 1]) == if c.subject == "" then None
                                        else if exists d :: d in u && SameCounter(d, c) then (if c in u then Some(u) else None)
                                        else Some(u + [c])
  {
    assert checks[..i + 1][..i] == checks[..i];
  }

  method UniqueChecks(checks: seq<Check>) returns (unique: Option<seq<Check>>)
    ensures unique == Uniques(checks)
  {
    hide Uniques;
    var u: seq<Check> := [];
    NoChecks(checks);
    for i := 0 to |checks|
      invariant Uniques(checks[..i]) == Some(u)
    {
      var c := checks[i];
      NextCheck(checks, i);
      if c.subject == "" {
        UniquesFail(checks, i);
        return None;
      }
      if exists d :: d in u && SameCounter(d, c) {
        if c !in u {
          UniquesFail(checks, i);
          return None;
        }
      } else {
        u := u + [c];
      }
    }
    assert checks[..|checks|] == checks;
    return Some(u);
  }

  lemma {:induction false} UniquesFail(checks: seq<Check>, i: nat)
    requires i < |checks| && Uniques(checks[..i + 1]).None?
    ensures Uniques(checks).None?
  {
    if i + 1 == |checks| {
      assert checks[..i + 1] == checks;
    } else {
      var n := |checks| - 1;
      assert checks[..n][..i + 1] == checks[..i + 1];
      UniquesFail(checks[..n], i);
    }
  }

  /** A check without a subject, or one counter with two rules. */
  predicate IsMalformed(checks: seq<Check>) {
    || (exists c :: c in checks && c.subject == "")
    || (exists c, d :: c in checks && d in checks && SameCounter(c, d) && c != d)
  }

  /** Checks are refused exactly if they are malformed; repetitions are not. */
  lemma {:induction false} OnlyMalformedFail(checks: seq<Check>)
    ensures Uniques(checks).None? <==> IsMalformed(checks)
  {
    if checks != [] {
      var n := |checks| - 1;
      var before, c := checks[..n], checks[n];
      OnlyMalformedFail(before);
      assert forall d :: d in checks <==> d in before || d == c;
      if Uniques(checks).None? && Uniques(before).Some? && c.subject != "" {
        var d :| d in Uniques(before).value && SameCounter(d, c);
        assert d in checks && d != c;
      }
      if IsMalformed(checks) && Uniques(before).Some? && c.subject != "" {
        var d, e :| d in checks && e in checks && SameCounter(d, e) && d != e;
        assert d == c || e == c;
        var other := if d == c then e else d;
        assert other in before && other in Uniques(before).value && SameCounter(other, c);
      }
    }
  }

  // ---------- Counting ----------

  function Pruned(buckets: Buckets, now: int): Buckets {
    map k | k in buckets && now < buckets[k].expiresAt :: buckets[k]
  }

  function KeyOf(c: Check, now: int): BucketKey { BucketKey(c.rule.scope, c.subject, WindowStart(now, c.rule)) }

  function Hits(buckets: Buckets, k: BucketKey): nat { if k in buckets then buckets[k].hits else 0 }

  /** The upsert: insert with one hit, or count one more, up to one above the quota. */
  function Increment(buckets: Buckets, c: Check, now: int): Buckets {
    var k := KeyOf(c, now);
    var hits := if k !in buckets then 1 else if buckets[k].hits <= c.rule.limit then buckets[k].hits + 1 else buckets[k].hits;
    buckets[k := Bucket(hits, WindowStart(now, c.rule) + Window(c.rule))]
  }

  /** The counters after the checks, in order, up to the first one over its quota, and what a
      rejected caller is told. */
  function Counted(buckets: Buckets, checks: seq<Check>, now: int): (Buckets, Option<int>)
    decreases |checks|
  {
    if checks == [] then (buckets, None)
    else
      var b := Increment(buckets, checks[0], now);
      if Hits(b, KeyOf(checks[0], now)) > checks[0].rule.limit then (b, Some(RetryAfter(now, checks[0].rule)))
      else Counted(b, checks[1..], now)
  }

  datatype Outcome = Accepted | Exceeded(retryAfter: int) | Invalid

  function Consumed(buckets: Buckets, checks: seq<Check>, now: int): (Buckets, Outcome) {
    match Uniques(checks)
    case None => (buckets, Invalid)
    case Some(unique) =>
      if unique == [] then (buckets, Accepted)
      else
        var r := Counted(Pruned(buckets, now), unique, now);
        (r.0, if r.1.Some? then Exceeded(r.1.value) else Accepted)
  }

  class DatabaseRateLimiter {
    var buckets: Buckets

    constructor ()
      ensures buckets == map[]
    {
      buckets := map[];
    }

    method Prune(now: int) returns (count: nat)
      modifies this
      ensures buckets == Pruned(old(buckets), now)
      // Nothing expired is left, nothing unexpired is lost or changed, nothing appears.
      ensures forall k :: k in buckets <==> k in old(buckets) && now < old(buckets)[k].expiresAt
      ensures forall k :: k in buckets ==> buckets[k] == old(buckets)[k]
      ensures count + |buckets| == |old(buckets)|
    {
      var before := buckets;
      buckets := map k | k in buckets && !(buckets[k].expiresAt <= now) :: buckets[k];
      count := |before.Keys - buckets.Keys|;
      SubsetSplits(buckets.Keys, before.Keys);
    }

    method IncrementBucket(c: Check, now: int) returns (count: nat)
      modifies this
      ensures buckets == Increment(old(buckets), c, now) && count == Hits(buckets, KeyOf(c, now))
      // The count is over the quota exactly if the quota was used up before, and never by more than one.
      ensures var before := Hits(old(buckets), KeyOf(c, now));
              && (count > c.rule.limit <==> before >= c.rule.limit)
              && (before <= c.rule.limit ==> count == before + 1)
              && (before <= c.rule.limit + 1 ==> 1 <= count <= c.rule.limit + 1)
      ensures buckets.Keys == old(buckets).Keys + {KeyOf(c, now)} && now < buckets[KeyOf(c, now)].expiresAt
      ensures forall k :: k in old(buckets) && k != KeyOf(c, now) ==> buckets[k] == old(buckets)[k]
    {
      WindowContains(now, c.rule);
      var k := KeyOf(c, now);
      var hits := 1;
      if k in buckets {
        hits := if buckets[k].hits <= c.rule.limit then buckets[k].hits + 1 else buckets[k].hits;
      }
      buckets := buckets[k := Bucket(hits, WindowStart(now, c.rule) + Window(c.rule))];
      return hits;
    }

    method Consume(checks: seq<Check>, now: int) returns (outcome: Outcome)
      modifies this
      ensures (buckets, outcome) == Consumed(old(buckets), checks, now)
    {
      var unique := UniqueChecks(checks);
      if unique.None? { return Invalid; }
      if unique.value == [] { return Accepted; }
      var retryAfter := 0;
      var pruned := Prune(now);
      var i := 0;
      while i < |unique.value|
        invariant i <= |unique.value| && retryAfter == 0
        invariant Counted(Pruned(old(buckets), now), unique.value, now) == Counted(buckets, unique.value[i..], now)
      {
        var check := unique.value[i];
        assert unique.value[i..][0] == check && unique.value[i..][1..] == unique.value[i + 1..];
        var count := IncrementBucket(check, now);
        if count > check.rule.limit {
          retryAfter := RetryAfter(now, check.rule);
          break;
        }
        i := i + 1;
      }
      if retryAfter != 0 { return Exceeded(retryAfter); }
      return Accepted;
    }
  }

  // ---------- A history of calls ----------

  datatype Event = Call(now: int, checks: seq<Check>) | Prune(now: int)

  function Step(buckets: Buckets, e: Event): Buckets {
    match e
    case Call(now, checks) => Consumed(buckets, checks, now).0
    case Prune(now) => Pruned(buckets, now)
  }

  function After(events: seq<Event>): Buckets {
    if events == [] then map[] else Step(After(events[..|events| - 1]), events[|events| - 1])
  }

  /** The clock never goes back. */
  predicate Ascending(events: seq<Event>) { forall i, j :: 0 <= i < j < |events| ==> events[i].now <= events[j].now }

  /** The checks of one scope and subject all come with one rule. */
  predicate OneRule(events: seq<Event>, c: Check) {
    forall e :: e in events && e.Call? ==> OneRuleIn(e.checks, c)
  }

  predicate OneRuleIn(checks: seq<Check>, c: Check) { forall d :: d in checks && SameCounter(c, d) ==> d == c }

  predicate Admits(buckets: Buckets, e: Event, c: Check) {
    e.Call? && c in e.checks && Consumed(buckets, e.checks, e.now).1 == Accepted
  }

  /** How many calls with check `c` were accepted in the window that starts at `start`. */
  function AcceptedIn(events: seq<Event>, c: Check, start: int): nat {
    if events == [] then 0
    else
      var n := |events| - 1;
      AcceptedIn(events[..n], c, start)
        + (if Admits(After(events[..n]), events[n], c) && WindowStart(events[n].now, c.rule) == start then 1 else 0)
  }

  function CounterOf(c: Check, start: int): BucketKey { BucketKey(c.rule.scope, c.subject, start) }

  /** A counter is between one and one more than its quota, and expires with its window. */
  predicate GoodCounter(buckets: Buckets, c: Check, start: int) {
    CounterOf(c, start) in buckets ==>
      var b := buckets[CounterOf(c, start)];
      1 <= b.hits <= c.rule.limit + 1 && b.expiresAt == start + Window(c.rule)
  }

  predicate Distinct(checks: seq<Check>) { forall i, j :: 0 <= i < j < |checks| ==> !SameCounter(checks[i], checks[j]) }

  lemma DistinctRest(checks: seq<Check>, c: Check)
    requires checks != [] && Distinct(checks) && OneRuleIn(checks, c)
    ensures Distinct(checks[1..]) && OneRuleIn(checks[1..], c)
    ensures checks[0] == c ==> c !in checks[1..]
    ensures checks[0] != c ==> !SameCounter(c, checks[0])
    ensures c in checks <==> c == checks[0] || c in checks[1..]
  {
    if c in checks[1..] {
      var j :| 0 <= j < |checks| - 1 && checks[1..][j] == c;
      assert !SameCounter(checks[0], checks[j + 1]);
    }
  }

  lemma IncrementOne(buckets: Buckets, d: Check, now: int, c: Check, start: int)
    requires GoodCounter(buckets, c, start) && (d == c || !SameCounter(c, d))
    ensures var b, k := Increment(buckets, d, now), CounterOf(c, start);
            && GoodCounter(b, c, start)
            && (if d == c && WindowStart(now, c.rule) == start
                then Hits(buckets, k) <= Hits(b, k) && (Hits(b, k) <= c.rule.limit ==> Hits(b, k) == Hits(buckets, k) + 1)
                else Hits(b, k) == Hits(buckets, k))
  {
    hide WindowStart, Window;
  }

  /** Every check has calls left in its window. */
  predicate AllHaveRoom(buckets: Buckets, checks: seq<Check>, now: int) {
    forall c :: c in checks ==> Hits(buckets, KeyOf(c, now)) < c.rule.limit
  }

  lemma {:induction false} CountingStopsWhenFull(buckets: Buckets, checks: seq<Check>, now: int)
    requires Distinct(checks)
    ensures Counted(buckets, checks, now).1.None? <==> AllHaveRoom(buckets, checks, now)
    decreases |checks|
  {
    if checks != [] {
      var c, rest := checks[0], checks[1..];
      var b := Increment(buckets, c, now);
      assert forall i, j :: 0 <= i < j < |rest| ==> rest[i] == checks[i + 1] && rest[j] == checks[j + 1];
      CountingStopsWhenFull(b, rest, now);
      assert forall d :: d in checks <==> d == c || d in rest;
      forall d | d in rest ensures Hits(b, KeyOf(d, now)) == Hits(buckets, KeyOf(d, now)) {
        var j :| 0 <= j < |rest| && rest[j] == d;
        assert !SameCounter(checks[0], checks[j + 1]);
      }
      hide WindowStart, Window, RetryAfter, Distinct;
    }
  }

  /** A call is accepted exactly if every check has calls left in its window, however often it is
      repeated; it is invalid exactly if the checks are malformed; and a call that is turned away
      is told the wait for a check that has none. */
  lemma CallsAreJudged(buckets: Buckets, checks: seq<Check>, now: int)
    ensures var outcome, open := Consumed(buckets, checks, now).1, Pruned(buckets, now);
            && (outcome == Invalid <==> IsMalformed(checks))
            && (outcome == Accepted <==> !IsMalformed(checks) && AllHaveRoom(open, checks, now))
            && (outcome.Exceeded? ==>
                  exists c :: c in checks && c.rule.limit <= Hits(open, KeyOf(c, now)) && outcome.retryAfter == RetryAfter(now, c.rule))
  {
    OnlyMalformedFail(checks);
    if Uniques(checks).Some? {
      var unique, open := Uniques(checks).value, Pruned(buckets, now);
      CountingStopsWhenFull(open, unique, now);
      if Consumed(buckets, checks, now).1.Exceeded? { var c := FirstFull(open, unique, now); }
    }
    hide Counted, Pruned, RetryAfter;
  }

  /** The check a call fails on was full before. */
  lemma {:induction false} FirstFull(buckets: Buckets, checks: seq<Check>, now: int) returns (c: Check)
    requires Distinct(checks) && Counted(buckets, checks, now).1.Some?
    ensures c in checks && c.rule.limit <= Hits(buckets, KeyOf(c, now)) && Counted(buckets, checks, now).1 == Some(RetryAfter(now, c.rule))
    decreases |checks|
  {
    var b, rest := Increment(buckets, checks[0], now), checks[1..];
    if Hits(b, KeyOf(checks[0], now)) > checks[0].rule.limit {
      c := checks[0];
    } else {
      assert forall i, j :: 0 <= i < j < |rest| ==> rest[i] == checks[i + 1] && rest[j] == checks[j + 1];
      c := FirstFull(b, rest, now);
      var j :| 0 <= j < |rest| && rest[j] == c;
      assert !SameCounter(checks[0], checks[j + 1]);
    }
    hide WindowStart, Window, RetryAfter, Distinct;
  }

  /** What one call does to one counter. */
  lemma {:induction false} CountedOne(buckets: Buckets, checks: seq<Check>, now: int, c: Check, start: int)
    requires OneRuleIn(checks, c) && GoodCounter(buckets, c, start) && Distinct(checks)
    ensures var r, k := Counted(buckets, checks, now), CounterOf(c, start);
            && GoodCounter(r.0, c, start) && Hits(buckets, k) <= Hits(r.0, k)
            && (r.1.None? && c in checks && WindowStart(now, c.rule) == start ==>
                  Hits(r.0, k) == Hits(buckets, k) + 1 <= c.rule.limit)
            && (c !in checks ==> Hits(r.0, k) == Hits(buckets, k))
    decreases |checks|
  {
    if checks != [] {
      DistinctRest(checks, c);
      IncrementOne(buckets, checks[0], now, c, start);
      CountedOne(Increment(buckets, checks[0], now), checks[1..], now, c, start);
      hide WindowStart, Window, GoodCounter, Distinct, OneRuleIn, Increment, RetryAfter;
    }
  }

  /** The quota of a window: at most `limit` calls are accepted in it, and as long as it is
      open the counter has counted them all. */
  lemma {:induction false} WindowQuota(events: seq<Event>, c: Check, start: int)
    requires Ascending(events) && OneRule(events, c)
    ensures GoodCounter(After(events), c, start)
    ensures AcceptedIn(events, c, start) <= c.rule.limit
    ensures events == [] || events[|events| - 1].now < start + Window(c.rule) ==>
              AcceptedIn(events, c, start) <= Hits(After(events), CounterOf(c, start))
  {
    if events != [] {
      var n := |events| - 1;
      var before, e := events[..n], events[n];
      WindowQuota(before, c, start);
      WindowContains(e.now, c.rule);
      hide WindowStart, Window, Increment, RetryAfter, Counted;
      if e.Call? && Uniques(e.checks).Some? {
        var unique := Uniques(e.checks).value;
        assert OneRuleIn(unique, c) && Distinct(unique);
        CountedOne(Pruned(After(before), e.now), unique, e.now, c, start);
      }
    }
  }

  // ---------- Pruning ----------

  /** The calls of a history, without its prunings. */
  function Calls(events: seq<Event>): seq<Event> {
    if events == [] then []
    else
      var n := |events| - 1;
      if events[n].Call? then Calls(events[..n]) + [events[n]] else Calls(events[..n])
  }

  lemma PrunedTwice(buckets: Buckets, now: int, later: int)
    requires now <= later
    ensures Pruned(Pruned(buckets, now), later) == Pruned(buckets, later)
  {
  }

  /** A call sees only what is not expired. */
  lemma CallsSeeUnexpired(a: Buckets, b: Buckets, checks: seq<Check>, now: int, later: int)
    requires Pruned(a, now) == Pruned(b, now) && now <= later
    ensures Consumed(a, checks, now).1 == Consumed(b, checks, now).1
    ensures Pruned(Consumed(a, checks, now).0, later) == Pruned(Consumed(b, checks, now).0, later)
  {
    PrunedTwice(a, now, later);
    PrunedTwice(b, now, later);
    hide Pruned, Counted;
  }

  /** Pruning is invisible: whenever a history was pruned, every later call is answered as if it
      never had been. */
  lemma {:induction false} PruningIsInvisible(events: seq<Event>, checks: seq<Check>, now: int)
    requires Ascending(events) && forall e :: e in events ==> e.now <= now
    ensures Pruned(After(events), now) == Pruned(After(Calls(events)), now)
    ensures Consumed(After(events), checks, now).1 == Consumed(After(Calls(events)), checks, now).1
  {
    if events != [] {
      var n := |events| - 1;
      var before, e := events[..n], events[n];
      assert e in events && forall d :: d in before ==> d.now <= e.now;
      hide Pruned, Consumed;
      PruningIsInvisible(before, checks, e.now);
      if e.Call? {
        assert (Calls(before) + [e])[..|Calls(before)|] == Calls(before);
        CallsSeeUnexpired(After(before), After(Calls(before)), e.checks, e.now, now);
      } else {
        PrunedTwice(After(before), e.now, now);
        PrunedTwice(After(Calls(before)), e.now, now);
      }
    }
    CallsSeeUnexpired(After(events), After(Calls(events)), checks, now, now);
  }

  /** Calls accepted between two moments. */
  function AcceptedBetween(events: seq<Event>, c: Check, from: int, to: int): nat {
    if events == [] then 0
    else
      var n := |events| - 1;
      AcceptedBetween(events[..n], c, from, to) + (if Admits(After(events[..n]), events[n], c) && from <= events[n].now < to then 1 else 0)
  }

  lemma {:induction false} BetweenIsInTwoWindows(events: seq<Event>, c: Check, from: int)
    ensures var start := WindowStart(from, c.rule);
            AcceptedBetween(events, c, from, from + Window(c.rule)) <= AcceptedIn(events, c, start) + AcceptedIn(events, c, start + Window(c.rule))
  {
    if events != [] {
      var n := |events| - 1;
      BetweenIsInTwoWindows(events[..n], c, from);
      if from <= events[n].now < from + Window(c.rule) { TwoWindows(from, events[n].now, c.rule); }
    }
  }

  /** In any interval of the window's length, aligned or not, at most twice the quota is accepted. */
  lemma TwiceTheQuota(events: seq<Event>, c: Check, from: int)
    requires Ascending(events) && OneRule(events, c)
    ensures AcceptedBetween(events, c, from, from + Window(c.rule)) <= 2 * c.rule.limit
  {
    BetweenIsInTwoWindows(events, c, from);
    WindowQuota(events, c, WindowStart(from, c.rule));
    WindowQuota(events, c, WindowStart(from, c.rule) + Window(c.rule));
  }

  /** A rejected caller that waits as long as it is told finds the exhausted window closed. */
  lemma RetryAfterIsSafe(buckets: Buckets, checks: seq<Check>, now: int, later: int)
    requires Consumed(buckets, checks, now).1.Exceeded? && now + Consumed(buckets, checks, now).1.retryAfter * SECOND <= later
    ensures exists c :: c in checks && Hits(Consumed(buckets, checks, now).0, KeyOf(c, now)) > c.rule.limit
                        && WindowStart(now, c.rule) + Window(c.rule) <= later
  {
    var unique := Uniques(checks).value;
    var c := ExceedingCheck(Pruned(buckets, now), unique, now);
    assert c in checks;
  }

  lemma {:induction false} ExceedingCheck(buckets: Buckets, checks: seq<Check>, now: int) returns (c: Check)
    requires Counted(buckets, checks, now).1.Some?
    ensures c in checks && Hits(Counted(buckets, checks, now).0, KeyOf(c, now)) > c.rule.limit
    ensures Counted(buckets, checks, now).1 == Some(RetryAfter(now, c.rule))
    decreases |checks|
  {
    var b := Increment(buckets, checks[0], now);
    if Hits(b, KeyOf(checks[0], now)) > checks[0].rule.limit {
      c := checks[0];
    } else {
      c := ExceedingCheck(b, checks[1..], now);
    }
  }
}
