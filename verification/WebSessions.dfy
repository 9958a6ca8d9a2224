/** accounts/service.py: logins, lockouts and web sessions. Times are whole seconds; passwords
    are a yes or no, tokens are fresh numbers. */
module WebSessions {
  import opened Wrappers

  type UserId = nat
  type Token = nat

  const LOGIN_LOCK_THRESHOLD := 5
  const LOGIN_LOCK_MAX_SECONDS := 900
  const SESSION_TOUCH_INTERVAL := 300
  const SESSION_HISTORY_RETENTION := 7_776_000

  datatype Account = Account(enabled: bool, failedAttempts: nat, lockedUntil: Option<int>)

  datatype Session = Session(user: UserId, createdAt: int, lastSeen: int, idleExpires: int, expires: int, revoked: Option<int>)

  type Sessions = map<Token, Session>

  datatype LimitsData = LimitsData(maxActive: nat, idle: int, absolute: int)

  type Limits = l: LimitsData | 0 < l.maxActive && 0 < l.idle <= l.absolute witness LimitsData(10, 604800, 2592000)

  // ---------- Lockout ----------

  function Doubled(n: nat): nat { if n == 0 then 1 else 2 * Doubled(n - 1) }

  function LockSeconds(attempts: nat): int
    requires LOGIN_LOCK_THRESHOLD <= attempts
  {
    var exponent := if attempts - LOGIN_LOCK_THRESHOLD < 5 then attempts - LOGIN_LOCK_THRESHOLD else 5;
    var delay := 30 * Doubled(exponent);
    if delay < LOGIN_LOCK_MAX_SECONDS then delay else LOGIN_LOCK_MAX_SECONDS
  }

  predicate IsLocked(a: Account, now: int) { a.lockedUntil.Some? && now < a.lockedUntil.value }

  function Unlocked(a: Account, now: int): Account {
    if a.lockedUntil.Some? && a.lockedUntil.value <= now then a.(failedAttempts := 0, lockedUntil := None) else a
  }

  function Failed(a: Account, now: int): Account {
    var n := a.failedAttempts + 1;
    a.(failedAttempts := n, lockedUntil := if LOGIN_LOCK_THRESHOLD <= n then Some(now + LockSeconds(n)) else a.lockedUntil)
  }

  /** The account after a password was tried, and whether it was accepted. A disabled or locked
      account does not even count the attempt. */
  function Authenticated(a: Account, valid: bool, now: int): (Account, bool) {
    var u := Unlocked(a, now);
    if !u.enabled || IsLocked(u, now) then (a, false)
    else if !valid then (Failed(u, now), false)
    else (u.(failedAttempts := 0, lockedUntil := None), true)
  }

  /** The account takes passwords: it is enabled and not locked. */
  predicate TakesPasswords(a: Account, now: int) { a.enabled && (a.lockedUntil.None? || a.lockedUntil.value <= now) }

  /** The failures that count, the next one included; an elapsed lock starts them again. */
  function NextFailure(a: Account): nat { if a.lockedUntil.Some? then 1 else a.failedAttempts + 1 }

  /** A password is accepted exactly if it is valid and the account takes passwords. Success clears
      the failures, a wrong password counts one more and locks the account exactly at the
      threshold, and an account that takes no passwords stays as it is. */
  predicate IsJudged(a: Account, valid: bool, now: int, a': Account, ok: bool) {
    && (ok <==> TakesPasswords(a, now) && valid)
    && a'.enabled == a.enabled
    && (ok ==> a'.failedAttempts == 0 && a'.lockedUntil.None?)
    && (!TakesPasswords(a, now) ==> a' == a)
    && (TakesPasswords(a, now) && !valid ==>
          && a'.failedAttempts == NextFailure(a)
          && (a'.lockedUntil.Some? <==> LOGIN_LOCK_THRESHOLD <= a'.failedAttempts)
          && (a'.lockedUntil.Some? ==> a'.lockedUntil.value == now + LockSeconds(a'.failedAttempts)))
  }

  lemma PasswordsAreJudged(a: Account, valid: bool, now: int)
    ensures IsJudged(a, valid, now, Authenticated(a, valid, now).0, Authenticated(a, valid, now).1)
  {
  }

  /** The delays: half a minute, doubled with every failure, and a quarter of an hour at most. */
  lemma DelaysDouble(attempts: nat)
    requires LOGIN_LOCK_THRESHOLD <= attempts
    ensures LockSeconds(5) == 30 && LockSeconds(6) == 60 && LockSeconds(7) == 120 && LockSeconds(8) == 240 && LockSeconds(9) == 480
    ensures 10 <= attempts ==> LockSeconds(attempts) == 900
  {
    assert Doubled(1) == 2 && Doubled(2) == 4 && Doubled(3) == 8 && Doubled(4) == 16 && Doubled(5) == 32;
  }

  // ---------- Sessions ----------

  predicate IsLive(s: Session, now: int) { s.revoked.None? && now < s.expires && now < s.idleExpires }

  function Active(sessions: Sessions, user: UserId, now: int): set<Token> {
    set t | t in sessions && sessions[t].user == user && IsLive(sessions[t], now)
  }

  /** Listed before, by the time it was last seen and then by its creation, newest first. */
  predicate Precedes(a: Session, b: Session) { a.lastSeen > b.lastSeen || (a.lastSeen == b.lastSeen && a.createdAt >= b.createdAt) }

  ghost predicate IsListing(sessions: Sessions, listed: seq<Token>, tokens: set<Token>) {
    && (forall t :: t in listed <==> t in tokens)
    && (forall t :: t in tokens ==> t in sessions)
    && (forall i, j :: 0 <= i < j < |listed| ==> listed[i] != listed[j] && Precedes(sessions[listed[i]], sessions[listed[j]]))
  }

  predicate IsStale(s: Session, cutoff: int) { (s.revoked.Some? && s.revoked.value < cutoff) || s.expires < cutoff }

  /** The sessions after those of `gone` were revoked and the user's old history was pruned. */
  function Prepared(sessions: Sessions, user: UserId, gone: set<Token>, now: int): Sessions {
    var revoked := Revoked(sessions, gone, now);
    map t | t in revoked && !(revoked[t].user == user && IsStale(revoked[t], now - SESSION_HISTORY_RETENTION)) :: revoked[t]
  }

  function Revoked(sessions: Sessions, gone: set<Token>, now: int): Sessions {
    map t | t in sessions :: if t in gone then sessions[t].(revoked := Some(now)) else sessions[t]
  }

  function Issued(user: UserId, limits: Limits, now: int): Session {
    Session(user, now, now, now + limits.idle, now + limits.absolute, None)
  }

  function Touched(s: Session, limits: Limits, now: int): Session {
    if now - s.lastSeen >= SESSION_TOUCH_INTERVAL
    then s.(lastSeen := now, idleExpires := if now + limits.idle < s.expires then now + limits.idle else s.expires)
    else s
  }

  /** The active sessions a login may leave: at most one less than allowed, the most recently seen. */
  ghost predicate IsKept(sessions: Sessions, user: UserId, kept: set<Token>, maxActive: nat, now: int) {
    && kept <= Active(sessions, user, now) && |kept| < maxActive
    && (kept == Active(sessions, user, now) || |kept| == maxActive - 1)
    && forall a, b :: a in kept && b in Active(sessions, user, now) - kept ==> Precedes(sessions[a], sessions[b])
  }

  // ---------- The queries ----------

  function ToSet(tokens: seq<Token>): set<Token> { set t | t in tokens }

  lemma {:induction false} HasFirst(sessions: Sessions, tokens: set<Token>) returns (first: Token)
    requires tokens != {} && forall t :: t in tokens ==> t in sessions
    ensures first in tokens && forall t :: t in tokens ==> Precedes(sessions[first], sessions[t])
  {
    first :| first in tokens;
    if tokens != {first} {
      var other := HasFirst(sessions, tokens - {first});
      if Precedes(sessions[other], sessions[first]) { first := other; }
    }
  }

  /** The ordered select: ties are broken anyhow. */
  method ListActive(sessions: Sessions, user: UserId, now: int) returns (listed: seq<Token>)
    ensures IsListing(sessions, listed, Active(sessions, user, now))
  {
    var remaining := Active(sessions, user, now);
    listed := [];
    while remaining != {}
      invariant remaining <= Active(sessions, user, now)
      invariant IsListing(sessions, listed, Active(sessions, user, now) - remaining)
      invariant forall a, b :: a in listed && b in remaining ==> Precedes(sessions[a], sessions[b])
      decreases remaining
    {
      ghost var first := HasFirst(sessions, remaining);
      var next: Token :| next in remaining && forall t :: t in remaining ==> Precedes(sessions[next], sessions[t]);
      listed := listed + [next];
      remaining := remaining - {next};
    }
    assert Active(sessions, user, now) - remaining == Active(sessions, user, now);
  }

  lemma ListingSize(sessions: Sessions, listed: seq<Token>, n: nat)
    requires n <= |listed| && forall i, j :: 0 <= i < j < |listed| ==> listed[i] != listed[j]
    ensures |ToSet(listed[..n])| == n
  {
    if n > 0 {
      ListingSize(sessions, listed, n - 1);
      assert listed[..n] == listed[..n - 1] + [listed[n - 1]];
      assert ToSet(listed[..n]) == ToSet(listed[..n - 1]) + {listed[n - 1]};
    }
  }

  /** Keeping the head of the listing keeps the most recently seen sessions. */
  lemma HeadIsKept(sessions: Sessions, user: UserId, listed: seq<Token>, maxActive: nat, now: int)
    requires 0 < maxActive && IsListing(sessions, listed, Active(sessions, user, now))
    ensures var n := if |listed| < maxActive then |listed| else maxActive - 1;
            IsKept(sessions, user, ToSet(listed[..n]), maxActive, now)
  {
    var n := if |listed| < maxActive then |listed| else maxActive - 1;
    var kept := ToSet(listed[..n]);
    ListingSize(sessions, listed, n);
    forall i | 0 <= i < n ensures listed[i] in kept { assert listed[..n][i] == listed[i]; }
    forall a, b | a in kept && b in Active(sessions, user, now) - kept ensures Precedes(sessions[a], sessions[b]) {
      var i :| 0 <= i < n && listed[..n][i] == a;
      var j :| 0 <= j < |listed| && listed[j] == b;
      assert n <= j;
    }
    if n == |listed| { assert listed[..n] == listed; }
  }

  class AccountService {
    const limits: Limits
    var accounts: map<UserId, Account>
    var sessions: Sessions

    constructor (limits: Limits)
      ensures this.limits == limits && accounts == map[] && sessions == map[]
    {
      this.limits := limits;
      accounts, sessions := map[], map[];
    }

    method RevokeAll(records: seq<Token>, now: int)
      requires forall t :: t in records ==> t in sessions
      modifies this`sessions
      ensures sessions == Revoked(old(sessions), ToSet(records), now)
    {
      var i := 0;
      assert Revoked(sessions, {}, now) == sessions;
      while i < |records|
        invariant i <= |records|
        invariant sessions == Revoked(old(sessions), ToSet(records[..i]), now)
      {
        assert records[..i + 1] == records[..i] + [records[i]];
        assert ToSet(records[..i + 1]) == ToSet(records[..i]) + {records[i]};
        sessions := sessions[records[i] := sessions[records[i]].(revoked := Some(now))];
        i := i + 1;
      }
      assert records[..i] == records;
    }

    /** Revokes all but the most recently seen active sessions and prunes old history. */
    method PrepareForNewSession(user: UserId, now: int) returns (ghost kept: set<Token>)
      modifies this`sessions
      ensures IsKept(old(sessions), user, kept, limits.maxActive, now)
      ensures sessions == Prepared(old(sessions), user, Active(old(sessions), user, now) - kept, now)
    {
      var records := ListActive(sessions, user, now);
      var keep := if |records| < limits.maxActive then |records| else limits.maxActive - 1;
      HeadIsKept(sessions, user, records, limits.maxActive, now);
      kept := ToSet(records[..keep]);
      RevokeAll(records[keep..], now);
      RestIsRevoked(records, keep, Active(old(sessions), user, now), kept);
      var cutoff := now - SESSION_HISTORY_RETENTION;
      sessions := map t | t in sessions &&
        !(sessions[t].user == user && ((sessions[t].revoked.Some? && sessions[t].revoked.value < cutoff) || sessions[t].expires < cutoff))
        :: sessions[t];
    }

    method Login(user: UserId, valid: bool, token: Token, now: int) returns (ok: bool, ghost kept: set<Token>)
      requires token !in sessions
      modifies this
      ensures user !in old(accounts) ==> !ok && accounts == old(accounts) && sessions == old(sessions)
      ensures user in old(accounts) ==> user in accounts && IsJudged(old(accounts)[user], valid, now, accounts[user], ok)
      ensures ok ==> token in sessions && sessions[token].user == user && IsLive(sessions[token], now)
      ensures user in old(accounts) ==>
                var r := Authenticated(old(accounts)[user], valid, now);
                && ok == r.1 && accounts == old(accounts)[user := r.0]
                && (!ok ==> sessions == old(sessions))
                && (ok ==> IsKept(old(sessions), user, kept, limits.maxActive, now)
                           && sessions == Prepared(old(sessions), user, Active(old(sessions), user, now) - kept, now)
                                            [token := Issued(user, limits, now)])
    {
      kept := {};
      if user !in accounts { return false, kept; }
      PasswordsAreJudged(accounts[user], valid, now);
      var a := accounts[user];
      if a.lockedUntil.Some? && a.lockedUntil.value <= now {
        a := a.(failedAttempts := 0, lockedUntil := None);
      }
      var locked := a.lockedUntil.Some? && a.lockedUntil.value > now;
      if !a.enabled || locked || !valid {
        if a.enabled && !locked {
          a := a.(failedAttempts := a.failedAttempts + 1);
          if a.failedAttempts >= LOGIN_LOCK_THRESHOLD {
            a := a.(lockedUntil := Some(now + LockSeconds(a.failedAttempts)));
          }
          accounts := accounts[user := a];
        }
        return false, kept;
      }
      accounts := accounts[user := a.(failedAttempts := 0, lockedUntil := None)];
      kept := PrepareForNewSession(user, now);
      sessions := sessions[token := Issued(user, limits, now)];
      return true, kept;
    }

    method ResolveSession(token: Token, now: int) returns (ok: bool)
      modifies this`sessions
      ensures token !in old(sessions) || old(sessions)[token].user !in accounts ==> !ok && sessions == old(sessions)
      ensures token in old(sessions) && old(sessions)[token].user in accounts ==>
                var s := old(sessions)[token];
                && ok == (IsLive(s, now) && accounts[s.user].enabled)
                && sessions == old(sessions)[token := if ok then Touched(s, limits, now)
                                                      else if s.revoked.None? then s.(revoked := Some(now)) else s]
    {
      if token !in sessions || sessions[token].user !in accounts { return false; }
      var s := sessions[token];
      var expired := s.expires <= now || s.idleExpires <= now;
      if s.revoked.Some? || expired || !accounts[s.user].enabled {
        if s.revoked.None? { sessions := sessions[token := s.(revoked := Some(now))]; }
        return false;
      }
      if now - s.lastSeen >= SESSION_TOUCH_INTERVAL {
        var idle := now + limits.idle;
        sessions := sessions[token := s.(lastSeen := now, idleExpires := if idle < s.expires then idle else s.expires)];
      }
      return true;
    }

    method RevokeSession(user: UserId, token: Token, now: int) returns (ok: bool)
      modifies this`sessions
      ensures ok == (token in old(sessions) && old(sessions)[token].user == user && old(sessions)[token].revoked.None?)
      ensures sessions == if ok then Revoked(old(sessions), {token}, now) else old(sessions)
    {
      if !(token in sessions && sessions[token].user == user && sessions[token].revoked.None?) { return false; }
      sessions := sessions[token := sessions[token].(revoked := Some(now))];
      return true;
    }

    method Logout(token: Token, now: int)
      requires token in sessions
      modifies this`sessions
      ensures sessions == if old(sessions)[token].revoked.None? then Revoked(old(sessions), {token}, now) else old(sessions)
    {
      if sessions[token].revoked.None? {
        sessions := sessions[token := sessions[token].(revoked := Some(now))];
      }
    }

    /** Every unrevoked session of the user is revoked and one new one issued. */
    method ChangePassword(user: UserId, valid: bool, token: Token, now: int) returns (ok: bool)
      requires token !in sessions
      modifies this`sessions
      ensures ok == valid
      ensures sessions == if ok then Revoked(old(sessions), Unrevoked(old(sessions), user), now)[token := Issued(user, limits, now)]
                          else old(sessions)
    {
      if !valid { return false; }
      sessions := map t | t in sessions ::
        if sessions[t].user == user && sessions[t].revoked.None? then sessions[t].(revoked := Some(now)) else sessions[t];
      sessions := sessions[token := Issued(user, limits, now)];
      return true;
    }
  }

  function Unrevoked(sessions: Sessions, user: UserId): set<Token> {
    set t | t in sessions && sessions[t].user == user && sessions[t].revoked.None?
  }

  lemma RestIsRevoked(records: seq<Token>, keep: nat, active: set<Token>, kept: set<Token>)
    requires keep <= |records| && (forall t :: t in records <==> t in active) && kept == ToSet(records[..keep])
    requires forall i, j :: 0 <= i < j < |records| ==> records[i] != records[j]
    ensures ToSet(records[keep..]) == active - kept
  {
    forall i | 0 <= i < keep ensures records[i] in kept { assert records[..keep][i] == records[i]; }
    forall t | t in active - kept ensures t in records[keep..] {
      var i :| 0 <= i < |records| && records[i] == t;
      assert records[keep..][i - keep] == t;
    }
    forall t | t in records[keep..] ensures t in active - kept {
      var i :| 0 <= i < |records| - keep && records[keep..][i] == t;
      assert records[i + keep] == t;
    }
  }

  // ---------- Runs ----------

  datatype World = World(accounts: map<UserId, Account>, sessions: Sessions, used: set<Token>, clock: int, limits: Limits)

  /** `kept` is what the ordered select of a successful login put first. */
  datatype Action =
    | Register(user: UserId)
    | SetEnabled(user: UserId, enabled: bool)
    | LogIn(user: UserId, valid: bool, token: Token, kept: set<Token>)
    | Resolve(token: Token)
    | Revoke(token: Token)
    | NewPassword(user: UserId, valid: bool, token: Token)

  predicate Succeeds(s: World, a: Action, now: int)
    requires a.LogIn?
  {
    a.user in s.accounts && Authenticated(s.accounts[a.user], a.valid, now).1
  }

  ghost predicate Enabled(s: World, a: Action, now: int) {
    match a
    case Register(user) => user !in s.accounts
    case SetEnabled(user, _) => user in s.accounts
    case LogIn(user, _, token, kept) => token !in s.used && (Succeeds(s, a, now) ==> IsKept(s.sessions, user, kept, s.limits.maxActive, now))
    case NewPassword(_, _, token) => token !in s.used
    case _ => true
  }

  function ResolveIn(s: World, token: Token, now: int): Sessions {
    if token !in s.sessions || s.sessions[token].user !in s.accounts then s.sessions
    else
      var row := s.sessions[token];
      s.sessions[token := if IsLive(row, now) && s.accounts[row.user].enabled then Touched(row, s.limits, now)
                          else if row.revoked.None? then row.(revoked := Some(now)) else row]
  }

  function LoggedIn(s: World, a: Action, now: int): Sessions
    requires a.LogIn?
  {
    Prepared(s.sessions, a.user, Active(s.sessions, a.user, now) - a.kept, now)[a.token := Issued(a.user, s.limits, now)]
  }

  function Do(s: World, a: Action, now: int): World {
    match a
    case Register(user) => s.(accounts := s.accounts[user := Account(true, 0, None)])
    case SetEnabled(user, enabled) =>
      if user in s.accounts then s.(accounts := s.accounts[user := s.accounts[user].(enabled := enabled)]) else s
    case LogIn(user, valid, token, kept) =>
      if user !in s.accounts then s
      else
        s.(accounts := s.accounts[user := Authenticated(s.accounts[user], valid, now).0],
           sessions := if Succeeds(s, a, now) then LoggedIn(s, a, now) else s.sessions,
           used := s.used + {token})
    case Resolve(token) => s.(sessions := ResolveIn(s, token, now))
    case Revoke(token) =>
      if token in s.sessions && s.sessions[token].revoked.None? then s.(sessions := Revoked(s.sessions, {token}, now)) else s
    case NewPassword(user, valid, token) =>
      if valid
      then s.(sessions := Revoked(s.sessions, Unrevoked(s.sessions, user), now)[token := Issued(user, s.limits, now)], used := s.used + {token})
      else s
  }

  ghost predicate Next(s: World, a: Action, s': World) {
    s.clock <= s'.clock && Enabled(s, a, s'.clock) && s' == Do(s, a, s'.clock).(clock := s'.clock)
  }

  predicate Init(s: World) { s.accounts == map[] && s.sessions == map[] && s.used == {} }

  ghost predicate IsRun(run: seq<World>, actions: seq<Action>) {
    && |run| == |actions| + 1 && Init(run[0])
    && forall i :: 0 <= i < |actions| ==> Next(run[i], actions[i], run[i + 1])
  }

  // ---------- One step ----------

  /** The token a step issues a session for, if it does. */
  function IssuedToken(s: World, a: Action, now: int): Option<Token> {
    match a
    case LogIn(_, _, token, _) => if Succeeds(s, a, now) then Some(token) else None
    case NewPassword(_, valid, token) => if valid then Some(token) else None
    case _ => None
  }

  predicate GoodSessions(s: World) {
    forall t :: t in s.sessions ==> t in s.used && s.sessions[t].idleExpires <= s.sessions[t].expires
  }

  /** This step opens session `t`: with a valid password for an account that takes passwords, or
      with a new password after the old one was given. */
  predicate OpensSession(s: World, a: Action, now: int, t: Token) {
    match a
    case LogIn(user, valid, token, _) => token == t && valid && user in s.accounts && TakesPasswords(s.accounts[user], now)
    case NewPassword(_, valid, token) => token == t && valid
    case _ => false
  }

  function UserOf(a: Action): UserId
    requires a.LogIn? || a.NewPassword?
  {
    a.user
  }

  /** A session appears exactly in the step that opens it. It belongs to the user who gave the
      password, and is live until it is idle for too long or its time is over. */
  lemma SessionsAreOpened(s: World, a: Action, s': World, t: Token)
    requires GoodSessions(s) && Next(s, a, s')
    ensures OpensSession(s, a, s'.clock, t) <==> t !in s.sessions && t in s'.sessions
    ensures OpensSession(s, a, s'.clock, t) ==>
              && s'.sessions[t].user == UserOf(a)
              && forall now :: IsLive(s'.sessions[t], now) <==> now < s'.clock + s.limits.idle
  {
    hide IsKept, Authenticated, Active, IsStale;
    if a.LogIn? && a.user in s.accounts { PasswordsAreJudged(s.accounts[a.user], a.valid, s'.clock); }
  }

  /** What becomes of a session that was there: it is revoked by name, with a new password, by a
      login that does not keep it, or when it is resolved although it is over; it is touched when
      it is resolved after a while; and only old history of the user who logs in is pruned. */
  lemma SessionsAreKept(s: World, a: Action, s': World, t: Token)
    requires GoodSessions(s) && Next(s, a, s') && t in s.sessions
    ensures var row, now := s.sessions[t], s'.clock;
            var cutoff := now - SESSION_HISTORY_RETENTION;
            var login := a.LogIn? && OpensSession(s, a, now, a.token) && a.user == row.user;
            var ended := row.revoked.None? && (|| a == Revoke(t)
                                               || (a.NewPassword? && a.valid && a.user == row.user)
                                               || (login && IsLive(row, now) && t !in a.kept)
                                               || (a == Resolve(t) && row.user in s.accounts
                                                   && !(IsLive(row, now) && s.accounts[row.user].enabled)));
            var touched := a == Resolve(t) && row.user in s.accounts && s.accounts[row.user].enabled && IsLive(row, now)
                           && SESSION_TOUCH_INTERVAL <= now - row.lastSeen;
            && (t !in s'.sessions <==> login && (row.expires < cutoff || (row.revoked.Some? && row.revoked.value < cutoff)))
            && (t in s'.sessions ==>
                  s'.sessions[t] == if ended then row.(revoked := Some(now))
                                    else if touched
                                    then row.(lastSeen := now,
                                              idleExpires := if now + s.limits.idle < row.expires then now + s.limits.idle else row.expires)
                                    else row)
  {
    hide IsKept, Authenticated;
    if a.LogIn? && a.user in s.accounts { PasswordsAreJudged(s.accounts[a.user], a.valid, s'.clock); }
  }

  /** A login judges the password, and no other step touches an account but to create, enable or
      disable it. */
  lemma AccountsAreJudged(s: World, a: Action, s': World, user: UserId)
    requires Next(s, a, s')
    ensures user in s'.accounts <==> user in s.accounts || a == Register(user)
    ensures a == Register(user) ==> s'.accounts[user] == Account(true, 0, None)
    ensures user in s.accounts ==>
            if a.LogIn? && a.user == user
            then IsJudged(s.accounts[user], a.valid, s'.clock, s'.accounts[user], OpensSession(s, a, s'.clock, a.token))
            else if a.SetEnabled? && a.user == user then s'.accounts[user] == s.accounts[user].(enabled := a.enabled)
            else s'.accounts[user] == s.accounts[user]
  {
    hide IsKept, Authenticated, Prepared, Active;
    if a.LogIn? && a.user == user && user in s.accounts { PasswordsAreJudged(s.accounts[user], a.valid, s'.clock); }
  }

  /** A session that a step did not issue is live only if it was live before. */
  lemma LiveWasLive(s: World, a: Action, s': World, t: Token)
    requires Next(s, a, s') && t in s'.sessions && IsLive(s'.sessions[t], s'.clock) && IssuedToken(s, a, s'.clock) != Some(t)
    ensures t in s.sessions && IsLive(s.sessions[t], s.clock) && IsLive(s.sessions[t], s'.clock)
    ensures s'.sessions[t].user == s.sessions[t].user
  {
    hide IsKept, Authenticated;
  }

  /** Pruning and revoking what is over never touches what is active: a live session leaves the
      table in no step, and is revoked only by name, by a new password or by a login of its user. */
  lemma LiveSessionsStay(s: World, a: Action, s': World, t: Token)
    requires GoodSessions(s) && Next(s, a, s') && t in s.sessions && IsLive(s.sessions[t], s'.clock)
    ensures t in s'.sessions && s'.sessions[t].user == s.sessions[t].user && s'.sessions[t].expires == s.sessions[t].expires
    ensures s'.sessions[t].revoked.Some? ==>
              || a == Revoke(t)
              || (a == Resolve(t) && s.sessions[t].user in s.accounts && !s.accounts[s.sessions[t].user].enabled)
              || (a.NewPassword? && a.user == s.sessions[t].user)
              || (a.LogIn? && a.user == s.sessions[t].user && t !in a.kept)
  {
    hide IsKept, Authenticated;
  }

  lemma GoodSessionsStep(s: World, a: Action, s': World)
    requires GoodSessions(s) && Next(s, a, s')
    ensures GoodSessions(s') && s.used <= s'.used && s'.limits == s.limits
    ensures IssuedToken(s, a, s'.clock).Some? ==> IssuedToken(s, a, s'.clock).value !in s.used && IssuedToken(s, a, s'.clock).value in s'.used
  {
    hide IsKept, Authenticated, Active;
  }

  /** The user an issued session belongs to has room for it. */
  lemma IssuingKeepsBound(s: World, a: Action, s': World, user: UserId)
    requires Next(s, a, s') && IssuedToken(s, a, s'.clock).Some? && (a.LogIn? || a.NewPassword?) && a.user == user
    ensures |Active(s'.sessions, user, s'.clock)| <= s.limits.maxActive
  {
    var after := Active(s'.sessions, user, s'.clock);
    if a.LogIn? {
      assert after <= a.kept + {a.token};
      SubsetSplits(after, a.kept + {a.token});
    } else {
      assert after <= {a.token};
      SubsetSplits(after, {a.token});
    }
  }

  lemma OthersKeepBound(s: World, a: Action, s': World, user: UserId)
    requires Next(s, a, s') && |Active(s.sessions, user, s.clock)| <= s.limits.maxActive
    requires IssuedToken(s, a, s'.clock).Some? && (a.LogIn? || a.NewPassword?) ==> a.user != user
    ensures |Active(s'.sessions, user, s'.clock)| <= s.limits.maxActive
  {
    forall t | t in Active(s'.sessions, user, s'.clock) ensures t in Active(s.sessions, user, s.clock) {
      if IssuedToken(s, a, s'.clock) != Some(t) { LiveWasLive(s, a, s', t); }
    }
    SubsetSplits(Active(s'.sessions, user, s'.clock), Active(s.sessions, user, s.clock));
  }

  // ---------- The results ----------

  lemma {:induction false} GoodSessionsAlways(run: seq<World>, actions: seq<Action>, i: nat)
    requires IsRun(run, actions) && i < |run|
    ensures GoodSessions(run[i]) && run[i].limits == run[0].limits
  {
    hide Next;
    if i > 0 {
      GoodSessionsAlways(run, actions, i - 1);
      GoodSessionsStep(run[i - 1], actions[i - 1], run[i]);
    }
  }

  /** A user never has more than the allowed number of active sessions. */
  lemma {:induction false} SessionsAreBounded(run: seq<World>, actions: seq<Action>, i: nat, user: UserId)
    requires IsRun(run, actions) && i < |run|
    ensures |Active(run[i].sessions, user, run[i].clock)| <= run[0].limits.maxActive
  {
    hide Next, Active, IssuedToken;
    if i == 0 {
      NoSessions(run[0], user);
    } else {
      var s, a, s' := run[i - 1], actions[i - 1], run[i];
      SessionsAreBounded(run, actions, i - 1, user);
      GoodSessionsAlways(run, actions, i - 1);
      if IssuedToken(s, a, s'.clock).Some? && (a.LogIn? || a.NewPassword?) && a.user == user {
        IssuingKeepsBound(s, a, s', user);
      } else {
        OthersKeepBound(s, a, s', user);
      }
    }
  }

  /** No session without a password: whatever session a run shows was opened by a step of it. */
  lemma {:induction false} SessionsNeedPasswords(run: seq<World>, actions: seq<Action>, k: nat, t: Token)
    requires IsRun(run, actions) && k < |run| && t in run[k].sessions
    ensures exists n :: 0 <= n < k && OpensSession(run[n], actions[n], run[n + 1].clock, t)
                        && UserOf(actions[n]) == run[k].sessions[t].user
  {
    hide Next, OpensSession;
    if k > 0 {
      var s, a, s' := run[k - 1], actions[k - 1], run[k];
      GoodSessionsAlways(run, actions, k - 1);
      SessionsAreOpened(s, a, s', t);
      if t in s.sessions {
        SessionsNeedPasswords(run, actions, k - 1, t);
        SessionsAreKept(s, a, s', t);
      }
    }
  }

  lemma NoSessions(s: World, user: UserId)
    requires s.sessions == map[]
    ensures |Active(s.sessions, user, s.clock)| == 0
  {
    assert Active(s.sessions, user, s.clock) == {};
  }

  /** A session that expired, was revoked or was pruned is never active again. */
  lemma {:induction false} DeadSessionsStayDead(run: seq<World>, actions: seq<Action>, i: nat, k: nat, t: Token)
    requires IsRun(run, actions) && i <= k < |run| && t in run[i].used
    requires t in run[i].sessions ==> !IsLive(run[i].sessions[t], run[i].clock)
    ensures t in run[k].used && (t in run[k].sessions ==> !IsLive(run[k].sessions[t], run[k].clock))
  {
    hide Next, IsLive, IssuedToken;
    if i < k {
      var s, a, s' := run[k - 1], actions[k - 1], run[k];
      DeadSessionsStayDead(run, actions, i, k - 1, t);
      GoodSessionsAlways(run, actions, k - 1);
      GoodSessionsStep(s, a, s');
      if t in s'.sessions && IsLive(s'.sessions[t], s'.clock) { LiveWasLive(s, a, s', t); }
    }
  }

  /** An account that is locked has failed exactly as often as the threshold. */
  predicate GoodAccount(a: Account, clock: int) {
    && a.failedAttempts <= LOGIN_LOCK_THRESHOLD
    && (a.lockedUntil.Some? <==> a.failedAttempts == LOGIN_LOCK_THRESHOLD)
    && (a.lockedUntil.Some? ==> a.lockedUntil.value <= clock + 30)
  }

  lemma AuthenticationKeeps(a: Account, valid: bool, clock: int, now: int)
    requires GoodAccount(a, clock) && clock <= now
    ensures GoodAccount(Authenticated(a, valid, now).0, now)
  {
    assert LockSeconds(LOGIN_LOCK_THRESHOLD) == 30;
  }

  lemma AccountStep(s: World, a: Action, s': World, user: UserId)
    requires Next(s, a, s') && user in s'.accounts && (user in s.accounts ==> GoodAccount(s.accounts[user], s.clock))
    ensures GoodAccount(s'.accounts[user], s'.clock)
  {
    if user in s.accounts && a.LogIn? { AuthenticationKeeps(s.accounts[user], a.valid, s.clock, s'.clock); }
    hide Authenticated, IsKept, Prepared;
  }

  /** A lockout never lasts longer than half a minute: it sets in at the fifth failure, a locked
      account counts no further failures, and an elapsed lockout starts the count again, so the
      longer delays are never reached. */
  lemma {:induction false} LockoutsStayShort(run: seq<World>, actions: seq<Action>, i: nat, user: UserId)
    requires IsRun(run, actions) && i < |run| && user in run[i].accounts
    ensures GoodAccount(run[i].accounts[user], run[i].clock)
  {
    hide Next;
    if i > 0 {
      if user in run[i - 1].accounts { LockoutsStayShort(run, actions, i - 1, user); }
      AccountStep(run[i - 1], actions[i - 1], run[i], user);
    }
  }
}
