/** The connection row as the services change it: column by column in a session, then a
    commit, or a rollback when the request is rejected. Every method is proved to leave in
    the database exactly what the corresponding function of TelegramAuth says. */
module ConnectionService {
  import opened Wrappers
  import opened ScanRows
  import opened TelegramAuth

  class TelegramConnection {
    var state: ConnectionState
    var principal: Option<int>
    var apiId: Option<Cipher>
    var apiHash: Option<Cipher>
    var phone: Option<Cipher>
    var session: Option<Cipher>
    var codeHash: Option<Cipher>
    var challengeExpiresAt: Option<int>
    var passwordRequired: bool
    var generation: nat
    /** The row in the database. */
    var committed: Connection

    function Row(): Connection
      reads this
    {
      Connection(state, principal, apiId, apiHash, phone, session, codeHash, challengeExpiresAt, passwordRequired, generation)
    }

    /** The session holds no uncommitted change. */
    predicate Clean()
      reads this
    {
      Row() == committed
    }

    constructor (row: Connection)
      ensures Clean() && committed == row
    {
      state, principal, generation, committed := row.state, row.principal, row.generation, row;
      apiId, apiHash, phone, session := row.apiId, row.apiHash, row.phone, row.session;
      codeHash, challengeExpiresAt, passwordRequired := row.codeHash, row.challengeExpiresAt, row.passwordRequired;
    }

    method Commit()
      modifies this`committed
      ensures committed == Row()
    {
      committed := Row();
    }

    method Rollback()
      modifies this
      ensures Clean() && committed == old(committed)
    {
      state, principal, generation := committed.state, committed.principal, committed.generation;
      apiId, apiHash, phone, session := committed.apiId, committed.apiHash, committed.phone, committed.session;
      codeHash, challengeExpiresAt := committed.codeHash, committed.challengeExpiresAt;
      passwordRequired := committed.passwordRequired;
    }

    method ClearChallenge()
      modifies this`codeHash, this`challengeExpiresAt, this`passwordRequired
      ensures Row() == WithoutChallenge(old(Row()))
    {
      codeHash := None;
      challengeExpiresAt := None;
      passwordRequired := false;
    }

    method EraseMaterial()
      modifies this`principal, this`apiId, this`apiHash, this`phone, this`session
      ensures Row() == old(Row()).(principal := None, apiId := None, apiHash := None, phone := None, session := None)
    {
      principal := None;
      apiId := None;
      apiHash := None;
      phone := None;
      session := None;
    }

    /** `_invalidate_corrupt_connection`, `_invalidate_authorization` and the two branches that
        erase everything: the caller says which state is left. */
    method Invalidate(left: ConnectionState)
      modifies this
      ensures Clean() && committed == Erased(old(Row()), left)
    {
      EraseMaterial();
      ClearChallenge();
      state := left;
      generation := generation + 1;
      Commit();
    }

    method EraseExpiredChallenge()
      modifies this
      ensures Clean() && committed == ChallengeErased(old(Row()))
    {
      ClearChallenge();
      EraseMaterial();
      state := Disconnected;
      Commit();
    }

    method Status(opens: bool, now: int) returns (reply: Reply, cancelled: bool)
      requires Clean()
      modifies this
      ensures Clean() && Effect(committed, cancelled, reply) == TelegramAuth.Status(old(committed), opens, now)
    {
      if LooksCorrupt(Row()) {
        Invalidate(Errored);
        return ReplyDisconnected, true;
      }
      if state != Challenged && state != Connected { return ReplyDisconnected, false; }
      if state == Challenged && IsChallengeExpired(Row(), now) {
        EraseExpiredChallenge();
        return ReplyDisconnected, false;
      }
      if !opens {
        Invalidate(Errored);
        return ReplyDisconnected, true;
      }
      return ResponseState(Row()), false;
    }

    /** Binds the account the client is authorized as; says whether active scans are cancelled. */
    method BindPrincipal(identity: int) returns (cancelled: bool)
      modifies this`principal, this`generation
      ensures Row() == Bound(old(Row()), identity) && cancelled == BindingOpensGeneration(old(Row()), identity)
    {
      cancelled := false;
      if principal != Some(identity) && (principal.Some? || state != Challenged) {
        cancelled := true;
        generation := generation + 1;
      }
      principal := Some(identity);
    }

    method Connect(identity: int, saved: Cipher) returns (cancelled: bool)
      modifies this
      ensures Clean()
      ensures committed == WithoutChallenge(Bound(old(Row()), identity)).(state := Connected, session := Some(saved))
      ensures cancelled == BindingOpensGeneration(old(Row()), identity)
    {
      cancelled := BindPrincipal(identity);
      ClearChallenge();
      state := Connected;
      session := Some(saved);
      Commit();
    }

    method OpenChallenge(number: Cipher, hash: Option<Cipher>, saved: Cipher, now: int)
      modifies this
      ensures Clean()
      ensures committed == old(Row()).(phone := Some(number), codeHash := hash, challengeExpiresAt := Some(now + CHALLENGE_TTL_SECONDS),
                                       passwordRequired := false, state := Challenged, principal := None,
                                       generation := old(generation) + 1, session := Some(saved))
    {
      phone := Some(number);
      codeHash := hash;
      challengeExpiresAt := Some(now + CHALLENGE_TTL_SECONDS);
      passwordRequired := false;
      state := Challenged;
      principal := None;
      generation := generation + 1;
      session := Some(saved);
      Commit();
    }

    /** Columns are assigned as the answers arrive; a rejected request rolls back to the last commit. */
    method Start(request: StartRequest, opens: bool, phoneOpens: bool, answer: StartAnswer, conflict: bool, now: int)
      returns (reply: Reply, cancelled: bool)
      requires Clean()
      modifies this
      ensures Clean()
      ensures Effect(committed, cancelled, reply) == TelegramAuth.Start(old(committed), request, opens, phoneOpens, answer, conflict, now)
    {
      cancelled := false;
      if StartFindsCorruption(Row(), opens) {
        Invalidate(Errored);
        cancelled := true;
      }
      apiId := Some(request.apiId);
      apiHash := Some(request.apiHash);
      if !answer.up {
        Rollback();
        return Rejected(ClientFailed), cancelled;
      }
      if answer.authorized {
        if phone.Some? && phoneOpens && !request.samePhone {
          Rollback();
          return Rejected(PhoneMismatch), cancelled;
        }
        if answer.identity.None? {
          Rollback();
          return Rejected(VerificationFailed), cancelled;
        }
        if conflict {
          Rollback();
          return Rejected(IdentityConflict), cancelled;
        }
        var rebound := Connect(answer.identity.value, answer.session);
        return ReplyConnected, cancelled || rebound;
      }
      if answer.codeHash.None? {
        Rollback();
        return Rejected(VerificationFailed), cancelled;
      }
      OpenChallenge(request.phone, answer.codeHash, answer.session, now);
      return ReplyCodeRequired, true;
    }

    method Verify(opens: bool, answer: VerifyAnswer, conflict: bool, now: int) returns (reply: Reply, cancelled: bool)
      requires Clean()
      modifies this
      ensures Clean() && Effect(committed, cancelled, reply) == TelegramAuth.Verify(old(committed), opens, answer, conflict, now)
    {
      if session.None? { return Rejected(NotFound), false; }
      if state == Connected { return ReplyConnected, false; }
      if state != Challenged { return Rejected(NotFound), false; }
      if IsChallengeExpired(Row(), now) {
        EraseExpiredChallenge();
        return Rejected(ChallengeExpired), false;
      }
      if phone.None? || codeHash.None? || apiId.None? || apiHash.None? { return Rejected(NotFound), false; }
      if !opens {
        Invalidate(Errored);
        return Rejected(VerificationFailed), true;
      }
      if !answer.up || answer.signIn == SignInFailed { return Rejected(ClientFailed), false; }
      if answer.signIn == NeedsPassword {
        state := Challenged;
        passwordRequired := true;
        session := Some(answer.session);
        Commit();
        return ReplyPasswordRequired, false;
      }
      cancelled := false;
      if answer.authorized {
        if answer.identity.None? { return Rejected(VerificationFailed), false; }
        if conflict { return Rejected(IdentityConflict), false; }
        cancelled := BindPrincipal(answer.identity.value);
      }
      session := Some(answer.session);
      if !answer.authorized {
        Commit();
        return Rejected(VerificationFailed), false;
      }
      ClearChallenge();
      state := Connected;
      Commit();
      return ReplyConnected, cancelled;
    }

    method Revoke() returns (reply: Reply, cancelled: bool)
      requires Clean()
      modifies this
      ensures Clean() && Effect(committed, cancelled, reply) == TelegramAuth.Revoke(old(committed))
      ensures HoldsNothing(committed) && state == Disconnected && generation == old(generation) + 1 && cancelled
    {
      Invalidate(Disconnected);
      return ReplyDisconnected, true;
    }

    method DeleteRemote(p: Provenance, opens: bool, answer: IdentityAnswer) returns (reply: Reply, cancelled: bool)
      requires Clean()
      modifies this
      ensures Clean() && Effect(committed, cancelled, reply) == TelegramAuth.DeleteRemote(old(committed), p, opens, answer)
    {
      if principal != Some(p.principal) || generation != p.generation || state != Connected || session.None? {
        return Rejected(NotFound), false;
      }
      if !opens {
        Invalidate(Disconnected);
        return Rejected(ClientFailed), true;
      }
      if !answer.up { return Rejected(ClientFailed), false; }
      if !answer.authorized || answer.identity != Some(p.principal) {
        Invalidate(Disconnected);
        return Rejected(ClientFailed), true;
      }
      session := Some(answer.session);
      Commit();
      return ReplyConnected, false;
    }

    /** Two branches of the scan validation leave the challenge columns alone. */
    method InvalidateKeepingChallenge()
      modifies this
      ensures Clean() && committed == ErasedKeepingChallenge(old(Row()))
    {
      state := Errored;
      EraseMaterial();
      generation := generation + 1;
      Commit();
    }

    /** The new session is assigned before the answer is judged; on success the caller commits
        it together with the new job. */
    method ValidateForScan(opens: bool, answer: IdentityAnswer) returns (reply: Reply)
      requires Clean()
      modifies this
      ensures Effect(Row(), false, reply) == TelegramAuth.ValidateForScan(old(committed), opens, answer)
      ensures reply != ReplyConnected ==> Clean()
      ensures reply == ReplyConnected ==> committed == old(committed)
    {
      if state != Connected || session.None? { return Rejected(NotFound); }
      if !opens {
        Invalidate(Errored);
        return Rejected(ClientFailed);
      }
      if !answer.up { return Rejected(ClientFailed); }
      session := Some(answer.session);
      if !answer.authorized {
        Invalidate(Disconnected);
        return Rejected(ClientFailed);
      }
      if answer.identity.None? {
        InvalidateKeepingChallenge();
        return Rejected(ClientFailed);
      }
      if principal.None? {
        principal := answer.identity;
        generation := generation + 1;
      } else if principal != answer.identity {
        InvalidateKeepingChallenge();
        return Rejected(ClientFailed);
      }
      return ReplyConnected;
    }
  }
}
