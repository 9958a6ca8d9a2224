/** The Telegram connection of one user: auth/service.py, telegram/client.py and the
    connection-changing parts of telegram/service.py, as functions of the row and of what
    Telegram and the cipher answer. ConnectionService changes the row in place to match. */
module TelegramAuth {
  import opened Wrappers
  import opened ScanRows

  const CHALLENGE_TTL_SECONDS := 600

  /** disconnected, pending (a challenge was sent), connected, error */
  datatype ConnectionState = Disconnected | Challenged | Connected | Errored

  datatype Connection = Connection(
    state: ConnectionState,
    principal: Option<int>,
    apiId: Option<Cipher>,
    apiHash: Option<Cipher>,
    phone: Option<Cipher>,
    session: Option<Cipher>,
    codeHash: Option<Cipher>,
    challengeExpiresAt: Option<int>,
    passwordRequired: bool,
    generation: nat)

  const FRESH := Connection(Disconnected, None, None, None, None, None, None, None, false, 0)

  datatype AuthError = NotFound | ChallengeExpired | VerificationFailed | IdentityConflict | PhoneMismatch | ClientFailed

  datatype Reply =
    | ReplyDisconnected
    | ReplyCodeRequired
    | ReplyPasswordRequired
    | ReplyConnected
    | Rejected(error: AuthError)

  /** What a transaction leaves behind: the committed row, whether the user's active scans
      were cancelled with it, and what the caller is told. */
  datatype Effect = Effect(row: Connection, cancelled: bool, reply: Reply)

  /** The new ciphertexts a start request carries, and whether its phone number is the one
      already stored. */
  datatype StartRequest = StartRequest(apiId: Cipher, apiHash: Cipher, phone: Cipher, samePhone: bool)

  /** What Telegram answers. `identity` is absent when the client returned no integer id;
      `session` is the serialized session after the exchange. */
  datatype StartAnswer =
    | StartAnswer(up: bool, authorized: bool, identity: Option<int>, codeHash: Option<Cipher>, session: Cipher)

  datatype SignIn = SignedIn | NeedsPassword | SignInFailed

  datatype VerifyAnswer =
    | VerifyAnswer(up: bool, signIn: SignIn, authorized: bool, identity: Option<int>, session: Cipher)

  datatype IdentityAnswer = IdentityAnswer(up: bool, authorized: bool, identity: Option<int>, session: Cipher)

  // ---------- The rule every transition keeps ----------

  predicate NoChallenge(c: Connection) {
    c.codeHash.None? && c.challengeExpiresAt.None? && !c.passwordRequired
  }

  predicate HasCredentials(c: Connection) {
    c.session.Some? && c.apiId.Some? && c.apiHash.Some? && c.phone.Some?
  }

  predicate HoldsNothing(c: Connection) {
    && c.principal.None? && c.session.None? && c.apiId.None? && c.apiHash.None? && c.phone.None?
    && NoChallenge(c)
  }

  predicate Coherent(c: Connection) {
    match c.state
    case Connected => HasCredentials(c) && c.principal.Some? && NoChallenge(c)
    case Challenged => HasCredentials(c) && c.principal.None? && c.codeHash.Some? && c.challengeExpiresAt.Some?
    case _ => HoldsNothing(c)
  }

  /** A generation only grows, a principal is only bound in a generation no principal was
      bound in before, and a challenge is only opened in such a generation. */
  predicate GenerationStep(c: Connection, c': Connection) {
    && c.generation <= c'.generation
    && (c'.principal.Some? ==>
          || c.generation < c'.generation
          || c'.principal == c.principal
          || c.state == Challenged)
    && (c'.state == Challenged ==> c.generation < c'.generation || c.state == Challenged)
  }

  // ---------- Erasing ----------

  /** Erases all material and opens a new generation. */
  function Erased(c: Connection, state: ConnectionState): Connection {
    FRESH.(state := state, generation := c.generation + 1)
  }

  /** The shorter erasure of two branches of the scan validation, which leaves the
      challenge columns as they are. */
  function ErasedKeepingChallenge(c: Connection): Connection {
    c.(state := Errored, principal := None, generation := c.generation + 1,
       apiId := None, apiHash := None, phone := None, session := None)
  }

  /** Erases an expired challenge without opening a new generation. */
  function ChallengeErased(c: Connection): Connection { FRESH.(generation := c.generation) }

  function WithoutChallenge(c: Connection): Connection {
    c.(codeHash := None, challengeExpiresAt := None, passwordRequired := false)
  }

  predicate IsChallengeExpired(c: Connection, now: int) {
    c.challengeExpiresAt.None? || c.challengeExpiresAt.value <= now
  }

  // ---------- status ----------

  /** The `any(...)` test of the service; a principal of zero is falsy there. */
  predicate HasAnyMaterial(c: Connection) {
    || (c.principal.Some? && c.principal.value != 0)
    || c.session.Some? || c.apiId.Some? || c.apiHash.Some? || c.phone.Some?
    || c.codeHash.Some? || c.challengeExpiresAt.Some? || c.passwordRequired
  }

  /** The branches of `status` that find missing or extra material. */
  predicate LooksCorrupt(c: Connection) {
    match c.state
    case Challenged =>
      !(HasCredentials(c) && c.codeHash.Some? && c.challengeExpiresAt.Some?) || c.principal.Some?
    case Connected =>
      !(HasCredentials(c) && c.principal.Some? && c.principal.value != 0) || !NoChallenge(c)
    case _ => HasAnyMaterial(c)
  }

  function ResponseState(c: Connection): Reply {
    match c.state
    case Connected => ReplyConnected
    case Challenged => if c.passwordRequired then ReplyPasswordRequired else ReplyCodeRequired
    case _ => ReplyDisconnected
  }

  function Status(c: Connection, opens: bool, now: int): (effect: Effect)
    ensures Coherent(c) ==> Coherent(effect.row) && GenerationStep(c, effect.row)
    ensures effect.row.principal in {None, c.principal}
    ensures effect.reply == ReplyConnected ==> effect.row == c && c.state == Connected && opens && !effect.cancelled
  {
    if LooksCorrupt(c) then Effect(Erased(c, Errored), true, ReplyDisconnected)
    else if c.state !in {Challenged, Connected} then Effect(c, false, ReplyDisconnected)
    else if c.state == Challenged && IsChallengeExpired(c, now) then Effect(ChallengeErased(c), false, ReplyDisconnected)
    else if !opens then Effect(Erased(c, Errored), true, ReplyDisconnected)
    else Effect(c, false, ResponseState(c))
  }

  // ---------- start ----------

  /** The stored session cannot be reused: the row is invalidated and committed before the
      client is asked anything. */
  predicate StartFindsCorruption(c: Connection, opens: bool) {
    if c.state in {Challenged, Connected} then c.session.Some? && !opens else HasAnyMaterial(c)
  }

  predicate ReusesSession(c: Connection, opens: bool) {
    c.state in {Challenged, Connected} && c.session.Some? && opens
  }

  /** Binding opens a new generation unless the principal is already bound or a challenge is
      pending with no principal bound. */
  predicate BindingOpensGeneration(c: Connection, identity: int) {
    c.principal != Some(identity) && (c.principal.Some? || c.state != Challenged)
  }

  function Bound(c: Connection, identity: int): Connection {
    c.(principal := Some(identity),
       generation := if BindingOpensGeneration(c, identity) then c.generation + 1 else c.generation)
  }

  function Start(c: Connection, request: StartRequest, opens: bool, phoneOpens: bool, answer: StartAnswer,
                 conflict: bool, now: int): (effect: Effect)
    ensures Coherent(c) ==> GenerationStep(c, effect.row)
    // Coherence is lost exactly when Telegram calls a session it was not given authorized, and
    // names an account that is free: binding it leaves a connection without a phone number.
    ensures Coherent(c) ==>
              (!Coherent(effect.row) <==> answer.up && answer.authorized && answer.identity.Some? && !conflict && !ReusesSession(c, opens))
    ensures effect.row.principal.Some? ==>
              effect.row.principal == c.principal || (!conflict && effect.row.principal == answer.identity)
    ensures effect.reply.Rejected? ==> effect.row in {c, Erased(c, Errored)}
    ensures c.generation < effect.row.generation ==> effect.cancelled
  {
    var broken := StartFindsCorruption(c, opens);
    var c1 := if broken then Erased(c, Errored) else c;
    var c2 := c1.(apiId := Some(request.apiId), apiHash := Some(request.apiHash));
    if !answer.up then Effect(c1, broken, Rejected(ClientFailed))
    else if answer.authorized then
      if c1.phone.Some? && phoneOpens && !request.samePhone then Effect(c1, broken, Rejected(PhoneMismatch))
      else if answer.identity.None? then Effect(c1, broken, Rejected(VerificationFailed))
      else if conflict then Effect(c1, broken, Rejected(IdentityConflict))
      else
        Effect(WithoutChallenge(Bound(c2, answer.identity.value)).(state := Connected, session := Some(answer.session)),
               broken || BindingOpensGeneration(c2, answer.identity.value),
               ReplyConnected)
    else if answer.codeHash.None? then Effect(c1, broken, Rejected(VerificationFailed))
    else
      Effect(c2.(phone := Some(request.phone), codeHash := answer.codeHash,
                 challengeExpiresAt := Some(now + CHALLENGE_TTL_SECONDS), passwordRequired := false,
                 state := Challenged, principal := None, generation := c2.generation + 1,
                 session := Some(answer.session)),
             true, ReplyCodeRequired)
  }

  // ---------- verify ----------

  function Verify(c: Connection, opens: bool, answer: VerifyAnswer, conflict: bool, now: int): (effect: Effect)
    ensures Coherent(c) ==> Coherent(effect.row) && GenerationStep(c, effect.row)
    ensures effect.row.principal.Some? ==>
              effect.row.principal == c.principal || (!conflict && effect.row.principal == answer.identity)
    // A retried request after success is answered without touching the row.
    ensures c.state == Connected && c.session.Some? ==> effect == Effect(c, false, ReplyConnected)
    ensures effect.reply == ReplyConnected ==> effect.row.state == Connected
    ensures c.generation < effect.row.generation ==> effect.cancelled
  {
    if c.session.None? then Effect(c, false, Rejected(NotFound))
    else if c.state == Connected then Effect(c, false, ReplyConnected)
    else if c.state != Challenged then Effect(c, false, Rejected(NotFound))
    else if IsChallengeExpired(c, now) then Effect(ChallengeErased(c), false, Rejected(ChallengeExpired))
    else if c.phone.None? || c.codeHash.None? || c.apiId.None? || c.apiHash.None?
    then Effect(c, false, Rejected(NotFound))
    else if !opens then Effect(Erased(c, Errored), true, Rejected(VerificationFailed))
    else if !answer.up || answer.signIn == SignInFailed then Effect(c, false, Rejected(ClientFailed))
    else if answer.signIn == NeedsPassword
    then Effect(c.(passwordRequired := true, session := Some(answer.session)), false, ReplyPasswordRequired)
    else if !answer.authorized
    then Effect(c.(session := Some(answer.session)), false, Rejected(VerificationFailed))
    else if answer.identity.None? then Effect(c, false, Rejected(VerificationFailed))
    else if conflict then Effect(c, false, Rejected(IdentityConflict))
    else
      Effect(WithoutChallenge(Bound(c, answer.identity.value)).(state := Connected, session := Some(answer.session)),
             BindingOpensGeneration(c, answer.identity.value),
             ReplyConnected)
  }

  // ---------- disconnect, invalidation, deletion of remote messages ----------

  function Revoke(c: Connection): Effect { Effect(Erased(c, Disconnected), true, ReplyDisconnected) }

  predicate Matches(c: Connection, p: Provenance) {
    c.principal == Some(p.principal) && c.generation == p.generation
  }

  predicate ConnectedAs(c: Connection, p: Provenance) { Matches(c, p) && c.state == Connected }

  /** Deleting cached messages of provenance `p` from Telegram; `ReplyConnected` means the
      messages were deleted there and may be deleted locally. */
  function DeleteRemote(c: Connection, p: Provenance, opens: bool, answer: IdentityAnswer): (effect: Effect)
    ensures Coherent(c) ==> Coherent(effect.row) && GenerationStep(c, effect.row)
    ensures effect.row.principal in {None, c.principal}
    ensures effect.reply == ReplyConnected ==> ConnectedAs(c, p) && answer.identity == Some(p.principal) && !effect.cancelled
    ensures c.generation < effect.row.generation ==> effect.cancelled
  {
    if !ConnectedAs(c, p) || c.session.None? then Effect(c, false, Rejected(NotFound))
    else if !opens then Effect(Erased(c, Disconnected), true, Rejected(ClientFailed))
    else if !answer.up then Effect(c, false, Rejected(ClientFailed))
    else if !answer.authorized || answer.identity != Some(p.principal)
    then Effect(Erased(c, Disconnected), true, Rejected(ClientFailed))
    else Effect(c.(session := Some(answer.session)), false, ReplyConnected)
  }

  // ---------- scan start ----------

  /** The validation a new scan passes through; `ReplyConnected` means the scan may be
      created with the provenance of the returned row. No scans are cancelled here. */
  function ValidateForScan(c: Connection, opens: bool, answer: IdentityAnswer): (effect: Effect)
    ensures Coherent(c) ==> Coherent(effect.row) && GenerationStep(c, effect.row)
    ensures Coherent(c) ==> effect.row.principal in {None, c.principal}
    ensures Coherent(c) && effect.reply == ReplyConnected ==>
              && c.state == Connected && answer.authorized && answer.identity == c.principal
              && effect.row == c.(session := Some(answer.session))
  {
    if c.state != Connected || c.session.None? then Effect(c, false, Rejected(NotFound))
    else if !opens then Effect(Erased(c, Errored), false, Rejected(ClientFailed))
    else if !answer.up then Effect(c, false, Rejected(ClientFailed))
    else if !answer.authorized then Effect(Erased(c, Disconnected), false, Rejected(ClientFailed))
    else if answer.identity.None? then Effect(ErasedKeepingChallenge(c), false, Rejected(ClientFailed))
    else if c.principal.None?
    then Effect(c.(session := Some(answer.session), principal := answer.identity, generation := c.generation + 1),
                false, ReplyConnected)
    else if c.principal != answer.identity then Effect(ErasedKeepingChallenge(c), false, Rejected(ClientFailed))
    else Effect(c.(session := Some(answer.session)), false, ReplyConnected)
  }

  // ---------- What each request comes to ----------

  /** The connection holds nothing any more. */
  predicate IsCleared(c: Connection, state: ConnectionState, generation: nat) {
    HoldsNothing(c) && c.state == state && c.generation == generation
  }

  predicate IsUnder(c: Connection) { c.state == Challenged || c.state == Connected }

  /** A disconnect erases everything, opens a new generation and cancels the scans. */
  lemma DisconnectingErases(c: Connection)
    ensures var effect := Revoke(c);
            IsCleared(effect.row, Disconnected, c.generation + 1) && effect.cancelled && effect.reply == ReplyDisconnected
  {
  }

  /** The status is that of the row, unless its secrets cannot be opened, its challenge is over, or
      it is bound to account zero. */
  lemma StatusTellsTheTruth(c: Connection, opens: bool, now: int)
    requires Coherent(c)
    ensures var effect := Status(c, opens, now);
            var zero := c.state == Connected && c.principal == Some(0);
            var over := c.state == Challenged && c.challengeExpiresAt.value <= now;
            && (effect.reply == ReplyConnected <==> c.state == Connected && opens && !zero)
            && (effect.reply == ReplyCodeRequired <==> c.state == Challenged && opens && !over && !c.passwordRequired)
            && (effect.reply == ReplyPasswordRequired <==> c.state == Challenged && opens && !over && c.passwordRequired)
            && !effect.reply.Rejected?
            && (effect.cancelled <==> zero || (IsUnder(c) && !opens && !over))
            && (if effect.cancelled then IsCleared(effect.row, Errored, c.generation + 1)
                else if over then IsCleared(effect.row, Disconnected, c.generation) else effect.row == c)
  {
  }

  /** A start binds the account of a client that is authorized already, or sends a code; every
      refusal has its reason, and leaves the row as it was, or erased if its secrets could not be
      opened. */
  lemma StartBindsOrSendsCode(c: Connection, request: StartRequest, opens: bool, phoneOpens: bool, answer: StartAnswer, conflict: bool, now: int)
    requires Coherent(c)
    ensures var effect := Start(c, request, opens, phoneOpens, answer, conflict, now);
            var broken := IsUnder(c) && !opens;
            var other := IsUnder(c) && opens && phoneOpens && !request.samePhone;
            var g := if broken then c.generation + 1 else c.generation;
            && (effect.reply == Rejected(ClientFailed) <==> !answer.up)
            && (effect.reply == Rejected(PhoneMismatch) <==> answer.up && answer.authorized && other)
            && (effect.reply == Rejected(IdentityConflict) <==> answer.up && answer.authorized && !other && answer.identity.Some? && conflict)
            && (effect.reply == ReplyConnected <==> answer.up && answer.authorized && !other && answer.identity.Some? && !conflict)
            && (effect.reply == ReplyCodeRequired <==> answer.up && !answer.authorized && answer.codeHash.Some?)
            && (effect.reply == Rejected(VerificationFailed) <==>
                  answer.up && if answer.authorized then !other && answer.identity.None? else answer.codeHash.None?)
            && (effect.reply.Rejected? ==>
                  (effect.cancelled <==> broken) && if broken then IsCleared(effect.row, Errored, g) else effect.row == c)
            && (!effect.reply.Rejected? ==>
                  && effect.row.apiId == Some(request.apiId) && effect.row.apiHash == Some(request.apiHash)
                  && effect.row.session == Some(answer.session))
            && (effect.reply == ReplyCodeRequired ==>
                  && effect.cancelled && effect.row.state == Challenged && effect.row.principal.None? && effect.row.generation == g + 1
                  && effect.row.phone == Some(request.phone) && effect.row.codeHash == answer.codeHash && !effect.row.passwordRequired
                  && effect.row.challengeExpiresAt == Some(now + CHALLENGE_TTL_SECONDS))
            && (effect.reply == ReplyConnected ==>
                  && effect.row.state == Connected && effect.row.principal == answer.identity && NoChallenge(effect.row)
                  && effect.row.phone == (if broken then None else c.phone)
                  && effect.row.generation == (if IsUnder(c) && opens && c.principal in {None, answer.identity} then g else g + 1)
                  && (effect.cancelled <==> effect.row.generation != c.generation))
  {
  }

  /** A code, or the password, binds the account of a pending challenge; every refusal has its
      reason. */
  lemma VerificationBindsOrRefuses(c: Connection, opens: bool, answer: VerifyAnswer, conflict: bool, now: int)
    requires Coherent(c)
    ensures var effect := Verify(c, opens, answer, conflict, now);
            && (c.state == Connected ==> effect == Effect(c, false, ReplyConnected))
            && (!IsUnder(c) ==> effect == Effect(c, false, Rejected(NotFound)))
            && (c.state == Challenged ==>
                  if c.challengeExpiresAt.value <= now
                  then effect.reply == Rejected(ChallengeExpired) && IsCleared(effect.row, Disconnected, c.generation) && !effect.cancelled
                  else if !opens
                  then effect.reply == Rejected(VerificationFailed) && IsCleared(effect.row, Errored, c.generation + 1) && effect.cancelled
                  else
                    var asked := answer.up && answer.signIn == SignedIn;
                    && !effect.cancelled && effect.row.generation == c.generation
                    && (effect.reply == Rejected(ClientFailed) <==> !answer.up || answer.signIn == SignInFailed)
                    && (effect.reply == ReplyPasswordRequired <==> answer.up && answer.signIn == NeedsPassword)
                    && (effect.reply == Rejected(VerificationFailed) <==> asked && (!answer.authorized || answer.identity.None?))
                    && (effect.reply == Rejected(IdentityConflict) <==> asked && answer.authorized && answer.identity.Some? && conflict)
                    && (effect.reply == ReplyConnected <==> asked && answer.authorized && answer.identity.Some? && !conflict)
                    && (effect.reply == ReplyPasswordRequired ==>
                          effect.row.passwordRequired && effect.row == c.(passwordRequired := true, session := Some(answer.session)))
                    && (effect.reply == ReplyConnected ==>
                          && effect.row.state == Connected && effect.row.principal == answer.identity && NoChallenge(effect.row)
                          && effect.row.session == Some(answer.session)
                          && effect.row.apiId == c.apiId && effect.row.apiHash == c.apiHash && effect.row.phone == c.phone)
                    && (effect.reply.Rejected? ==> effect.row.(session := c.session) == c)
                    && (effect.reply.Rejected? && effect.row.session != c.session ==> asked && !answer.authorized))
  {
  }

  /** A deletion in Telegram, and the start of a scan, go through exactly if Telegram confirms the
      connected account; an account that is not confirmed loses its connection. */
  lemma ConfirmationsAreExact(c: Connection, p: Provenance, opens: bool, answer: IdentityAnswer)
    requires Coherent(c)
    ensures var confirmed := opens && answer.up && answer.authorized && answer.identity == c.principal;
            var refused := !opens || (answer.up && (!answer.authorized || answer.identity != c.principal));
            var deletion, scan := DeleteRemote(c, p, opens, answer), ValidateForScan(c, opens, answer);
            var mine := c.state == Connected && c.principal == Some(p.principal) && c.generation == p.generation;
            && (deletion.reply == ReplyConnected <==> mine && confirmed)
            && (scan.reply == ReplyConnected <==> c.state == Connected && confirmed)
            && (deletion.reply == Rejected(NotFound) <==> !mine) && (scan.reply == Rejected(NotFound) <==> c.state != Connected)
            && (deletion.reply == ReplyConnected ==> deletion.row == c.(session := Some(answer.session)))
            && (scan.reply == ReplyConnected ==> scan.row == c.(session := Some(answer.session)))
            && (mine && refused ==> IsCleared(deletion.row, Disconnected, c.generation + 1) && deletion.cancelled)
            && (!mine || (opens && !answer.up) ==> deletion.row == c && !deletion.cancelled)
            && (c.state == Connected && refused ==>
                  IsCleared(scan.row, if opens && !answer.authorized then Disconnected else Errored, c.generation + 1))
            && (c.state != Connected || (opens && !answer.up) ==> scan.row == c)
  {
  }

  // ---------- Where the rule fails, and where it is too strict ----------

  /** A first start whose new session Telegram calls authorized at once. */
  lemma BoundWithoutPhone()
    ensures var row := Start(FRESH, StartRequest(1, 2, 3, false), true, true, StartAnswer(true, true, Some(7), None, 4), false, 0).row;
            row.state == Connected && row.principal == Some(7) && row.phone.None? && !Coherent(row) && LooksCorrupt(row)
  {
  }

  /** An account with id zero that signs in is connected, coherent, and erased by the next
      look at the status. */
  lemma ZeroPrincipalIsErased()
    ensures var pending := Start(FRESH, StartRequest(1, 2, 3, false), true, true, StartAnswer(true, false, None, Some(4), 5), false, 0).row;
            var verified := Verify(pending, true, VerifyAnswer(true, SignedIn, true, Some(0), 6), false, 1);
            && verified.reply == ReplyConnected && Coherent(verified.row) && verified.row.principal == Some(0)
            && Status(verified.row, true, 2) == Effect(Erased(verified.row, Errored), true, ReplyDisconnected)
  {
  }

  // ---------- Every transition keeps the row coherent ----------

  /** For rows this service writes, the corruption test of `status` fires exactly on a
      connection bound to principal zero, which Python takes for no principal. */
  lemma LooksCorruptIffZeroPrincipal(c: Connection)
    requires Coherent(c)
    ensures LooksCorrupt(c) <==> c.state == Connected && c.principal == Some(0)
  {
  }
}
