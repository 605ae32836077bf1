/** What each answer of the service says about the tables. For every use case: exactly when it succeeds,
    exactly when it refuses with which error; and over whole runs, which errors never occur. */
module AuthnAnswers {
  import opened Prelude
  import opened AuthnStore
  import opened AuthnRuns
  import opened AuthnAccounts
  import Safety = AuthnSafety
  import Rules = AuthnRules

  // ---------- sessions ----------

  /** The session is there, the user's, unrevoked, not past its end, and of this version. */
  predicate Stands(db: Db, session: SessionId, user: UserId, version: int, now: int)
  {
    && session in db.sessions && db.sessions[session].user == user
    && db.sessions[session].revokedAt.None? && now <= db.sessions[session].expiresAt
    && db.sessions[session].tokenVersion == version
  }

  predicate HasStatus(db: Db, user: UserId, status: Status) { user in db.users && db.users[user].status == status }

  predicate HasVersion(db: Db, user: UserId, version: int)
  {
    user in db.users && db.users[user].tokenVersion == version
  }

  /** A signed access token that has not run out and names a user and a session. */
  predicate InForce(signed: Option<Claims>, now: int)
  {
    signed.Some? && now < signed.value.expiresAt && signed.value.user != NIL && signed.value.session != NIL
  }

  predicate StandsBehind(db: Db, signed: Option<Claims>, now: int)
  {
    InForce(signed, now) && Stands(db, signed.value.session, signed.value.user, signed.value.version, now)
  }

  /** An access token is accepted exactly when its session stands behind it and its user is active and of
      the same version. A suspended user is told so exactly when the session stands; whether the user's
      version has moved on is not looked at then. */
  lemma AccessAnswers(db: Db, signed: Option<Claims>, now: int)
    ensures var answer := Rules.ValidateAccess(db, signed, now);
      && (answer.Ok? <==> StandsBehind(db, signed, now) && HasStatus(db, signed.value.user, Active)
                          && HasVersion(db, signed.value.user, signed.value.version))
      && (answer.Ok? ==> answer.value == signed.value)
      && (answer == Err(AccountSuspended) <==>
            StandsBehind(db, signed, now) && HasStatus(db, signed.value.user, Suspended))
      && (answer == Err(Internal) <==> StandsBehind(db, signed, now) && signed.value.user !in db.users)
      && (answer.Err? ==> answer.error in {AccessTokenInvalid, AccountSuspended, Internal})
  {
  }

  function WithStatus(db: Db, user: UserId, status: Status): Db
    requires user in db.users
  {
    db.(users := db.users[user := db.users[user].(status := status)])
  }

  /** So the suspension is all that stands in the way of a suspended user's token exactly when it is
      refused as suspended and the version is the user's. */
  lemma OnlySuspensionStandsInTheWay(db: Db, signed: Option<Claims>, now: int)
    requires signed.Some? && HasStatus(db, signed.value.user, Suspended)
    ensures Rules.ValidateAccess(WithStatus(db, signed.value.user, Active), signed, now).Ok? <==>
            Rules.ValidateAccess(db, signed, now) == Err(AccountSuspended)
            && HasVersion(db, signed.value.user, signed.value.version)
  {
    AccessAnswers(db, signed, now);
    AccessAnswers(WithStatus(db, signed.value.user, Active), signed, now);
  }

  /** The refresh token is that of this session. */
  predicate Names(db: Db, token: string, session: SessionId)
  {
    && token != "" && Digest(token) in db.refreshIndex && db.refreshIndex[Digest(token)] == session
    && session in db.sessions
  }

  predicate Fresh(db: Db, id: SessionId, token: string)
  {
    id !in db.sessions && Digest(token) !in db.refreshIndex
  }

  /** The same for a refresh token that names a session. */
  lemma RefreshAnswers(db: Db, cfg: Config, token: string, session: SessionId, id: SessionId, newToken: string,
                       now: int)
    requires Names(db, token, session)
    ensures var answer, row := Rules.Refresh(db, cfg, token, id, newToken, now).answer, db.sessions[session];
            var stands := Stands(db, session, row.user, row.tokenVersion, now);
      && (answer.Ok? <==> stands && HasStatus(db, row.user, Active) && HasVersion(db, row.user, row.tokenVersion)
                          && Fresh(db, id, newToken))
      && (answer == Err(AccountSuspended) <==> stands && HasStatus(db, row.user, Suspended))
      && (answer == Err(Internal) <==>
            stands && (row.user !in db.users
                       || (HasStatus(db, row.user, Active) && HasVersion(db, row.user, row.tokenVersion)
                           && !Fresh(db, id, newToken))))
      && (answer.Err? ==> answer.error in {InvalidToken, AccountSuspended, Internal})
  {
  }

  lemma RefreshOfNothing(db: Db, cfg: Config, token: string, id: SessionId, newToken: string, now: int)
    requires forall session :: !Names(db, token, session)
    ensures Rules.Refresh(db, cfg, token, id, newToken, now)
         == Rules.Refuse(db, if token == "" then BadRequest else InvalidToken)
  {
    if Rules.SessionByRefresh(db, token).Some? { assert !Names(db, token, Rules.SessionByRefresh(db, token).value); }
  }

  /** Access and refresh agree: in any tables and at any instant the two tokens of one session are both
      accepted, both refused for a suspension, or both refused otherwise. */
  lemma AccessAgreesWithRefresh(db: Db, cfg: Config, token: string, c: Claims, id: SessionId, newToken: string,
                                now: int)
    requires Names(db, token, c.session) && Fresh(db, id, newToken) && InForce(Some(c), now)
    requires c.user == db.sessions[c.session].user && c.version == db.sessions[c.session].tokenVersion
    ensures var access := Rules.ValidateAccess(db, Some(c), now);
            var refresh := Rules.Refresh(db, cfg, token, id, newToken, now).answer;
      (access.Ok? <==> refresh.Ok?) && (access == Err(AccountSuspended) <==> refresh == Err(AccountSuspended))
  {
    AccessAnswers(db, Some(c), now);
    RefreshAnswers(db, cfg, token, c.session, id, newToken, now);
  }

  // ---------- logging in and out ----------

  /** In every reachable state an identifier means the user whose address it is, in whatever case and with
      whatever white space around it, if it has an '@', and otherwise the user whose name it is to the letter. */
  lemma WhoIsMeant(cfg: Config, s: Sys, identifier: string, user: UserId)
    requires Reaches(Start(cfg), s)
    ensures Rules.ResolveUser(s.db, identifier) == Some(user) <==>
            user in s.db.users && (if '@' in identifier then s.db.users[user].email == Some(NormalizeEmail(identifier))
                                   else s.db.users[user].username == identifier)
  {
    ReachableAccounts(cfg, s);
  }

  /** The identifier is somebody's, and nothing keeps the attempt from being judged by its password. */
  predicate Judged(db: Db, identifier: string, password: string, locked: bool, user: UserId)
  {
    && Trim(identifier) != "" && password != "" && !locked
    && Rules.ResolveUser(db, Trim(identifier)) == Some(user) && user in db.users
  }

  /** A login passes for the right password of an active user, with that user's version; a wrong one is
      recorded and reported as a failure, and whoever knows the password clears the failures, whatever the
      account's status. */
  lemma LoginAnswers(db: Db, identifier: string, password: string, user: UserId)
    requires Judged(db, identifier, password, false, user)
    ensures var (t, call) := Rules.CheckLogin(db, identifier, password, false);
            var right := db.users[user].password == Digest(password);
      && (t.answer == Ok(Rules.Credential(user, db.users[user].tokenVersion)) <==> right && HasStatus(db, user, Active))
      && (t.answer.Ok? <==> right && HasStatus(db, user, Active))
      && (t.answer == Err(AccountSuspended) <==> right && HasStatus(db, user, Suspended))
      && (t.answer.Err? && t.answer != Err(AccountSuspended) ==> t.answer == Err(InvalidCredentials))
      && call == (if right then Rules.ClearFailures else Rules.RecordFailures)
      && t.db == if right then db else db.(outbox := db.outbox + [LoginFailed(user)])
  {
  }

  /** An attempt that is not judged leaves no trace and does not say whether the password was right. */
  lemma UnjudgedLogin(db: Db, identifier: string, password: string, locked: bool)
    requires forall user :: !Judged(db, identifier, password, locked, user)
    ensures var (t, call) := Rules.CheckLogin(db, identifier, password, locked);
      && t.answer.Err? && t.db == db && call.NoCall?
      && (t.answer.error == BadRequest <==> Trim(identifier) == "" || password == "")
      && (t.answer.error == Internal ==> !locked)
      && (locked && t.answer.error != BadRequest ==> t.answer.error == InvalidCredentials)
  {
    var found := Rules.ResolveUser(db, Trim(identifier));
    if found.Some? { assert !Judged(db, identifier, password, locked, found.value); }
  }

  /** A session opens for any snapshot of an existing user under a fresh identifier and token. */
  lemma OpeningAnswers(db: Db, cfg: Config, cred: Rules.Credential, id: SessionId, token: string, now: int)
    ensures var t := Rules.OpenSession(db, cfg, cred, id, token, now);
      && (t.answer.Ok? <==> Fresh(db, id, token) && cred.user in db.users)
      && (t.answer.Err? ==> t == Rules.Refuse(db, Internal))
  {
  }

  /** A logout succeeds whatever its token is worth; one that names no session changes nothing. */
  lemma LogoutAnswers(db: Db, token: string, now: int)
    ensures var t := Rules.Logout(db, token, now);
      && t.answer == (if token == "" then Err(BadRequest) else Ok(()))
      && ((forall session :: !Names(db, token, session)) ==> t.db == db)
  {
    var found := Rules.SessionByRefresh(db, token);
    if found.Some? && token != "" { assert Names(db, token, found.value); }
  }

  lemma LogoutAllAnswers(db: Db, user: UserId, now: int)
    ensures var t := Rules.RevokeAllAndBump(db, user, now);
      (t.answer.Ok? <==> user in db.users) && (t.answer.Err? ==> t == Rules.Refuse(db, Internal))
  {
  }

  // ---------- accounts ----------

  /** A registration fails as malformed, as a conflict with a name, an address or an identifier in use, or
      because its token clashes or its mail fails, exactly under these conditions; it changes the tables
      unless it is malformed, conflicts or clashes. */
  lemma RegisterAnswers(db: Db, name: string, address: string, password: string, id: UserId, token: string, now: int,
                        mailed: bool)
    ensures var t := Rules.Register(db, name, address, password, id, token, now, mailed);
            var username, email := Trim(name), NormalizeEmail(address);
            var valid := ValidUsername(username) && (email != "" ==> ValidEmail(email));
            var free := && username !in db.usernames && id !in db.users
                        && (if email == "" then (Local, username) !in db.identities
                            else (Email, email) !in db.identities && !Rules.EmailTaken(db, email));
            var clash := email != "" && Digest(token) in db.tokens;
      && (t.answer == Err(BadRequest) <==> !valid)
      && (t.answer == Err(Conflict) <==> valid && !free)
      && (t.answer == Err(Internal) <==> valid && free && (clash || (email != "" && !mailed)))
      && (t.answer.Ok? <==> valid && free && !clash && (email != "" ==> mailed))
      && (t.answer.Ok? ==> t.answer.value == id)
      && (t.db != db <==> valid && free && !clash)
  {
  }

  /** The one-time token is there, for this purpose, unused, and not past its end. */
  predicate Redeemable(db: Db, token: string, purpose: Purpose, now: int)
  {
    && token != "" && Digest(token) in db.tokens && db.tokens[Digest(token)].purpose == purpose
    && db.tokens[Digest(token)].consumedAt.None? && now <= db.tokens[Digest(token)].expiresAt
  }

  lemma ResetAnswers(db: Db, token: string, password: string, now: int)
    ensures var t := Rules.ResetPassword(db, token, password, now);
            var redeemable := Redeemable(db, token, ForResetPassword, now);
      && (t.answer.Ok? <==> redeemable && db.tokens[Digest(token)].user in db.users)
      && (t.answer == Err(InvalidToken) <==> !redeemable)
      && (t.answer.Err? ==> t.db == db && t.answer.error in {InvalidToken, Internal})
  {
  }

  /** The token would bind an address to an active user. */
  predicate Binds(db: Db, t: AuthToken) { HasStatus(db, t.user, Active) && t.target != "" }

  lemma VerifyAnswers(db: Db, token: string, now: int)
    ensures var t := Rules.VerifyEmail(db, token, now);
            var redeemable := Redeemable(db, token, ForVerifyEmail, now);
      && (t.answer == Err(InvalidToken) <==> !redeemable)
      && (redeemable ==>
            var tok := db.tokens[Digest(token)]; var email := NormalizeEmail(tok.target);
            var owned := (Email, email) in db.identities || Rules.HasProvider(db, tok.user, Email);
            && (t.answer == Err(Conflict) <==> Binds(db, tok) && owned)
            && (t.answer == Err(Internal) <==>
                  tok.user !in db.users || (Binds(db, tok) && !owned && Rules.EmailTaken(db, email)))
            && (t.answer.Err? ==> t.db == db && t.answer.error in {Conflict, Internal}))
  {
  }

  /** A bind request passes its checks exactly for a well-formed address nobody owns at that moment. */
  lemma BindAnswers(db: Db, user: UserId, address: string)
    ensures var answer, email := Rules.CheckBind(db, user, address), NormalizeEmail(address);
      && (answer == Err(BadRequest) <==> !ValidEmail(email))
      && (answer == Err(Conflict) <==> ValidEmail(email) && (Email, email) in db.identities)
      && (answer == Ok(email) <==> ValidEmail(email) && (Email, email) !in db.identities && user in db.users)
      && (answer.Ok? ==> answer.value == email)
  {
  }

  lemma IssueAnswers(db: Db, user: UserId, email: string, token: string, now: int, mailed: bool)
    ensures var t := Rules.IssueBind(db, user, email, token, now, mailed);
      && (t.answer == Err(Conflict) <==> user !in db.users || Digest(token) in db.tokens)
      && (t.answer == Err(Internal) <==> user in db.users && Digest(token) !in db.tokens && !mailed)
      && (t.answer == Err(Conflict) ==> t.db == db)
  {
  }

  /** A password change is authorised by the current password and hands on the new one. */
  lemma ChangeAnswers(db: Db, user: UserId, current: string, password: string)
    ensures var answer := Rules.AuthorizeChange(db, user, current, password);
      && (answer.Ok? <==> password != "" && user in db.users && db.users[user].password == Digest(current))
      && (answer.Ok? ==> answer.value == Digest(password))
      && (answer == Err(InvalidCredentials) <==>
            password != "" && user in db.users && db.users[user].password != Digest(current))
      && (answer == Err(BadRequest) <==> password == "")
  {
  }

  // ---------- errors that never occur ----------

  lemma ResolvedIsThere(db: Db, identifier: string)
    requires NamesOk(db)
    ensures var found := Rules.ResolveUser(db, identifier); found.Some? ==> found.value in db.users
  {
  }

  /** An address in the users' column is an address among the identities. */
  lemma TakenIsOwned(db: Db, email: string)
    requires NamesOk(db)
    ensures Rules.EmailTaken(db, email) <==> (Email, email) in db.identities
  {
    if (Email, email) in db.identities {
      assert db.users[db.identities[(Email, email)]].email == Some(email);
    }
  }

  /** In every reachable state the tables refer to nothing that is missing: access checks, logins, resets
      and verifications never end in an internal error, and a refresh only when its fresh identifier or
      token clashes. */
  lemma NoInternalErrors(cfg: Config, s: Sys)
    requires Reaches(Start(cfg), s)
    ensures forall signed, now :: Rules.ValidateAccess(s.db, signed, now) != Err(Internal)
    ensures forall identifier, password, locked ::
              Rules.CheckLogin(s.db, identifier, password, locked).0.answer != Err(Internal)
    ensures forall token, password, now :: Rules.ResetPassword(s.db, token, password, now).answer != Err(Internal)
    ensures forall token, now :: Rules.VerifyEmail(s.db, token, now).answer != Err(Internal)
    ensures forall token, id, newToken, now | Fresh(s.db, id, newToken) ::
              Rules.Refresh(s.db, s.cfg, token, id, newToken, now).answer != Err(Internal)
  {
    ReachableAccounts(cfg, s);
    Safety.ReachableInv(cfg, s);
    forall signed, now ensures Rules.ValidateAccess(s.db, signed, now) != Err(Internal) {
      AccessAnswers(s.db, signed, now);
    }
    forall identifier, password, locked
      ensures Rules.CheckLogin(s.db, identifier, password, locked).0.answer != Err(Internal)
    {
      LoginIsNotInternal(s.db, identifier, password, locked);
    }
    forall token, password, now ensures Rules.ResetPassword(s.db, token, password, now).answer != Err(Internal) {
      ResetIsNotInternal(s.db, token, password, now);
    }
    forall token, now ensures Rules.VerifyEmail(s.db, token, now).answer != Err(Internal) {
      VerifyIsNotInternal(s.db, token, now);
    }
    forall token, id, newToken, now | Fresh(s.db, id, newToken)
      ensures Rules.Refresh(s.db, s.cfg, token, id, newToken, now).answer != Err(Internal)
    {
      RefreshIsNotInternal(s.db, s.cfg, token, id, newToken, now);
    }
  }

  lemma LoginIsNotInternal(db: Db, identifier: string, password: string, locked: bool)
    requires NamesOk(db)
    ensures Rules.CheckLogin(db, identifier, password, locked).0.answer != Err(Internal)
  {
    ResolvedIsThere(db, Trim(identifier));
  }

  lemma ResetIsNotInternal(db: Db, token: string, password: string, now: int)
    requires NamesOk(db)
    ensures Rules.ResetPassword(db, token, password, now).answer != Err(Internal)
  {
    ResetAnswers(db, token, password, now);
    if Digest(token) in db.tokens { assert TokenOk(db, db.tokens[Digest(token)]); }
  }

  lemma VerifyIsNotInternal(db: Db, token: string, now: int)
    requires NamesOk(db)
    ensures Rules.VerifyEmail(db, token, now).answer != Err(Internal)
  {
    VerifyAnswers(db, token, now);
    if Digest(token) in db.tokens {
      assert TokenOk(db, db.tokens[Digest(token)]);
      TakenIsOwned(db, NormalizeEmail(db.tokens[Digest(token)].target));
    }
  }

  lemma RefreshIsNotInternal(db: Db, cfg: Config, token: string, id: SessionId, newToken: string, now: int)
    requires Safety.SessionsFit(db) && Fresh(db, id, newToken)
    ensures Rules.Refresh(db, cfg, token, id, newToken, now).answer != Err(Internal)
  {
    if session :| Names(db, token, session) {
      RefreshAnswers(db, cfg, token, session, id, newToken, now);
    } else {
      RefreshOfNothing(db, cfg, token, id, newToken, now);
    }
  }
}
