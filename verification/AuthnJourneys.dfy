/** Round trips: what a use case hands out, the next one takes back. For any tables whatever. */
module AuthnJourneys {
  import opened Prelude
  import opened AuthnStore
  import Rules = AuthnRules

  /** What a login opens is accepted: the access token until the earlier of its own end and the
      session's, the refresh token until the session's. */
  lemma LoginGrantWorks(db: Db, cfg: Config, cred: Rules.Credential, id: SessionId, token: string, now: int,
                        later: int, newId: SessionId, newToken: string)
    requires Rules.OpenSession(db, cfg, cred, id, token, now).answer.Ok? && now <= later
    requires id != NIL && cred.user != NIL && token != ""
    requires db.users[cred.user].status == Active && db.users[cred.user].tokenVersion == cred.version
    requires newId !in db.sessions && newId != id && Digest(newToken) !in db.refreshIndex && newToken != token
    ensures var t := Rules.OpenSession(db, cfg, cred, id, token, now);
      && (Rules.ValidateAccess(t.db, Some(t.answer.value.access), later).Ok? <==>
            later < SignedExpiry(now + AccessTtl(cfg)) && later <= now + RefreshTtl(cfg))
      && (Rules.Refresh(t.db, cfg, t.answer.value.refreshToken, newId, newToken, later).answer.Ok? <==>
            later <= now + RefreshTtl(cfg))
  {
    var t := Rules.OpenSession(db, cfg, cred, id, token, now);
    assert Rules.SessionByRefresh(t.db, token) == Some(id);
  }

  /** What a refresh hands out is accepted in turn; the tokens it replaces are refused at once, and the
      old refresh token as a replay. */
  lemma RotationGrantWorks(db: Db, cfg: Config, token: string, id: SessionId, newToken: string, now: int,
                           later: int, c: Claims)
    requires Rules.Refresh(db, cfg, token, id, newToken, now).answer.Ok? && now <= later
    requires id != NIL && db.sessions[Rules.SessionByRefresh(db, token).value].user != NIL
    requires c.session == Rules.SessionByRefresh(db, token).value
    ensures var t := Rules.Refresh(db, cfg, token, id, newToken, now);
      && (Rules.ValidateAccess(t.db, Some(t.answer.value.access), later).Ok? <==>
            later < SignedExpiry(now + AccessTtl(cfg)) && later <= now + RefreshTtl(cfg))
      && Rules.SessionByRefresh(t.db, t.answer.value.refreshToken) == Some(id)
      && t.db.sessions[id].expiresAt == now + RefreshTtl(cfg)
      && Rules.ValidateAccess(t.db, Some(c), later).Err?
      && Rules.SessionByRefresh(t.db, token) == Rules.SessionByRefresh(db, token)
      && t.db.sessions[Rules.SessionByRefresh(db, token).value].revokedAt == Some(now)
  {
    var before := Rules.SessionByRefresh(db, token).value;
    var t := Rules.Refresh(db, cfg, token, id, newToken, now);
    assert t.db == Rules.Rotate(db, cfg, before, id, newToken, now);
  }

  /** A login with this name and password passes, and gives a snapshot of this user. */
  predicate LogsIn(db: Db, identifier: string, password: string, user: UserId)
  {
    var answer := Rules.CheckLogin(db, identifier, password, false).0.answer;
    answer.Ok? && answer.value.user == user && user in db.users && answer.value.version == db.users[user].tokenVersion
  }

  lemma UsernamesAreNoAddresses(name: string)
    requires ValidUsername(name)
    ensures '@' !in name && name != ""
  {
    assert forall i | 0 <= i < |name| :: name[i] != '@';
  }

  /** A login with the right identifier comes down to password and status. */
  lemma LogsInIff(db: Db, identifier: string, password: string, user: UserId)
    requires Rules.ResolveUser(db, Trim(identifier)) == Some(user) && user in db.users && Trim(identifier) != ""
    ensures LogsIn(db, identifier, password, user) <==>
            password != "" && db.users[user].password == Digest(password) && db.users[user].status == Active
  {
  }

  /** A local account can be used at once: with its name and its password, and no other (an empty
      password can be registered but never used). */
  lemma LocalAccountLogsIn(db: Db, name: string, address: string, password: string, id: UserId, token: string,
                           now: int, mailed: bool, attempt: string)
    requires Rules.Register(db, name, address, password, id, token, now, mailed).answer.Ok?
             && NormalizeEmail(address) == ""
    ensures var after := Rules.Register(db, name, address, password, id, token, now, mailed).db;
            LogsIn(after, name, attempt, id) <==> attempt == password && attempt != ""
  {
    var after := Rules.Register(db, name, address, password, id, token, now, mailed).db;
    UsernamesAreNoAddresses(Trim(name));
    assert Rules.ResolveUser(after, Trim(name)) == Some(id);
    LogsInIff(after, name, attempt, id);
  }

  lemma MailAccountIsPending(db: Db, name: string, address: string, password: string, id: UserId, token: string,
                             now: int, identifier: string)
    requires Rules.Register(db, name, address, password, id, token, now, true).answer.Ok?
             && NormalizeEmail(address) != ""
    requires Trim(identifier) == Trim(name) ||
             ('@' in Trim(identifier) && NormalizeEmail(Trim(identifier)) == NormalizeEmail(address))
    ensures var after := Rules.Register(db, name, address, password, id, token, now, true).db;
      && id in after.users && after.users[id].status == Pending && after.users[id].password == Digest(password)
      && Rules.ResolveUser(after, Trim(identifier)) == Some(id) && Trim(identifier) != ""
      && Digest(token) in after.tokens
      && after.tokens[Digest(token)]
         == AuthToken(id, ForVerifyEmail, NormalizeEmail(address), now + TOKEN_TTL, None)
  {
    UsernamesAreNoAddresses(Trim(name));
  }

  lemma RedeemingActivates(db: Db, token: string, id: UserId, email: string, expires: int, later: int)
    requires Digest(token) in db.tokens && id in db.users && db.users[id].status == Pending && token != ""
    requires db.tokens[Digest(token)] == AuthToken(id, ForVerifyEmail, email, expires, None)
    ensures var t := Rules.VerifyEmail(db, token, later);
      && (t.answer.Ok? <==> later <= expires)
      && (t.answer.Ok? ==>
            && t.db.users == db.users[id := db.users[id].(status := Active)]
            && t.db.usernames == db.usernames && t.db.identities == db.identities)
  {
  }

  /** A mail account cannot be used until the mailed token is redeemed, which can be done for thirty
      minutes; after that, by name or by address. */
  lemma MailAccountLogsInOnceVerified(db: Db, name: string, address: string, password: string, id: UserId,
                                      token: string, now: int, later: int, identifier: string, attempt: string)
    requires Rules.Register(db, name, address, password, id, token, now, true).answer.Ok?
             && NormalizeEmail(address) != ""
    requires token != ""
    requires Trim(identifier) == Trim(name) ||
             ('@' in Trim(identifier) && NormalizeEmail(Trim(identifier)) == NormalizeEmail(address))
    ensures var after := Rules.Register(db, name, address, password, id, token, now, true).db;
            var verified := Rules.VerifyEmail(after, token, later);
      && !LogsIn(after, identifier, attempt, id)
      && (verified.answer.Ok? <==> later <= now + TOKEN_TTL)
      && (verified.answer.Ok? ==>
            (LogsIn(verified.db, identifier, attempt, id) <==> attempt == password && attempt != ""))
  {
    var after := Rules.Register(db, name, address, password, id, token, now, true).db;
    MailAccountIsPending(db, name, address, password, id, token, now, identifier);
    LogsInIff(after, identifier, attempt, id);
    RedeemingActivates(after, token, id, NormalizeEmail(address), now + TOKEN_TTL, later);
    var verified := Rules.VerifyEmail(after, token, later);
    if verified.answer.Ok? { LogsInIff(verified.db, identifier, attempt, id); }
  }

  /** A reset token mailed to a known address works for thirty minutes; after it, the owner logs in
      with the new password and no other. */
  lemma ResetThenLogin(db: Db, address: string, token: string, password: string, now: int, later: int,
                       identifier: string, attempt: string)
    requires (Email, NormalizeEmail(address)) in db.identities && token != ""
    requires db.identities[(Email, NormalizeEmail(address))] in db.users
    requires Rules.RequestPasswordReset(db, address, token, now, true).answer.Ok?
    requires Rules.ResolveUser(db, Trim(identifier)) == Some(db.identities[(Email, NormalizeEmail(address))])
    requires Trim(identifier) != ""
    ensures var owner := db.identities[(Email, NormalizeEmail(address))];
            var asked := Rules.RequestPasswordReset(db, address, token, now, true).db;
            var reset := Rules.ResetPassword(asked, token, password, later);
      && (reset.answer.Ok? <==> later <= now + TOKEN_TTL)
      && (reset.answer.Ok? ==>
            (LogsIn(reset.db, identifier, attempt, owner) <==>
               attempt == password && attempt != "" && db.users[owner].status == Active))
  {
    var owner := db.identities[(Email, NormalizeEmail(address))];
    var asked := Rules.RequestPasswordReset(db, address, token, now, true).db;
    var reset := Rules.ResetPassword(asked, token, password, later);
    if reset.answer.Ok? {
      assert Rules.ResolveUser(reset.db, Trim(identifier)) == Some(owner);
      LogsInIff(reset.db, identifier, attempt, owner);
    }
  }

  /** Whoever knows the current password can change it; whatever happens before the change commits, the user
      then logs in with the new password and no other. */
  lemma ChangeThenLogin(checked: Db, db: Db, user: UserId, session: SessionId, current: string, password: string,
                        now: int, identifier: string, attempt: string)
    requires user in db.users && Rules.ResolveUser(db, Trim(identifier)) == Some(user) && Trim(identifier) != ""
    requires user in checked.users && password != ""
    ensures var authorized := Rules.AuthorizeChange(checked, user, current, password);
      && (authorized.Ok? <==> checked.users[user].password == Digest(current))
      && (authorized.Ok? ==>
            var changed := Rules.CommitChange(db, user, session, authorized.value, now);
            && changed.answer.Ok?
            && (LogsIn(changed.db, identifier, attempt, user) <==>
                  attempt == password && db.users[user].status == Active))
  {
    var authorized := Rules.AuthorizeChange(checked, user, current, password);
    if authorized.Ok? {
      var changed := Rules.CommitChange(db, user, session, authorized.value, now).db;
      assert Rules.ResolveUser(changed, Trim(identifier)) == Some(user);
      LogsInIff(changed, identifier, attempt, user);
    }
  }

  /** A bind token works for thirty minutes: it gives an active user without an address the address that
      was asked for, in normal form, unless that has been taken, before the token was issued or after; and from
      then on it logs the user in. */
  lemma BindThenLogin(checked: Db, db: Db, user: UserId, address: string, token: string, now: int, later: int,
                      identifier: string)
    requires Rules.CheckBind(checked, user, address).Ok? && token != ""
    requires Rules.IssueBind(db, user, NormalizeEmail(address), token, now, true).answer.Ok?
    requires db.users[user].status == Active && !Rules.HasProvider(db, user, Email)
    requires '@' in Trim(identifier) && NormalizeEmail(Trim(identifier)) == NormalizeEmail(address)
    ensures var asked := Rules.IssueBind(db, user, NormalizeEmail(address), token, now, true).db;
            var bound := Rules.VerifyEmail(asked, token, later);
      && (bound.answer.Ok? <==> later <= now + TOKEN_TTL && (Email, NormalizeEmail(address)) !in db.identities
                                && !Rules.EmailTaken(db, NormalizeEmail(address)))
      && (bound.answer.Ok? ==>
            && user in bound.db.users && bound.db.users[user].email == Some(NormalizeEmail(address))
            && Rules.ResolveUser(bound.db, Trim(identifier)) == Some(user))
  {
    var email := NormalizeEmail(address);
    NormalizeEmailIdempotent(address);
    SomethingBeforeAt(email);
    var asked := Rules.IssueBind(db, user, email, token, now, true).db;
    assert Rules.UsableToken(asked, token, ForVerifyEmail).value.target == email;
    assert Rules.BindRefusal(asked, user, email) == Rules.BindRefusal(db, user, email);
  }

  lemma SomethingBeforeAt(email: string)
    requires ValidEmail(email)
    ensures email != ""
  {
  }

  /** After a logout the refresh token is a replay and no access token of the session is accepted. */
  lemma LogoutEndsSession(db: Db, cfg: Config, token: string, now: int, later: int, id: SessionId, newToken: string,
                          c: Claims)
    requires token != "" && Rules.SessionByRefresh(db, token) == Some(c.session)
    ensures var after := Rules.Logout(db, token, now).db;
      && Rules.Logout(db, token, now).answer.Ok?
      && after.sessions[c.session].revokedAt
         == (if db.sessions[c.session].revokedAt.Some? then db.sessions[c.session].revokedAt else Some(now))
      && Rules.Refresh(after, cfg, token, id, newToken, later).answer == Err(InvalidToken)
      && Rules.ValidateAccess(after, Some(c), later).Err?
      && forall x | x in db.sessions && x != c.session :: x in after.sessions && after.sessions[x] == db.sessions[x]
  {
    var after := Rules.Logout(db, token, now).db;
    assert Rules.SessionByRefresh(after, token) == Some(c.session);
  }
}
