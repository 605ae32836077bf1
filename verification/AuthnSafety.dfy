/** Revocation is final: what every interleaving of the service's steps keeps. */
module AuthnSafety {
  import opened Prelude
  import opened AuthnStore
  import opened AuthnRuns
  import Rules = AuthnRules

  /** A session that is revoked, or that no longer carries its user's token version. */
  ghost predicate Dead(db: Db, id: SessionId)
  {
    && id in db.sessions
    && (|| db.sessions[id].revokedAt.Some?
        || db.sessions[id].user !in db.users
        || db.sessions[id].tokenVersion != db.users[db.sessions[id].user].tokenVersion)
  }

  /** Unrevoked, and yet left behind by a version bump: what a login race leaves. */
  ghost predicate BornStale(db: Db, id: SessionId)
  {
    Dead(db, id) && db.sessions[id].revokedAt.None?
  }

  ghost predicate SessionsFit(db: Db)
  {
    forall id | id in db.sessions ::
      && db.sessions[id].user in db.users
      && db.sessions[id].tokenVersion <= db.users[db.sessions[id].user].tokenVersion
  }

  ghost predicate CredentialFits(db: Db, c: Rules.Credential)
  {
    c.user in db.users && c.version <= db.users[c.user].tokenVersion
  }

  ghost predicate ValidatedFits(db: Db, v: (UserId, SessionId))
  {
    v.1 in db.sessions && db.sessions[v.1].user == v.0 && !BornStale(db, v.1)
  }

  /** The inductive fact. A session that ever passed an access check is revoked or still carries
      its user's version, so a password change cannot revive a session born stale. */
  ghost predicate Inv(s: Sys)
  {
    && SessionsFit(s.db)
    && (forall v | v in s.past.validated :: ValidatedFits(s.db, v))
    && (forall c | c in s.past.changes :: (c.0, c.1) in s.past.validated)
    && (forall c | c in s.past.credentials :: CredentialFits(s.db, c))
  }

  /** What a step may do to users and sessions: versions only rise, revocation stays, and a session
      that survives unrevoked either saw no version bump or is the one a password change keeps. */
  ghost predicate Evolves(a: Db, b: Db, keep: Option<SessionId>)
  {
    && (forall u | u in a.users :: u in b.users && a.users[u].tokenVersion <= b.users[u].tokenVersion)
    && (forall h | h in a.refreshIndex :: h in b.refreshIndex && b.refreshIndex[h] == a.refreshIndex[h])
    && (forall id | id in a.sessions ::
          id in b.sessions && b.sessions[id].user == a.sessions[id].user && Survives(a, b, id, keep))
    && (forall id | id in b.sessions && id !in a.sessions ::
          b.sessions[id].user in b.users && b.sessions[id].tokenVersion <= b.users[b.sessions[id].user].tokenVersion)
  }

  ghost predicate Survives(a: Db, b: Db, id: SessionId, keep: Option<SessionId>)
    requires id in a.sessions && id in b.sessions
  {
    var x, y := a.sessions[id], b.sessions[id];
    && x.refreshHash == y.refreshHash
    && (y.revokedAt.None? ==> x.revokedAt.None?)
    && (y.user in a.users && y.user in b.users ==>
          y.tokenVersion <= b.users[y.user].tokenVersion || x.tokenVersion > a.users[y.user].tokenVersion)
    && (y.revokedAt.None? && y.user in a.users && y.user in b.users ==>
          || (y.tokenVersion == x.tokenVersion && a.users[y.user].tokenVersion == b.users[y.user].tokenVersion)
          || (Some(id) == keep && y.tokenVersion == b.users[y.user].tokenVersion))
  }

  lemma OpenSessionEvolves(db: Db, cfg: Config, cred: Rules.Credential, id: SessionId, token: string, now: int)
    requires cred.user in db.users ==> cred.version <= db.users[cred.user].tokenVersion
    ensures Evolves(db, Rules.OpenSession(db, cfg, cred, id, token, now).db, None)
  {
  }

  lemma RevokeAllEvolves(db: Db, user: UserId, now: int)
    ensures Evolves(db, Rules.RevokeAllAndBump(db, user, now).db, None)
  {
  }

  lemma RotateEvolves(db: Db, cfg: Config, id: SessionId, newId: SessionId, token: string, now: int)
    requires id in db.sessions && db.sessions[id].user in db.users
    requires newId !in db.sessions && Digest(token) !in db.refreshIndex
    ensures Evolves(db, Rules.Rotate(db, cfg, id, newId, token, now), None)
  {
  }

  lemma RefreshEvolves(db: Db, cfg: Config, token: string, id: SessionId, newToken: string, now: int)
    ensures Evolves(db, Rules.Refresh(db, cfg, token, id, newToken, now).db, None)
  {
    var after := Rules.Refresh(db, cfg, token, id, newToken, now);
    var found := Rules.SessionByRefresh(db, token);
    if after.answer.Ok? {
      RotateEvolves(db, cfg, found.value, id, newToken, now);
    } else if found.Some? && after.db != db {
      RevokeAllEvolves(db, db.sessions[found.value].user, now);
    } else {
      assert Evolves(db, db, None);
    }
  }

  /** Only sessions, their index and the versions matter to the relation. */
  lemma EvolvesAlike(a: Db, b: Db, c: Db, keep: Option<SessionId>)
    requires Evolves(a, b, keep)
    requires b.sessions == c.sessions && b.refreshIndex == c.refreshIndex && b.users.Keys == c.users.Keys
    requires forall u | u in b.users :: b.users[u].tokenVersion == c.users[u].tokenVersion
    ensures Evolves(a, c, keep)
  {
    forall id | id in a.sessions
      ensures Survives(a, c, id, keep)
    {
      assert Survives(a, b, id, keep);
    }
  }

  lemma ResetEvolves(db: Db, token: string, password: string, now: int)
    ensures Evolves(db, Rules.ResetPassword(db, token, password, now).db, None)
  {
    var t := Rules.ResetPassword(db, token, password, now);
    if t.answer.Ok? {
      var user := db.tokens[Digest(token)].user;
      RevokeAllEvolves(db, user, now);
      EvolvesAlike(db, Rules.RevokeAllAndBump(db, user, now).db, t.db, None);
    } else {
      assert Evolves(db, db, None);
    }
  }

  lemma ChangeSurvives(db: Db, user: UserId, keep: SessionId, password: Digest, now: int, id: SessionId)
    requires id in db.sessions
    ensures var after := Rules.CommitChange(db, user, keep, password, now).db;
      && id in after.sessions && after.sessions[id].user == db.sessions[id].user
      && Survives(db, after, id, Some(keep))
  {
  }

  lemma ChangeKeepsTables(db: Db, user: UserId, keep: SessionId, password: Digest, now: int)
    ensures var after := Rules.CommitChange(db, user, keep, password, now).db;
      && (forall u | u in db.users :: u in after.users && db.users[u].tokenVersion <= after.users[u].tokenVersion)
      && after.refreshIndex == db.refreshIndex && after.sessions.Keys == db.sessions.Keys
  {
  }

  lemma ChangeEvolves(db: Db, user: UserId, keep: SessionId, password: Digest, now: int)
    ensures Evolves(db, Rules.CommitChange(db, user, keep, password, now).db, Some(keep))
  {
    ChangeKeepsTables(db, user, keep, password, now);
    var after := Rules.CommitChange(db, user, keep, password, now).db;
    forall id | id in db.sessions
      ensures id in after.sessions && after.sessions[id].user == db.sessions[id].user
      ensures Survives(db, after, id, Some(keep))
    {
      ChangeSurvives(db, user, keep, password, now, id);
    }
  }

  lemma SameSessionsEvolve(a: Db, b: Db)
    requires a.sessions == b.sessions && a.refreshIndex == b.refreshIndex
    requires forall u | u in a.users :: u in b.users && a.users[u].tokenVersion == b.users[u].tokenVersion
    ensures Evolves(a, b, None)
  {
  }

  lemma LogoutEvolves(db: Db, token: string, now: int)
    ensures Evolves(db, Rules.Logout(db, token, now).db, None)
  {
  }

  /** The session a step may realign: the one whose password change commits. */
  function Kept(a: Action): Option<SessionId>
  {
    if a.CommitChange? then Some(a.session) else None
  }

  predicate TouchesSessions(a: Action)
  {
    a.OpenSession? || a.Refresh? || a.Logout? || a.LogoutAll? || a.ResetPassword? || a.CommitChange?
  }

  lemma CreateAccountEvolves(db: Db, username: string, email: string, password: Digest, id: UserId, token: Digest,
                             now: int)
    ensures Evolves(db, Rules.CreateAccount(db, username, email, password, id, token, now).db, None)
  {
    SameSessionsEvolve(db, Rules.CreateAccount(db, username, email, password, id, token, now).db);
  }

  lemma RegisterEvolves(db: Db, name: string, address: string, password: string, id: UserId, token: string, now: int,
                        mailed: bool)
    ensures Evolves(db, Rules.Register(db, name, address, password, id, token, now, mailed).db, None)
  {
    SameSessionsEvolve(db, db);
    CreateAccountEvolves(db, Trim(name), NormalizeEmail(address), Digest(password), id, Digest(token), now);
  }

  lemma VerifyEmailEvolves(db: Db, token: string, now: int)
    ensures Evolves(db, Rules.VerifyEmail(db, token, now).db, None)
  {
    var t := Rules.VerifyEmail(db, token, now);
    SameSessionsEvolve(db, db);
    if t.db != db {
      var tok := db.tokens[Digest(token)];
      var consumed := db.(tokens := db.tokens[Digest(token) := tok.(consumedAt := Some(now))]);
      SameSessionsEvolve(db, consumed.(users := db.users[tok.user := db.users[tok.user].(status := Active)],
                                       outbox := db.outbox + [UserVerified(tok.user, tok.target)]));
      SameSessionsEvolve(db, consumed);
      SameSessionsEvolve(db, Rules.BindEmail(consumed, tok.user, NormalizeEmail(tok.target)));
    }
  }

  lemma PassiveStepKeepsSessions(s: Sys, a: Action)
    requires !TouchesSessions(a) && !a.Register? && !a.VerifyEmail?
    ensures var b := Step(s, a).db;
      && b.sessions == s.db.sessions && b.refreshIndex == s.db.refreshIndex
      && (forall u | u in s.db.users :: u in b.users && s.db.users[u].tokenVersion == b.users[u].tokenVersion)
  {
  }

  lemma OtherStepEvolves(s: Sys, a: Action)
    requires !TouchesSessions(a)
    ensures Evolves(s.db, Step(s, a).db, None)
  {
    if a.Register? {
      RegisterEvolves(s.db, a.name, a.address, a.password, a.user, a.token, a.now, a.mailed);
    } else if a.VerifyEmail? {
      VerifyEmailEvolves(s.db, a.token, a.now);
    } else {
      PassiveStepKeepsSessions(s, a);
      SameSessionsEvolve(s.db, Step(s, a).db);
    }
  }

  lemma EvolvesToItself(db: Db, keep: Option<SessionId>)
    ensures Evolves(db, db, keep)
  {
  }

  lemma SessionStepDb(s: Sys, a: Action)
    requires TouchesSessions(a)
    ensures Step(s, a).db == match a
      case OpenSession(cred, id, token, now) =>
        if cred in s.past.credentials then Rules.OpenSession(s.db, s.cfg, cred, id, token, now).db else s.db
      case Refresh(token, id, newToken, now) => Rules.Refresh(s.db, s.cfg, token, id, newToken, now).db
      case Logout(token, now) => Rules.Logout(s.db, token, now).db
      case LogoutAll(user, now) => Rules.RevokeAllAndBump(s.db, user, now).db
      case ResetPassword(token, password, now) => Rules.ResetPassword(s.db, token, password, now).db
      case CommitChange(user, session, digest, now) =>
        if (user, session, digest) in s.past.changes then Rules.CommitChange(s.db, user, session, digest, now).db
        else s.db
  {
  }

  lemma SessionStepEvolves(s: Sys, a: Action)
    requires TouchesSessions(a) && forall c | c in s.past.credentials :: CredentialFits(s.db, c)
    ensures Evolves(s.db, Step(s, a).db, Kept(a))
  {
    SessionStepDb(s, a);
    EvolvesToItself(s.db, Kept(a));
    match a
    case OpenSession(cred, id, token, now) =>
      if cred in s.past.credentials { OpenSessionEvolves(s.db, s.cfg, cred, id, token, now); }
    case Refresh(token, id, newToken, now) => RefreshEvolves(s.db, s.cfg, token, id, newToken, now);
    case Logout(token, now) => LogoutEvolves(s.db, token, now);
    case LogoutAll(user, now) => RevokeAllEvolves(s.db, user, now);
    case ResetPassword(token, password, now) => ResetEvolves(s.db, token, password, now);
    case CommitChange(user, session, digest, now) => ChangeEvolves(s.db, user, session, digest, now);
  }

  lemma StepEvolves(s: Sys, a: Action)
    requires Inv(s)
    ensures Evolves(s.db, Step(s, a).db, Kept(a))
  {
    if TouchesSessions(a) { SessionStepEvolves(s, a); } else { OtherStepEvolves(s, a); }
  }

  lemma EvolvesKeepsValidated(a: Db, b: Db, keep: Option<SessionId>, v: (UserId, SessionId))
    requires ValidatedFits(a, v) && Evolves(a, b, keep)
    ensures ValidatedFits(b, v)
  {
    assert Survives(a, b, v.1, keep);
  }

  lemma EvolvesKeepsCredential(a: Db, b: Db, keep: Option<SessionId>, c: Rules.Credential)
    requires CredentialFits(a, c) && Evolves(a, b, keep)
    ensures CredentialFits(b, c)
  {
  }

  lemma EvolvesKeepsFits(a: Db, b: Db, keep: Option<SessionId>)
    requires SessionsFit(a) && Evolves(a, b, keep)
    ensures SessionsFit(b)
  {
    forall id | id in b.sessions
      ensures b.sessions[id].user in b.users
      ensures b.sessions[id].tokenVersion <= b.users[b.sessions[id].user].tokenVersion
    {
      if id in a.sessions { assert Survives(a, b, id, keep); }
    }
  }

  /** A password change only ever keeps a session that passed an access check. */
  lemma EvolvesKeepsDead(a: Db, b: Db, keep: Option<SessionId>, id: SessionId)
    requires SessionsFit(a) && Evolves(a, b, keep)
    requires keep.Some? && keep.value in a.sessions ==> !BornStale(a, keep.value)
    requires Dead(a, id)
    ensures Dead(b, id)
  {
    assert Survives(a, b, id, keep);
  }

  lemma NewCredentialFits(db: Db, identifier: string, password: string, locked: bool)
    ensures var answer := Rules.CheckLogin(db, identifier, password, locked).0.answer;
            answer.Ok? ==> CredentialFits(db, answer.value)
  {
  }

  lemma NewlyValidatedFits(db: Db, signed: Option<Claims>, now: int)
    ensures var answer := Rules.ValidateAccess(db, signed, now);
            answer.Ok? ==> ValidatedFits(db, (answer.value.user, answer.value.session))
  {
  }

  lemma StepKeepsInv(s: Sys, a: Action)
    requires Inv(s)
    ensures Inv(Step(s, a))
  {
    var t := Step(s, a);
    StepEvolves(s, a);
    EvolvesKeepsFits(s.db, t.db, Kept(a));
    forall c | c in t.past.credentials
      ensures CredentialFits(t.db, c)
    {
      StepKeepsCredential(s, a, c);
    }
    forall v | v in t.past.validated
      ensures ValidatedFits(t.db, v)
    {
      StepKeepsValidated(s, a, v);
    }
    StepKeepsChanges(s, a);
  }

  lemma StepKeepsCredential(s: Sys, a: Action, c: Rules.Credential)
    requires Inv(s) && Evolves(s.db, Step(s, a).db, Kept(a)) && c in Step(s, a).past.credentials
    ensures CredentialFits(Step(s, a).db, c)
  {
    if c in s.past.credentials {
      EvolvesKeepsCredential(s.db, Step(s, a).db, Kept(a), c);
    } else {
      NewCredentialFits(s.db, a.identifier, a.password, a.locked);
    }
  }

  lemma StepKeepsValidated(s: Sys, a: Action, v: (UserId, SessionId))
    requires Inv(s) && Evolves(s.db, Step(s, a).db, Kept(a)) && v in Step(s, a).past.validated
    ensures ValidatedFits(Step(s, a).db, v)
  {
    if v in s.past.validated {
      EvolvesKeepsValidated(s.db, Step(s, a).db, Kept(a), v);
    } else {
      NewlyValidatedFits(s.db, a.signed, a.now);
    }
  }

  lemma StepKeepsChanges(s: Sys, a: Action)
    requires forall c | c in s.past.changes :: (c.0, c.1) in s.past.validated
    ensures forall c | c in Step(s, a).past.changes :: (c.0, c.1) in Step(s, a).past.validated
  {
  }

  lemma StepKeepsDead(s: Sys, a: Action, id: SessionId)
    requires Inv(s) && Dead(s.db, id)
    ensures Dead(Step(s, a).db, id)
  {
    StepEvolves(s, a);
    if a.CommitChange? && (a.user, a.session, a.digest) !in s.past.changes {
      assert Step(s, a).db == s.db;
    } else {
      assert a.CommitChange? ==> ValidatedFits(s.db, (a.user, a.session));
      EvolvesKeepsDead(s.db, Step(s, a).db, Kept(a), id);
    }
  }

  // ---------- runs ----------

  lemma {:induction false} RunKeepsInv(s: Sys, actions: seq<Action>)
    requires Inv(s)
    ensures Inv(Run(s, actions))
    decreases |actions|
  {
    if actions != [] {
      StepKeepsInv(s, actions[0]);
      RunKeepsInv(Step(s, actions[0]), actions[1..]);
    }
  }

  /** Users, sessions and the refresh index only grow, and versions only rise. */
  ghost predicate Later(a: Db, b: Db)
  {
    && (forall u | u in a.users :: u in b.users && a.users[u].tokenVersion <= b.users[u].tokenVersion)
    && (forall h | h in a.refreshIndex :: h in b.refreshIndex && b.refreshIndex[h] == a.refreshIndex[h])
    && (forall id | id in a.sessions :: id in b.sessions && b.sessions[id].user == a.sessions[id].user)
  }

  lemma {:induction false} RunMovesOn(s: Sys, actions: seq<Action>)
    requires Inv(s)
    ensures Later(s.db, Run(s, actions).db)
    decreases |actions|
  {
    if actions != [] {
      StepEvolves(s, actions[0]);
      StepKeepsInv(s, actions[0]);
      RunMovesOn(Step(s, actions[0]), actions[1..]);
    }
  }

  lemma {:induction false} RunKeepsDead(s: Sys, actions: seq<Action>, id: SessionId)
    requires Inv(s) && Dead(s.db, id)
    ensures Dead(Run(s, actions).db, id)
    decreases |actions|
  {
    if actions != [] {
      StepKeepsInv(s, actions[0]);
      StepKeepsDead(s, actions[0], id);
      RunKeepsDead(Step(s, actions[0]), actions[1..], id);
    }
  }

  lemma ReachableInv(cfg: Config, s: Sys)
    requires Reaches(Start(cfg), s)
    ensures Inv(s)
  {
    var actions :| s == Run(Start(cfg), actions);
    RunKeepsInv(Start(cfg), actions);
  }

  lemma ReachesLater(s: Sys, t: Sys)
    requires Inv(s) && Reaches(s, t)
    ensures Later(s.db, t.db)
  {
    var actions :| t == Run(s, actions);
    RunMovesOn(s, actions);
  }

  lemma ReachesKeepsDead(s: Sys, t: Sys, id: SessionId)
    requires Inv(s) && Reaches(s, t) && Dead(s.db, id)
    ensures Dead(t.db, id)
  {
    var actions :| t == Run(s, actions);
    RunKeepsDead(s, actions, id);
  }

  // ---------- what the service promises ----------

  /** Revocation is final. In every interleaving, a session that is dead at some point never again
      passes an access check, and the refresh tokens that name it never again rotate. */
  lemma RevocationIsFinal(cfg: Config, s: Sys, t: Sys, id: SessionId)
    requires Reaches(Start(cfg), s) && Reaches(s, t) && Dead(s.db, id)
    ensures forall c: Claims, now: int | c.session == id :: Rules.ValidateAccess(t.db, Some(c), now).Err?
    ensures forall token, i, newToken, now | Rules.SessionByRefresh(s.db, token) == Some(id) ::
              Rules.Refresh(t.db, t.cfg, token, i, newToken, now).answer.Err?
  {
    ReachableInv(cfg, s);
    ReachesKeepsDead(s, t, id);
    ReachesLater(s, t);
  }

  /** An access token whose version has been bumped past never validates again. */
  lemma OldAccessStaysInvalid(cfg: Config, s: Sys, t: Sys, c: Claims, now: int)
    requires Reaches(Start(cfg), s) && Reaches(s, t)
    requires c.user in s.db.users && c.version < s.db.users[c.user].tokenVersion
    ensures Rules.ValidateAccess(t.db, Some(c), now).Err?
  {
    ReachableInv(cfg, s);
    ReachesLater(s, t);
  }

  /** Steps that end all of a user's sessions. */
  ghost predicate Liquidates(s: Sys, a: Action, user: UserId)
  {
    || (a.LogoutAll? && a.user == user && user in s.db.users)
    || (a.ResetPassword? && Rules.ResetPassword(s.db, a.token, a.password, a.now).answer.Ok?
        && s.db.tokens[Digest(a.token)].user == user)
    || (a.Refresh? && IsReplay(s.db, a.token) && user in s.db.users
        && s.db.sessions[Rules.SessionByRefresh(s.db, a.token).value].user == user)
  }

  /** A non-empty refresh token of a revoked session. */
  predicate IsReplay(db: Db, token: string)
  {
    && token != "" && Rules.SessionByRefresh(db, token).Some?
    && db.sessions[Rules.SessionByRefresh(db, token).value].revokedAt.Some?
  }

  lemma LiquidationStep(s: Sys, a: Action, user: UserId)
    requires Inv(s) && Liquidates(s, a, user)
    ensures user in s.db.users && user in Step(s, a).db.users
    ensures Step(s, a).db.users[user].tokenVersion == s.db.users[user].tokenVersion + 1
    ensures Step(s, a).db.sessions.Keys == s.db.sessions.Keys
    ensures forall id | id in Step(s, a).db.sessions && Step(s, a).db.sessions[id].user == user ::
              Step(s, a).db.sessions[id].revokedAt.Some?
  {
    match a
    case LogoutAll(_, now) =>
    case ResetPassword(token, password, now) =>
    case Refresh(token, id, newToken, now) =>
      assert Step(s, a).db == Rules.RevokeAllAndBump(s.db, user, now).db;
  }

  /** Logout from all devices, a password reset and the replay of a revoked refresh token leave the
      user with no unrevoked session and a larger version; and no credential snapshot taken before
      can open a session that is ever accepted, however late its transaction commits. */
  lemma LiquidationLocksOut(cfg: Config, s: Sys, a: Action, u: Sys, user: UserId)
    requires Reaches(Start(cfg), s) && Liquidates(s, a, user) && Reaches(Step(s, a), u)
    ensures var t := Step(s, a);
      && user in s.db.users && user in t.db.users
      && t.db.users[user].tokenVersion > s.db.users[user].tokenVersion
      && (forall id | id in t.db.sessions && t.db.sessions[id].user == user ::
            t.db.sessions[id].revokedAt.Some? && Dead(u.db, id))
      && (forall cred, id, token, now | cred in s.past.credentials && cred.user == user ::
            var late := Rules.OpenSession(u.db, u.cfg, cred, id, token, now);
            late.answer.Ok? ==> Dead(late.db, id))
  {
    var t := Step(s, a);
    ReachableInv(cfg, s);
    LiquidationStep(s, a, user);
    StepKeepsInv(s, a);
    ReachesLater(t, u);
    forall id | id in t.db.sessions && t.db.sessions[id].user == user
      ensures Dead(u.db, id)
    {
      ReachesKeepsDead(t, u, id);
    }
    forall cred, id, token, now | cred in s.past.credentials && cred.user == user
      ensures var late := Rules.OpenSession(u.db, u.cfg, cred, id, token, now);
              late.answer.Ok? ==> Dead(late.db, id)
    {
      assert CredentialFits(s.db, cred);
    }
  }

  /** A password change ends every other session of the user. The caller's own session survives,
      realigned and refreshable, exactly when it had not been revoked since its access check. */
  lemma ChangeKeepsOnlyCaller(cfg: Config, s: Sys, a: Action, id: SessionId)
    requires Reaches(Start(cfg), s)
    requires a.CommitChange? && (a.user, a.session, a.digest) in s.past.changes
    requires id in s.db.sessions && s.db.sessions[id].user == a.user
    ensures var t := Step(s, a);
      && (!Dead(t.db, id) <==> id == a.session && s.db.sessions[id].revokedAt.None?)
      && a.user in t.db.users && t.db.users[a.user].password == a.digest
      && (forall c: Claims, now: int | c.session == id && c.version <= s.db.users[a.user].tokenVersion ::
            Rules.ValidateAccess(t.db, Some(c), now).Err?)
  {
    ReachableInv(cfg, s);
    assert ValidatedFits(s.db, (a.user, a.session));
  }
}
