/** Users do not touch each other: every step acts for at most one user, and everybody else's account,
    sessions and one-time tokens are after it exactly what they were before. */
module AuthnIsolation {
  import opened Prelude
  import opened AuthnStore
  import opened AuthnRuns
  import Safety = AuthnSafety
  import Accounts = AuthnAccounts
  import Rules = AuthnRules

  /** Whose session a refresh token names. */
  function HolderOf(db: Db, token: string): Option<UserId>
  {
    var h := Digest(token);
    if h in db.refreshIndex && db.refreshIndex[h] in db.sessions
    then Some(db.sessions[db.refreshIndex[h]].user) else None
  }

  function OwnerOf(db: Db, token: string): Option<UserId>
  {
    if Digest(token) in db.tokens then Some(db.tokens[Digest(token)].user) else None
  }

  function AddresseeOf(db: Db, address: string): Option<UserId>
  {
    var key := (Email, NormalizeEmail(address));
    if key in db.identities then Some(db.identities[key]) else None
  }

  /** The user a step acts for; None when it writes nothing about anybody. */
  function Actor(s: Sys, a: Action): Option<UserId>
  {
    match a
    case CheckLogin(_, _, _) => None
    case OpenSession(cred, _, _, _) => Some(cred.user)
    case Validate(_, _) => None
    case Refresh(token, _, _, _) => HolderOf(s.db, token)
    case Logout(token, _) => HolderOf(s.db, token)
    case LogoutAll(user, _) => Some(user)
    case RequestReset(address, _, _, _) => AddresseeOf(s.db, address)
    case ResetPassword(token, _, _) => OwnerOf(s.db, token)
    case AuthorizeChange(_, _, _, _) => None
    case CommitChange(user, _, _, _) => Some(user)
    case Register(_, _, _, user, _, _, _) => Some(user)
    case VerifyEmail(token, _) => OwnerOf(s.db, token)
    case CheckBind(_, _) => None
    case IssueBind(user, _, _, _, _) => Some(user)
    case SetStatus(user, _) => Some(user)
  }

  /** Only what belongs to this user differs: other accounts, sessions, tokens and names are the same rows,
      and no row of anybody else has come or gone. */
  ghost predicate OnlyOf(a: Db, b: Db, actor: Option<UserId>)
  {
    && (forall v: UserId | Some(v) != actor :: SameAccount(a, b, v))
    && (forall id | id in a.sessions || id in b.sessions :: SameSession(a, b, id) || SessionOf(a, b, id, actor))
    && (forall h | h in a.tokens || h in b.tokens :: SameToken(a, b, h) || TokenOf(a, b, h, actor))
    && (forall k | k in a.identities || k in b.identities :: SameIdentity(a, b, k) || IdentityOf(a, b, k, actor))
  }

  predicate SameAccount(a: Db, b: Db, v: UserId)
  {
    (v in a.users <==> v in b.users) && (v in a.users ==> b.users[v] == a.users[v])
  }

  predicate SameSession(a: Db, b: Db, id: SessionId)
  {
    id in a.sessions && id in b.sessions && b.sessions[id] == a.sessions[id]
  }

  predicate SessionOf(a: Db, b: Db, id: SessionId, actor: Option<UserId>)
  {
    && id in b.sessions && Some(b.sessions[id].user) == actor
    && (id in a.sessions ==> a.sessions[id].user == b.sessions[id].user)
  }

  predicate SameToken(a: Db, b: Db, h: Digest) { h in a.tokens && h in b.tokens && b.tokens[h] == a.tokens[h] }

  predicate TokenOf(a: Db, b: Db, h: Digest, actor: Option<UserId>)
  {
    h in b.tokens && Some(b.tokens[h].user) == actor && (h in a.tokens ==> a.tokens[h].user == b.tokens[h].user)
  }

  predicate SameIdentity(a: Db, b: Db, k: (Provider, string))
  {
    k in a.identities && k in b.identities && b.identities[k] == a.identities[k]
  }

  predicate IdentityOf(a: Db, b: Db, k: (Provider, string), actor: Option<UserId>)
  {
    k !in a.identities && k in b.identities && Some(b.identities[k]) == actor
  }

  // ---------- each rule ----------

  lemma NothingDiffers(db: Db, actor: Option<UserId>)
    ensures OnlyOf(db, db, actor)
  {
  }

  lemma OpeningIsOwn(db: Db, cfg: Config, cred: Rules.Credential, id: SessionId, token: string, now: int)
    ensures OnlyOf(db, Rules.OpenSession(db, cfg, cred, id, token, now).db, Some(cred.user))
  {
  }

  lemma RevokingIsOwn(db: Db, user: UserId, now: int)
    ensures OnlyOf(db, Rules.RevokeAllAndBump(db, user, now).db, Some(user))
  {
  }

  lemma RotatingIsOwn(db: Db, cfg: Config, id: SessionId, newId: SessionId, token: string, now: int)
    requires id in db.sessions && db.sessions[id].user in db.users && newId !in db.sessions
    ensures OnlyOf(db, Rules.Rotate(db, cfg, id, newId, token, now), Some(db.sessions[id].user))
  {
  }

  lemma RefreshIsOwn(db: Db, cfg: Config, token: string, id: SessionId, newToken: string, now: int)
    ensures OnlyOf(db, Rules.Refresh(db, cfg, token, id, newToken, now).db, HolderOf(db, token))
  {
    var t := Rules.Refresh(db, cfg, token, id, newToken, now);
    var found := Rules.SessionByRefresh(db, token);
    NothingDiffers(db, HolderOf(db, token));
    if t.answer.Ok? {
      RotatingIsOwn(db, cfg, found.value, id, newToken, now);
    } else if found.Some? {
      RevokingIsOwn(db, db.sessions[found.value].user, now);
    }
  }

  lemma LogoutIsOwn(db: Db, token: string, now: int)
    ensures OnlyOf(db, Rules.Logout(db, token, now).db, HolderOf(db, token))
  {
  }

  /** A new token, or one put to use, is its owner's. */
  lemma TokenIsOwn(db: Db, h: Digest, row: AuthToken)
    requires h in db.tokens ==> db.tokens[h].user == row.user
    ensures OnlyOf(db, db.(tokens := db.tokens[h := row]), Some(row.user))
  {
  }

  lemma OnlyOfTransitive(a: Db, b: Db, c: Db, actor: Option<UserId>)
    requires OnlyOf(a, b, actor) && OnlyOf(b, c, actor)
    ensures OnlyOf(a, c, actor)
  {
  }

  lemma RequestingIsOwn(db: Db, address: string, token: string, now: int, mailed: bool)
    ensures OnlyOf(db, Rules.RequestPasswordReset(db, address, token, now, mailed).db, AddresseeOf(db, address))
  {
    var t := Rules.RequestPasswordReset(db, address, token, now, mailed);
    NothingDiffers(db, AddresseeOf(db, address));
    if t.db != db {
      var email := NormalizeEmail(address);
      TokenIsOwn(db, Digest(token),
                 AuthToken(db.identities[(Email, email)], ForResetPassword, email, now + TOKEN_TTL, None));
    }
  }

  lemma ResettingIsOwn(db: Db, token: string, password: string, now: int)
    ensures OnlyOf(db, Rules.ResetPassword(db, token, password, now).db, OwnerOf(db, token))
  {
    var t := Rules.ResetPassword(db, token, password, now);
    NothingDiffers(db, OwnerOf(db, token));
    if t.answer.Ok? {
      var tok := db.tokens[Digest(token)];
      var consumed := db.(tokens := db.tokens[Digest(token) := tok.(consumedAt := Some(now))]);
      TokenIsOwn(db, Digest(token), tok.(consumedAt := Some(now)));
      RevokingIsOwn(consumed, tok.user, now);
      PasswordIsOwn(Rules.RevokeAllAndBump(consumed, tok.user, now).db, tok.user, Digest(password), t.db.outbox);
      OnlyOfTransitive(db, consumed, Rules.RevokeAllAndBump(consumed, tok.user, now).db, Some(tok.user));
      OnlyOfTransitive(db, Rules.RevokeAllAndBump(consumed, tok.user, now).db, t.db, Some(tok.user));
    }
  }

  lemma PasswordIsOwn(db: Db, user: UserId, password: Digest, outbox: seq<Event>)
    requires user in db.users
    ensures OnlyOf(db, db.(users := db.users[user := db.users[user].(password := password)], outbox := outbox),
                   Some(user))
  {
  }

  lemma ChangingIsOwn(db: Db, user: UserId, keep: SessionId, password: Digest, now: int)
    ensures OnlyOf(db, Rules.CommitChange(db, user, keep, password, now).db, Some(user))
  {
  }

  lemma RegisteringIsOwn(db: Db, name: string, address: string, password: string, id: UserId, token: string, now: int,
                         mailed: bool)
    ensures OnlyOf(db, Rules.Register(db, name, address, password, id, token, now, mailed).db, Some(id))
  {
    CreatingIsOwn(db, Trim(name), NormalizeEmail(address), Digest(password), id, Digest(token), now);
    NothingDiffers(db, Some(id));
  }

  lemma CreatingIsOwn(db: Db, username: string, email: string, password: Digest, id: UserId, token: Digest, now: int)
    ensures OnlyOf(db, Rules.CreateAccount(db, username, email, password, id, token, now).db, Some(id))
  {
  }

  lemma VerifyingIsOwn(db: Db, token: string, now: int)
    ensures OnlyOf(db, Rules.VerifyEmail(db, token, now).db, OwnerOf(db, token))
  {
    var t := Rules.VerifyEmail(db, token, now);
    NothingDiffers(db, OwnerOf(db, token));
    if t.answer.Ok? {
      var tok := db.tokens[Digest(token)];
      var consumed := db.(tokens := db.tokens[Digest(token) := tok.(consumedAt := Some(now))]);
      TokenIsOwn(db, Digest(token), tok.(consumedAt := Some(now)));
      if db.users[tok.user].status != Active {
        ActivatingIsOwn(consumed, tok.user, t.db.outbox);
      } else if tok.target != "" {
        BindingIsOwn(consumed, tok.user, NormalizeEmail(tok.target));
      } else {
        NothingDiffers(consumed, Some(tok.user));
      }
      OnlyOfTransitive(db, consumed, t.db, Some(tok.user));
    }
  }

  lemma ActivatingIsOwn(db: Db, user: UserId, outbox: seq<Event>)
    requires user in db.users
    ensures OnlyOf(db, db.(users := db.users[user := db.users[user].(status := Active)], outbox := outbox), Some(user))
  {
  }

  lemma BindingIsOwn(db: Db, user: UserId, email: string)
    requires user in db.users && (Email, email) !in db.identities
    ensures OnlyOf(db, Rules.BindEmail(db, user, email), Some(user))
  {
  }

  lemma IssuingIsOwn(db: Db, user: UserId, email: string, token: string, now: int, mailed: bool)
    ensures OnlyOf(db, Rules.IssueBind(db, user, email, token, now, mailed).db, Some(user))
  {
  }

  // ---------- every step, every run ----------

  lemma SessionStepIsOwn(s: Sys, a: Action)
    requires Safety.TouchesSessions(a)
    ensures OnlyOf(s.db, Step(s, a).db, Actor(s, a))
  {
    Safety.SessionStepDb(s, a);
    NothingDiffers(s.db, Actor(s, a));
    match a
    case OpenSession(cred, id, token, now) => OpeningIsOwn(s.db, s.cfg, cred, id, token, now);
    case Refresh(token, id, newToken, now) => RefreshIsOwn(s.db, s.cfg, token, id, newToken, now);
    case Logout(token, now) => LogoutIsOwn(s.db, token, now);
    case LogoutAll(user, now) => RevokingIsOwn(s.db, user, now);
    case ResetPassword(token, password, now) => ResettingIsOwn(s.db, token, password, now);
    case CommitChange(user, session, digest, now) => ChangingIsOwn(s.db, user, session, digest, now);
  }

  lemma AccountStepIsOwn(s: Sys, a: Action)
    requires a.RequestReset? || a.Register? || a.IssueBind?
    ensures OnlyOf(s.db, Step(s, a).db, Actor(s, a))
  {
    Accounts.StepUsesRule(s, a);
    NothingDiffers(s.db, Actor(s, a));
    match a
    case RequestReset(address, token, now, mailed) => RequestingIsOwn(s.db, address, token, now, mailed);
    case Register(name, address, password, user, token, now, mailed) =>
      RegisteringIsOwn(s.db, name, address, password, user, token, now, mailed);
    case IssueBind(user, email, token, now, mailed) => IssuingIsOwn(s.db, user, email, token, now, mailed);
  }

  lemma StatusIsOwn(s: Sys, a: Action)
    requires a.SetStatus?
    ensures OnlyOf(s.db, Step(s, a).db, Actor(s, a))
  {
    NothingDiffers(s.db, Actor(s, a));
  }

  /** Checks write at most an event. */
  lemma CheckWritesNothing(s: Sys, a: Action)
    requires a.CheckLogin? || a.Validate? || a.AuthorizeChange? || a.CheckBind?
    ensures Step(s, a).db == s.db.(outbox := Step(s, a).db.outbox)
  {
  }

  /** Every step writes about the user it acts for and nobody else, from any state whatever. */
  lemma StepIsOwn(s: Sys, a: Action)
    ensures OnlyOf(s.db, Step(s, a).db, Actor(s, a))
  {
    if Safety.TouchesSessions(a) {
      SessionStepIsOwn(s, a);
    } else if a.RequestReset? || a.Register? || a.IssueBind? {
      AccountStepIsOwn(s, a);
    } else if a.VerifyEmail? {
      Accounts.VerifyUses(s, a.token, a.now);
      VerifyingIsOwn(s.db, a.token, a.now);
    } else if a.SetStatus? {
      StatusIsOwn(s, a);
    } else {
      CheckWritesNothing(s, a);
      NothingDiffers(s.db, Actor(s, a));
    }
  }

  /** Nobody acts for this user in the run. */
  predicate Idle(s: Sys, actions: seq<Action>, v: UserId)
    decreases |actions|
  {
    actions == [] || (Actor(s, actions[0]) != Some(v) && Idle(Step(s, actions[0]), actions[1..], v))
  }

  /** What there is of one user. */
  ghost predicate SameOf(a: Db, b: Db, v: UserId)
  {
    && SameAccount(a, b, v)
    && (forall id | (id in a.sessions && a.sessions[id].user == v) || (id in b.sessions && b.sessions[id].user == v) ::
          SameSession(a, b, id))
  }

  lemma StepOfOthers(s: Sys, a: Action, v: UserId)
    requires Actor(s, a) != Some(v)
    ensures SameOf(s.db, Step(s, a).db, v)
  {
    StepIsOwn(s, a);
    var t := Step(s, a);
    forall id | (id in s.db.sessions && s.db.sessions[id].user == v)
                || (id in t.db.sessions && t.db.sessions[id].user == v)
      ensures SameSession(s.db, t.db, id)
    {
      assert SameSession(s.db, t.db, id) || SessionOf(s.db, t.db, id, Actor(s, a));
    }
  }

  lemma SameOfTransitive(a: Db, b: Db, c: Db, v: UserId)
    requires SameOf(a, b, v) && SameOf(b, c, v)
    ensures SameOf(a, c, v)
  {
    forall id | (id in a.sessions && a.sessions[id].user == v) || (id in c.sessions && c.sessions[id].user == v)
      ensures SameSession(a, c, id)
    {
      if id in a.sessions && a.sessions[id].user == v { assert SameSession(a, b, id); }
      assert SameSession(b, c, id);
    }
  }

  lemma {:induction false} IdleRun(s: Sys, actions: seq<Action>, v: UserId)
    requires Idle(s, actions, v)
    ensures SameOf(s.db, Run(s, actions).db, v)
    decreases |actions|
  {
    if actions != [] {
      StepOfOthers(s, actions[0], v);
      IdleRun(Step(s, actions[0]), actions[1..], v);
      SameOfTransitive(s.db, Step(s, actions[0]).db, Run(s, actions).db, v);
    }
  }

  /** While nobody acts for a user, whatever all the others do: that user's account and sessions stay as
      they are, and every access token of the user is answered as it would have been at the start. */
  lemma OthersCannotInterfere(s: Sys, actions: seq<Action>, v: UserId, c: Claims, now: int)
    requires Idle(s, actions, v) && c.user == v
    ensures SameOf(s.db, Run(s, actions).db, v)
    ensures Rules.ValidateAccess(Run(s, actions).db, Some(c), now) == Rules.ValidateAccess(s.db, Some(c), now)
  {
    IdleRun(s, actions, v);
    SameClaimsSameAnswer(s.db, Run(s, actions).db, c, now);
  }

  lemma SameClaimsSameAnswer(a: Db, b: Db, c: Claims, now: int)
    requires SameOf(a, b, c.user)
    ensures Rules.ValidateAccess(b, Some(c), now) == Rules.ValidateAccess(a, Some(c), now)
  {
    if (c.session in a.sessions && a.sessions[c.session].user == c.user) ||
       (c.session in b.sessions && b.sessions[c.session].user == c.user) {
      assert SameSession(a, b, c.session);
    }
  }

  /** So no step that acts for anybody but its owner can end a session. */
  lemma OnlyItsOwnerEndsASession(s: Sys, a: Action, id: SessionId)
    requires id in s.db.sessions && !Safety.Dead(s.db, id) && Actor(s, a) != Some(s.db.sessions[id].user)
    ensures id in Step(s, a).db.sessions && !Safety.Dead(Step(s, a).db, id)
  {
    StepOfOthers(s, a, s.db.sessions[id].user);
    assert SameSession(s.db, Step(s, a).db, id);
  }

  // ---------- when a session was revoked ----------

  /** A revocation keeps its time: no step revokes a session a second time, or dates one back. */
  lemma RevocationKeepsItsTime(s: Sys, a: Action, id: SessionId)
    requires id in s.db.sessions && s.db.sessions[id].revokedAt.Some?
    ensures id in Step(s, a).db.sessions && Step(s, a).db.sessions[id].revokedAt == s.db.sessions[id].revokedAt
  {
    if Safety.TouchesSessions(a) {
      Safety.SessionStepDb(s, a);
      if a.Refresh? { RefreshKeepsTime(s.db, s.cfg, a.token, a.id, a.newToken, a.now, id); }
    } else {
      OtherStepsKeepSessions(s, a);
    }
  }

  lemma OtherStepsKeepSessions(s: Sys, a: Action)
    requires !Safety.TouchesSessions(a)
    ensures Step(s, a).db.sessions == s.db.sessions
  {
    if a.Register? || a.RequestReset? || a.IssueBind? { Accounts.StepUsesRule(s, a); }
    if a.VerifyEmail? { Accounts.VerifyUses(s, a.token, a.now); }
  }

  lemma RefreshKeepsTime(db: Db, cfg: Config, token: string, newId: SessionId, newToken: string, now: int,
                         id: SessionId)
    requires id in db.sessions && db.sessions[id].revokedAt.Some?
    ensures var t := Rules.Refresh(db, cfg, token, newId, newToken, now).db;
            id in t.sessions && t.sessions[id].revokedAt == db.sessions[id].revokedAt
  {
  }

  /** Ending all of a user's sessions at an instant is exactly this: each unrevoked one is revoked then, and
      nothing else about it changes; those revoked before, and everybody else's, stay as they were. */
  lemma LiquidationRevokesExactly(s: Sys, a: Action, user: UserId, id: SessionId)
    requires Safety.Liquidates(s, a, user) && id in s.db.sessions
    ensures var row := s.db.sessions[id];
      && id in Step(s, a).db.sessions
      && Step(s, a).db.sessions[id]
         == if row.user == user && row.revokedAt.None? then row.(revokedAt := Some(a.now)) else row
  {
    match a
    case LogoutAll(_, now) =>
    case ResetPassword(token, password, now) =>
    case Refresh(token, newId, newToken, now) =>
      assert Step(s, a).db == Rules.RevokeAllAndBump(s.db, user, now).db;
  }

  /** And so is a password change, but for the caller's session, which only moves to the new version. */
  lemma ChangeRevokesExactly(s: Sys, a: Action, id: SessionId)
    requires a.CommitChange? && (a.user, a.session, a.digest) in s.past.changes && a.user in s.db.users
    requires id in s.db.sessions
    ensures var row := s.db.sessions[id];
      && id in Step(s, a).db.sessions
      && Step(s, a).db.sessions[id]
         == if row.user != a.user then row
            else if id == a.session then row.(tokenVersion := s.db.users[a.user].tokenVersion + 1)
            else if row.revokedAt.None? then row.(revokedAt := Some(a.now)) else row
  {
  }
}
