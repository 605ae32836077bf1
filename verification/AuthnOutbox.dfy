/** The outbox tells what happened: every step that changes who exists, how they are reached, what their
    password is or which sessions there are writes one event that says so, and no event says anything else. */
module AuthnOutbox {
  import opened Prelude
  import opened AuthnStore
  import opened AuthnRuns
  import Safety = AuthnSafety
  import Accounts = AuthnAccounts
  import Rules = AuthnRules

  /** Everybody but this user is as before. */
  predicate OthersStay(a: Db, b: Db, user: UserId)
  {
    b.users.Keys == a.users.Keys + {user} && forall v | v in a.users && v != user :: b.users[v] == a.users[v]
  }

  /** What an event says about the tables before and after it. */
  ghost predicate Tells(a: Db, b: Db, e: Event)
  {
    match e
    case UserRegistered(user, provider) =>
      && user !in a.users && user in b.users && OthersStay(a, b, user) && b.sessions == a.sessions
      && (provider == Email <==> b.users[user].email.Some?)
    case UserVerified(user, email) =>
      && user in a.users && user in b.users && OthersStay(a, b, user) && b.sessions == a.sessions
      && a.users[user].status != Active && b.users[user] == a.users[user].(status := Active)
      && exists h :: Redeemed(a, b, h, user, email)
    case UserEmailBound(user, email) =>
      && user in a.users && user in b.users && OthersStay(a, b, user) && b.sessions == a.sessions
      && b.users[user] == a.users[user].(email := Some(email))
      && (Email, email) !in a.identities && b.identities == a.identities[(Email, email) := user]
    case LoginSucceeded(user, from) =>
      b.users == a.users && exists id :: Opened(a, b, id, user, from)
    case LoginFailed(user) =>
      user in a.users && b == a.(outbox := b.outbox)
    case PasswordChanged(user, how) =>
      && user in a.users && user in b.users && OthersStay(a, b, user) && b.sessions.Keys == a.sessions.Keys
      && b.users[user] == a.users[user].(tokenVersion := a.users[user].tokenVersion + 1,
                                         password := b.users[user].password)
      && (how == ByReset <==> b.tokens != a.tokens)
  }

  /** The user's one-time token for this address has been put to use. */
  predicate Redeemed(a: Db, b: Db, h: Digest, user: UserId, email: string)
  {
    && h in a.tokens && h in b.tokens && a.tokens[h].consumedAt.None? && b.tokens[h].consumedAt.Some?
    && a.tokens[h].user == user && a.tokens[h].target == email
  }

  /** One session more, of this user; the one it was rotated from, if any, is revoked, the others stay. */
  ghost predicate Opened(a: Db, b: Db, id: SessionId, user: UserId, from: Option<SessionId>)
  {
    && id !in a.sessions && b.sessions.Keys == a.sessions.Keys + {id} && b.sessions[id].user == user
    && (forall x | x in a.sessions && Some(x) != from :: b.sessions[x] == a.sessions[x])
    && (from.Some? ==>
          && from.value in a.sessions && a.sessions[from.value].user == user
          && a.sessions[from.value].revokedAt.None? && b.sessions[from.value].revokedAt.Some?)
  }

  /** A step without an event: nobody has come, and nobody's name, address, status or password has changed;
      there are the same sessions, though some may have been revoked. */
  ghost predicate Silent(a: Db, b: Db)
  {
    && b.outbox == a.outbox && b.users.Keys == a.users.Keys && b.sessions.Keys == a.sessions.Keys
    && b.identities == a.identities && b.usernames == a.usernames
    && forall v | v in a.users :: b.users[v] == a.users[v].(tokenVersion := b.users[v].tokenVersion)
  }

  ghost predicate Logged(a: Db, b: Db)
  {
    Silent(a, b) || exists e :: b.outbox == a.outbox + [e] && Tells(a, b, e)
  }

  lemma OpeningIsLogged(db: Db, cfg: Config, cred: Rules.Credential, id: SessionId, token: string, now: int)
    ensures Logged(db, Rules.OpenSession(db, cfg, cred, id, token, now).db)
  {
    var t := Rules.OpenSession(db, cfg, cred, id, token, now);
    if t.answer.Ok? {
      assert Opened(db, t.db, id, cred.user, None);
      assert t.db.outbox == db.outbox + [LoginSucceeded(cred.user, None)];
    }
  }

  lemma RotatingIsLogged(db: Db, cfg: Config, id: SessionId, newId: SessionId, token: string, now: int)
    requires id in db.sessions && db.sessions[id].user in db.users && newId !in db.sessions
    requires db.sessions[id].revokedAt.None?
    ensures Logged(db, Rules.Rotate(db, cfg, id, newId, token, now))
  {
    var after := Rules.Rotate(db, cfg, id, newId, token, now);
    assert Opened(db, after, newId, db.sessions[id].user, Some(id));
    assert after.outbox == db.outbox + [LoginSucceeded(db.sessions[id].user, Some(id))];
  }

  lemma RevokingIsSilent(db: Db, user: UserId, now: int)
    ensures Silent(db, Rules.RevokeAllAndBump(db, user, now).db)
  {
  }

  lemma RefreshIsLogged(db: Db, cfg: Config, token: string, id: SessionId, newToken: string, now: int)
    ensures Logged(db, Rules.Refresh(db, cfg, token, id, newToken, now).db)
  {
    var t := Rules.Refresh(db, cfg, token, id, newToken, now);
    var found := Rules.SessionByRefresh(db, token);
    assert Silent(db, db);
    if t.answer.Ok? {
      RotatingIsLogged(db, cfg, found.value, id, newToken, now);
    } else if found.Some? {
      RevokingIsSilent(db, db.sessions[found.value].user, now);
    }
  }

  lemma ResettingIsLogged(db: Db, token: string, password: string, now: int)
    ensures Logged(db, Rules.ResetPassword(db, token, password, now).db)
  {
    var t := Rules.ResetPassword(db, token, password, now);
    if t.answer.Ok? {
      var h := Digest(token);
      assert t.db.tokens[h] != db.tokens[h];
      assert t.db.outbox == db.outbox + [PasswordChanged(db.tokens[h].user, ByReset)];
    }
  }

  lemma ChangingIsLogged(db: Db, user: UserId, keep: SessionId, password: Digest, now: int)
    ensures Logged(db, Rules.CommitChange(db, user, keep, password, now).db)
  {
    var t := Rules.CommitChange(db, user, keep, password, now);
    if t.answer.Ok? {
      assert t.db.outbox == db.outbox + [PasswordChanged(user, ByOwner)];
    }
  }

  lemma CreatingIsLogged(db: Db, username: string, email: string, password: Digest, id: UserId, token: Digest, now: int)
    ensures Logged(db, Rules.CreateAccount(db, username, email, password, id, token, now).db)
  {
    var t := Rules.CreateAccount(db, username, email, password, id, token, now);
    if t.answer.Ok? {
      var e := UserRegistered(id, if email != "" then Email else Local);
      assert t.db.outbox == db.outbox + [e] && Tells(db, t.db, e);
    }
  }

  lemma RegisteringIsLogged(db: Db, name: string, address: string, password: string, id: UserId, token: string,
                            now: int, mailed: bool)
    ensures Logged(db, Rules.Register(db, name, address, password, id, token, now, mailed).db)
  {
    CreatingIsLogged(db, Trim(name), NormalizeEmail(address), Digest(password), id, Digest(token), now);
    assert Silent(db, db);
  }

  lemma VerifyingIsLogged(db: Db, token: string, now: int)
    ensures Logged(db, Rules.VerifyEmail(db, token, now).db)
  {
    var t := Rules.VerifyEmail(db, token, now);
    if t.answer.Ok? {
      var tok := db.tokens[Digest(token)];
      var verified, bound := UserVerified(tok.user, tok.target), UserEmailBound(tok.user, NormalizeEmail(tok.target));
      if db.users[tok.user].status != Active {
        assert Redeemed(db, t.db, Digest(token), tok.user, tok.target);
        assert t.db.outbox == db.outbox + [verified] && Tells(db, t.db, verified);
      } else if tok.target != "" {
        assert t.db.outbox == db.outbox + [bound] && Tells(db, t.db, bound);
      }
    }
  }

  lemma CheckIsLogged(db: Db, identifier: string, password: string, locked: bool)
    ensures Logged(db, Rules.CheckLogin(db, identifier, password, locked).0.db)
  {
    var t := Rules.CheckLogin(db, identifier, password, locked).0;
    if t.db != db {
      var e := LoginFailed(Rules.ResolveUser(db, Trim(identifier)).value);
      assert t.db.outbox == db.outbox + [e] && Tells(db, t.db, e);
    }
  }

  lemma SessionStepIsLogged(s: Sys, a: Action)
    requires Safety.TouchesSessions(a)
    ensures Logged(s.db, Step(s, a).db)
  {
    Safety.SessionStepDb(s, a);
    assert Silent(s.db, s.db);
    match a
    case OpenSession(cred, id, token, now) => OpeningIsLogged(s.db, s.cfg, cred, id, token, now);
    case Refresh(token, id, newToken, now) => RefreshIsLogged(s.db, s.cfg, token, id, newToken, now);
    case Logout(token, now) => assert Silent(s.db, Rules.Logout(s.db, token, now).db);
    case LogoutAll(user, now) => RevokingIsSilent(s.db, user, now);
    case ResetPassword(token, password, now) => ResettingIsLogged(s.db, token, password, now);
    case CommitChange(user, session, digest, now) => ChangingIsLogged(s.db, user, session, digest, now);
  }

  lemma AccountStepIsLogged(s: Sys, a: Action)
    requires a.RequestReset? || a.Register? || a.IssueBind?
    ensures Logged(s.db, Step(s, a).db)
  {
    Accounts.StepUsesRule(s, a);
    match a
    case RequestReset(_, _, _, _) => assert Silent(s.db, Step(s, a).db);
    case Register(name, address, password, user, token, now, mailed) =>
      RegisteringIsLogged(s.db, name, address, password, user, token, now, mailed);
    case IssueBind(_, _, _, _, _) => assert Silent(s.db, Step(s, a).db);
  }

  /** Every step of the service, from any state, writes exactly the event that says what it changed, or none
      and changes nothing an event would tell. */
  lemma EveryChangeIsLogged(s: Sys, a: Action)
    requires !a.SetStatus?
    ensures Logged(s.db, Step(s, a).db)
  {
    assert Silent(s.db, s.db);
    if Safety.TouchesSessions(a) {
      SessionStepIsLogged(s, a);
    } else if a.RequestReset? || a.Register? || a.IssueBind? {
      AccountStepIsLogged(s, a);
    } else if a.VerifyEmail? {
      Accounts.VerifyUses(s, a.token, a.now);
      VerifyingIsLogged(s.db, a.token, a.now);
    } else if a.CheckLogin? {
      CheckIsLogged(s.db, a.identifier, a.password, a.locked);
    } else {
      assert Step(s, a).db == s.db;
    }
  }

  // ---------- what can be read off the outbox ----------

  ghost predicate RegisteredIn(outbox: seq<Event>, user: UserId)
  {
    exists i :: 0 <= i < |outbox| && outbox[i].UserRegistered? && outbox[i].user == user
  }

  /** Whoever reads the outbox knows who there is, each told once. */
  ghost predicate OutboxKnowsUsers(db: Db)
  {
    && (forall user: UserId :: user in db.users <==> RegisteredIn(db.outbox, user))
    && forall i, j | 0 <= i < j < |db.outbox| && db.outbox[i].UserRegistered? && db.outbox[j].UserRegistered? ::
         db.outbox[i].user != db.outbox[j].user
  }

  /** Who there is after an event. */
  ghost predicate Joins(a: Db, b: Db, e: Event)
  {
    && b.outbox == a.outbox + [e] && (e.UserRegistered? ==> e.user !in a.users)
    && forall v: UserId :: v in b.users <==> v in a.users || (e.UserRegistered? && e.user == v)
  }

  lemma LoggedJoins(a: Db, b: Db)
    requires Logged(a, b)
    ensures (b.outbox == a.outbox && b.users.Keys == a.users.Keys) || exists e :: Joins(a, b, e)
  {
    if !Silent(a, b) {
      var e :| b.outbox == a.outbox + [e] && Tells(a, b, e);
      TellsJoins(a, b, e);
    }
  }

  lemma TellsJoins(a: Db, b: Db, e: Event)
    requires b.outbox == a.outbox + [e] && Tells(a, b, e)
    ensures Joins(a, b, e)
  {
  }

  lemma JoinKeepsKnowing(a: Db, b: Db, e: Event)
    requires OutboxKnowsUsers(a) && Joins(a, b, e)
    ensures OutboxKnowsUsers(b)
  {
    forall user: UserId ensures RegisteredIn(b.outbox, user) <==>
                                RegisteredIn(a.outbox, user) || (e.UserRegistered? && e.user == user) {
      RegisteredInMore(a.outbox, e, user);
    }
    forall i, j | 0 <= i < j < |b.outbox| && b.outbox[i].UserRegistered? && b.outbox[j].UserRegistered?
      ensures b.outbox[i].user != b.outbox[j].user
    {
      if j == |a.outbox| { assert a.outbox[i] == b.outbox[i] && RegisteredIn(a.outbox, a.outbox[i].user); }
    }
  }

  lemma LoggedKeepsKnowing(a: Db, b: Db)
    requires OutboxKnowsUsers(a) && Logged(a, b)
    ensures OutboxKnowsUsers(b)
  {
    LoggedJoins(a, b);
    if e :| Joins(a, b, e) {
      JoinKeepsKnowing(a, b, e);
    } else {
      assert forall user: UserId :: user in b.users <==> user in a.users;
    }
  }

  lemma RegisteredInMore(outbox: seq<Event>, e: Event, user: UserId)
    ensures RegisteredIn(outbox + [e], user) <==> RegisteredIn(outbox, user) || (e.UserRegistered? && e.user == user)
  {
    var more := outbox + [e];
    if RegisteredIn(outbox, user) {
      var i :| 0 <= i < |outbox| && outbox[i].UserRegistered? && outbox[i].user == user;
      assert more[i] == outbox[i];
    }
    assert more[|outbox|] == e;
  }

  lemma {:induction false} RunKeepsKnowing(s: Sys, actions: seq<Action>)
    requires OutboxKnowsUsers(s.db)
    ensures OutboxKnowsUsers(Run(s, actions).db)
    decreases |actions|
  {
    if actions != [] {
      StepKeepsKnowing(s, actions[0]);
      RunKeepsKnowing(Step(s, actions[0]), actions[1..]);
    }
  }

  lemma StepKeepsKnowing(s: Sys, a: Action)
    requires OutboxKnowsUsers(s.db)
    ensures OutboxKnowsUsers(Step(s, a).db)
  {
    if a.SetStatus? {
      assert Step(s, a).db.users.Keys == s.db.users.Keys && Step(s, a).db.outbox == s.db.outbox;
    } else {
      EveryChangeIsLogged(s, a);
      LoggedKeepsKnowing(s.db, Step(s, a).db);
    }
  }

  /** In every reachable state the accounts are exactly those whose registration the outbox tells, once. */
  lemma OutboxTellsWhoThereIs(cfg: Config, s: Sys)
    requires Reaches(Start(cfg), s)
    ensures OutboxKnowsUsers(s.db)
  {
    var actions :| s == Run(Start(cfg), actions);
    RunKeepsKnowing(Start(cfg), actions);
  }
}
