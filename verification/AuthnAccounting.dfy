/** The outbox as a ledger: it accounts for every version bump and every session ever opened. */
module AuthnAccounting {
  import opened Prelude
  import opened AuthnStore
  import opened AuthnRuns
  import opened AuthnLineage
  import Rules = AuthnRules

  function PasswordChanges(events: seq<Event>, user: UserId): nat
  {
    if events == [] then 0
    else
      var e := events[|events| - 1];
      PasswordChanges(events[..|events| - 1], user) + (if e.PasswordChanged? && e.user == user then 1 else 0)
  }

  function LoginsSucceeded(events: seq<Event>): nat
  {
    if events == [] then 0
    else LoginsSucceeded(events[..|events| - 1]) + (if events[|events| - 1].LoginSucceeded? then 1 else 0)
  }

  lemma OneMoreEvent(events: seq<Event>, e: Event, user: UserId)
    ensures PasswordChanges(events + [e], user)
         == PasswordChanges(events, user) + (if e.PasswordChanged? && e.user == user then 1 else 0)
    ensures LoginsSucceeded(events + [e]) == LoginsSucceeded(events) + (if e.LoginSucceeded? then 1 else 0)
  {
    assert (events + [e])[..|events|] == events;
  }

  /** A user's version; an account not yet created counts as 0, which is where it will start. */
  function Version(db: Db, user: UserId): int
  {
    if user in db.users then db.users[user].tokenVersion else 0
  }

  ghost predicate Balanced(s: Sys, user: UserId)
  {
    Version(s.db, user)
      == PasswordChanges(s.db.outbox, user) + s.past.logoutAlls[user] + s.past.liquidations[user]
  }

  ghost predicate SessionsCounted(db: Db)
  {
    |db.sessions| == LoginsSucceeded(db.outbox)
  }

  /** No version, session or counted event changed. */
  ghost predicate SameBooks(a: Db, b: Db, user: UserId)
  {
    && Version(b, user) == Version(a, user) && |b.sessions| == |a.sessions|
    && PasswordChanges(b.outbox, user) == PasswordChanges(a.outbox, user)
    && LoginsSucceeded(b.outbox) == LoginsSucceeded(a.outbox)
  }

  ghost predicate Quiet(e: Event) { !e.PasswordChanged? && !e.LoginSucceeded? }

  lemma QuietEventKeepsBooks(a: Db, b: Db, user: UserId, e: Event)
    requires Version(b, user) == Version(a, user) && b.sessions == a.sessions
    requires b.outbox == a.outbox || (Quiet(e) && b.outbox == a.outbox + [e])
    ensures SameBooks(a, b, user)
  {
    OneMoreEvent(a.outbox, e, user);
  }

  lemma CheckLoginBooks(db: Db, identifier: string, password: string, locked: bool, user: UserId)
    ensures SameBooks(db, Rules.CheckLogin(db, identifier, password, locked).0.db, user)
  {
    var found := Rules.ResolveUser(db, Trim(identifier));
    var who := if found.Some? then found.value else 0;
    QuietEventKeepsBooks(db, Rules.CheckLogin(db, identifier, password, locked).0.db, user, LoginFailed(who));
  }

  lemma OpenSessionBooks(db: Db, cfg: Config, cred: Rules.Credential, id: SessionId, token: string, now: int,
                         user: UserId)
    ensures var t := Rules.OpenSession(db, cfg, cred, id, token, now);
      && Version(t.db, user) == Version(db, user)
      && PasswordChanges(t.db.outbox, user) == PasswordChanges(db.outbox, user)
      && |t.db.sessions| - |db.sessions| == LoginsSucceeded(t.db.outbox) - LoginsSucceeded(db.outbox)
  {
    OneMoreEvent(db.outbox, LoginSucceeded(cred.user, None), user);
  }

  lemma RevokeAllBooks(db: Db, who: UserId, now: int, user: UserId)
    ensures var t := Rules.RevokeAllAndBump(db, who, now);
      && Version(t.db, user) == Version(db, user) + (if who == user && user in db.users then 1 else 0)
      && t.db.outbox == db.outbox && |t.db.sessions| == |db.sessions|
  {
    var t := Rules.RevokeAllAndBump(db, who, now);
    assert t.db.sessions.Keys == db.sessions.Keys;
    assert |t.db.sessions| == |t.db.sessions.Keys| == |db.sessions|;
  }

  lemma RotateBooks(db: Db, cfg: Config, prev: SessionId, id: SessionId, token: string, now: int, user: UserId)
    requires prev in db.sessions && db.sessions[prev].user in db.users && id !in db.sessions
    ensures var t := Rules.Rotate(db, cfg, prev, id, token, now);
      && Version(t, user) == Version(db, user)
      && PasswordChanges(t.outbox, user) == PasswordChanges(db.outbox, user)
      && |t.sessions| - |db.sessions| == LoginsSucceeded(t.outbox) - LoginsSucceeded(db.outbox)
  {
    OneMoreEvent(db.outbox, LoginSucceeded(db.sessions[prev].user, Some(prev)), user);
  }

  lemma LogoutBooks(db: Db, token: string, now: int, user: UserId)
    ensures SameBooks(db, Rules.Logout(db, token, now).db, user)
  {
    var t := Rules.Logout(db, token, now);
    assert t.db.sessions.Keys == db.sessions.Keys;
    assert |t.db.sessions| == |t.db.sessions.Keys| == |db.sessions|;
  }

  /** Of the two kinds of password change, each success is one bump and one event. */
  ghost predicate OnePasswordChange(a: Db, b: Db, who: UserId, user: UserId)
  {
    && |b.sessions| == |a.sessions| && LoginsSucceeded(b.outbox) == LoginsSucceeded(a.outbox)
    && Version(b, user) - Version(a, user) == PasswordChanges(b.outbox, user) - PasswordChanges(a.outbox, user)
    && (who in a.users ==> Version(b, who) == Version(a, who) + 1)
  }

  lemma ResetBooks(db: Db, token: string, password: string, now: int, user: UserId)
    ensures var t := Rules.ResetPassword(db, token, password, now);
      if t.answer.Ok? then OnePasswordChange(db, t.db, db.tokens[Digest(token)].user, user) else t.db == db
  {
    var t := Rules.ResetPassword(db, token, password, now);
    if t.answer.Ok? {
      OneMoreEvent(db.outbox, PasswordChanged(db.tokens[Digest(token)].user, ByReset), user);
      assert t.db.sessions.Keys == db.sessions.Keys;
      assert |t.db.sessions| == |t.db.sessions.Keys| == |db.sessions|;
    }
  }

  lemma ChangeBooks(db: Db, who: UserId, keep: SessionId, password: Digest, now: int, user: UserId)
    ensures var t := Rules.CommitChange(db, who, keep, password, now);
      if t.answer.Ok? then OnePasswordChange(db, t.db, who, user) else t.db == db
  {
    var t := Rules.CommitChange(db, who, keep, password, now);
    if t.answer.Ok? {
      OneMoreEvent(db.outbox, PasswordChanged(who, ByOwner), user);
      assert t.db.sessions.Keys == db.sessions.Keys;
      assert |t.db.sessions| == |t.db.sessions.Keys| == |db.sessions|;
    }
  }

  lemma CreateAccountBooks(db: Db, username: string, email: string, password: Digest, id: UserId, token: Digest,
                           now: int, user: UserId)
    ensures SameBooks(db, Rules.CreateAccount(db, username, email, password, id, token, now).db, user)
  {
    var provider := if email != "" then Email else Local;
    QuietEventKeepsBooks(db, Rules.CreateAccount(db, username, email, password, id, token, now).db, user,
                         UserRegistered(id, provider));
  }

  lemma RegisterBooks(db: Db, name: string, address: string, password: string, id: UserId, token: string, now: int,
                      mailed: bool,
                      user: UserId)
    ensures SameBooks(db, Rules.Register(db, name, address, password, id, token, now, mailed).db, user)
  {
    CreateAccountBooks(db, Trim(name), NormalizeEmail(address), Digest(password), id, Digest(token), now, user);
  }

  lemma VerifyEmailBooks(db: Db, token: string, now: int, user: UserId)
    ensures SameBooks(db, Rules.VerifyEmail(db, token, now).db, user)
  {
    var t := Rules.VerifyEmail(db, token, now).db;
    if t != db {
      var tok := db.tokens[Digest(token)];
      if t.outbox == db.outbox + [UserVerified(tok.user, tok.target)] {
        QuietEventKeepsBooks(db, t, user, UserVerified(tok.user, tok.target));
      } else {
        QuietEventKeepsBooks(db, t, user, UserEmailBound(tok.user, NormalizeEmail(tok.target)));
      }
    }
  }

  // ---------- steps and runs ----------

  lemma RotationKeepsBalance(s: Sys, token: string, id: SessionId, newToken: string, now: int, user: UserId)
    requires Balanced(s, user) && SessionsCounted(s.db)
    requires Rules.Refresh(s.db, s.cfg, token, id, newToken, now).answer.Ok?
    ensures Balanced(Step(s, Refresh(token, id, newToken, now)), user)
    ensures SessionsCounted(Step(s, Refresh(token, id, newToken, now)).db)
  {
    AcceptedRefreshRotates(s.db, s.cfg, token, id, newToken, now);
    RotateBooks(s.db, s.cfg, Rules.SessionByRefresh(s.db, token).value, id, newToken, now, user);
    var answer := Rules.Refresh(s.db, s.cfg, token, id, newToken, now).answer;
    assert AfterRefresh(s, token, id, answer).logoutAlls == s.past.logoutAlls;
    assert AfterRefresh(s, token, id, answer).liquidations == s.past.liquidations;
  }

  lemma RefusalKeepsBalance(s: Sys, token: string, id: SessionId, newToken: string, now: int, user: UserId)
    requires Balanced(s, user) && SessionsCounted(s.db)
    requires Rules.Refresh(s.db, s.cfg, token, id, newToken, now).answer.Err?
    ensures Balanced(Step(s, Refresh(token, id, newToken, now)), user)
    ensures SessionsCounted(Step(s, Refresh(token, id, newToken, now)).db)
  {
    var found := Rules.SessionByRefresh(s.db, token);
    if found.Some? { RevokeAllBooks(s.db, s.db.sessions[found.value].user, now, user); }
  }

  lemma RefreshKeepsBalance(s: Sys, token: string, id: SessionId, newToken: string, now: int, user: UserId)
    requires Balanced(s, user) && SessionsCounted(s.db)
    ensures Balanced(Step(s, Refresh(token, id, newToken, now)), user)
    ensures SessionsCounted(Step(s, Refresh(token, id, newToken, now)).db)
  {
    if Rules.Refresh(s.db, s.cfg, token, id, newToken, now).answer.Ok? {
      RotationKeepsBalance(s, token, id, newToken, now, user);
    } else {
      RefusalKeepsBalance(s, token, id, newToken, now, user);
    }
  }

  /** Steps that neither bump a version nor open a session. */
  predicate QuietStep(a: Action)
  {
    || a.CheckLogin? || a.Validate? || a.Logout? || a.RequestReset? || a.AuthorizeChange? || a.Register?
    || a.VerifyEmail? || a.CheckBind? || a.IssueBind? || a.SetStatus?
  }

  lemma NothingBooked(a: Db, b: Db, user: UserId)
    requires b.sessions == a.sessions && b.outbox == a.outbox && Version(b, user) == Version(a, user)
    ensures SameBooks(a, b, user)
  {
  }

  /** Of those, the ones that record no event either. */
  predicate SilentStep(a: Action)
  {
    a.Validate? || a.RequestReset? || a.AuthorizeChange? || a.CheckBind? || a.IssueBind? || a.SetStatus?
  }

  lemma SilentStepBooksNothing(s: Sys, a: Action, user: UserId)
    requires SilentStep(a)
    ensures var t := Step(s, a); t.db.sessions == s.db.sessions && t.db.outbox == s.db.outbox
    ensures Version(Step(s, a).db, user) == Version(s.db, user)
  {
  }

  lemma QuietStepBooks(s: Sys, a: Action, user: UserId)
    requires QuietStep(a)
    ensures SameBooks(s.db, Step(s, a).db, user)
  {
    if SilentStep(a) {
      SilentStepBooksNothing(s, a, user);
      NothingBooked(s.db, Step(s, a).db, user);
    } else {
      match a
      case CheckLogin(identifier, password, locked) => CheckLoginBooks(s.db, identifier, password, locked, user);
      case Logout(token, now) => LogoutBooks(s.db, token, now, user);
      case Register(name, address, password, id, token, now, mailed) =>
        RegisterBooks(s.db, name, address, password, id, token, now, mailed, user);
      case VerifyEmail(token, now) => VerifyEmailBooks(s.db, token, now, user);
    }
  }

  lemma QuietStepRecordsNothing(s: Sys, a: Action)
    requires QuietStep(a)
    ensures Step(s, a).past.logoutAlls == s.past.logoutAlls && Step(s, a).past.liquidations == s.past.liquidations
  {
  }

  lemma StepKeepsBalance(s: Sys, a: Action, user: UserId)
    requires Balanced(s, user) && SessionsCounted(s.db)
    ensures Balanced(Step(s, a), user) && SessionsCounted(Step(s, a).db)
  {
    if QuietStep(a) {
      QuietStepBooks(s, a, user);
      QuietStepRecordsNothing(s, a);
    } else {
      match a
      case OpenSession(cred, id, token, now) => OpenSessionBooks(s.db, s.cfg, cred, id, token, now, user);
      case Refresh(token, id, newToken, now) => RefreshKeepsBalance(s, token, id, newToken, now, user);
      case LogoutAll(who, now) => RevokeAllBooks(s.db, who, now, user);
      case ResetPassword(token, password, now) => ResetBooks(s.db, token, password, now, user);
      case CommitChange(who, session, digest, now) => ChangeBooks(s.db, who, session, digest, now, user);
    }
  }

  lemma {:induction false} RunKeepsBalance(s: Sys, actions: seq<Action>, user: UserId)
    requires Balanced(s, user) && SessionsCounted(s.db)
    ensures Balanced(Run(s, actions), user) && SessionsCounted(Run(s, actions).db)
    decreases |actions|
  {
    if actions != [] {
      StepKeepsBalance(s, actions[0], user);
      RunKeepsBalance(Step(s, actions[0]), actions[1..], user);
    }
  }

  /** In every reachable state a user's version is the number of password.changed events, logouts
      from all devices and replay liquidations of that user, and the session rows ever created are
      exactly the login.succeeded events. */
  lemma LedgerIsExact(cfg: Config, s: Sys, user: UserId)
    requires Reaches(Start(cfg), s) && user in s.db.users
    ensures s.db.users[user].tokenVersion
         == PasswordChanges(s.db.outbox, user) + s.past.logoutAlls[user] + s.past.liquidations[user]
    ensures |s.db.sessions| == LoginsSucceeded(s.db.outbox)
  {
    var actions :| s == Run(Start(cfg), actions);
    RunKeepsBalance(Start(cfg), actions, user);
  }
}
