/** Runs of the authentication service. Every transaction is one step; the reads the source makes
    outside a transaction (a login's credential snapshot, the access check in front of a password
    change, the change's password check, the ownership check of a bind request) are steps of their own, so
    that anything may happen between them and the commit they lead to. */
module AuthnRuns {
  import opened Prelude
  import opened AuthnStore
  import Rules = AuthnRules

  /** What happened so far, kept beside the tables to state properties of runs. Nothing is ever
      taken out of the pending sets: a snapshot may be committed late, or more than once. */
  datatype History = History(
    credentials: set<Rules.Credential>,                 // snapshots handed out by login checks
    validated: set<(UserId, SessionId)>,                // sessions an access check accepted
    changes: set<(UserId, SessionId, Digest)>,          // password changes past their checks
    binds: set<(UserId, string)>,                       // bind requests past theirs
    chains: map<SessionId, seq<SessionId>>,             // rotation chain of each login, oldest first
    root: map<SessionId, SessionId>,                    // the login a session descends from
    logoutAlls: multiset<UserId>,
    liquidations: multiset<UserId>,
    uses: seq<(Digest, Purpose)>)                       // one-time tokens that took effect, in order

  datatype Sys = Sys(cfg: Config, db: Db, past: History)

  function Start(cfg: Config): Sys
  {
    Sys(cfg, EMPTY_DB, History({}, {}, {}, {}, map[], map[], multiset{}, multiset{}, []))
  }

  datatype Action =
    | CheckLogin(identifier: string, password: string, locked: bool)
    | OpenSession(cred: Rules.Credential, id: SessionId, token: string, now: int)
    | Validate(signed: Option<Claims>, now: int)
    | Refresh(token: string, id: SessionId, newToken: string, now: int)
    | Logout(token: string, now: int)
    | LogoutAll(user: UserId, now: int)
    | RequestReset(address: string, token: string, now: int, mailed: bool)
    | ResetPassword(token: string, password: string, now: int)
    | AuthorizeChange(user: UserId, session: SessionId, current: string, password: string)
    | CommitChange(user: UserId, session: SessionId, digest: Digest, now: int)
    | Register(name: string, address: string, password: string, user: UserId, token: string, now: int,
               mailed: bool)
    | VerifyEmail(token: string, now: int)
    | CheckBind(user: UserId, address: string)
    | IssueBind(user: UserId, email: string, token: string, now: int, mailed: bool)
    | SetStatus(user: UserId, status: Status)           // administration, not part of the service

  function Step(s: Sys, a: Action): Sys
  {
    match a
    case CheckLogin(identifier, password, locked) =>
      var t := Rules.CheckLogin(s.db, identifier, password, locked).0;
      s.(db := t.db,
         past := if t.answer.Ok? then s.past.(credentials := s.past.credentials + {t.answer.value}) else s.past)
    case OpenSession(cred, id, token, now) =>
      if cred !in s.past.credentials then s
      else
        var t := Rules.OpenSession(s.db, s.cfg, cred, id, token, now);
        s.(db := t.db, past := if t.answer.Ok? then StartChain(s.past, id) else s.past)
    case Validate(signed, now) =>
      var r := Rules.ValidateAccess(s.db, signed, now);
      s.(past := if r.Ok? then s.past.(validated := s.past.validated + {(r.value.user, r.value.session)}) else s.past)
    case Refresh(token, id, newToken, now) =>
      var t := Rules.Refresh(s.db, s.cfg, token, id, newToken, now);
      s.(db := t.db, past := AfterRefresh(s, token, id, t.answer))
    case Logout(token, now) => s.(db := Rules.Logout(s.db, token, now).db)
    case LogoutAll(user, now) =>
      var t := Rules.RevokeAllAndBump(s.db, user, now);
      s.(db := t.db,
         past := if t.answer.Ok? then s.past.(logoutAlls := s.past.logoutAlls + multiset{user}) else s.past)
    case RequestReset(address, token, now, mailed) =>
      s.(db := Rules.RequestPasswordReset(s.db, address, token, now, mailed).db)
    case ResetPassword(token, password, now) =>
      var t := Rules.ResetPassword(s.db, token, password, now);
      s.(db := t.db, past := if t.answer.Ok? then UseToken(s.past, token, ForResetPassword) else s.past)
    case AuthorizeChange(user, session, current, password) =>
      var r := Rules.AuthorizeChange(s.db, user, current, password);
      if (user, session) in s.past.validated && r.Ok?
      then s.(past := s.past.(changes := s.past.changes + {(user, session, r.value)})) else s
    case CommitChange(user, session, digest, now) =>
      if (user, session, digest) !in s.past.changes then s
      else s.(db := Rules.CommitChange(s.db, user, session, digest, now).db)
    case Register(name, address, password, user, token, now, mailed) =>
      s.(db := Rules.Register(s.db, name, address, password, user, token, now, mailed).db)
    case VerifyEmail(token, now) =>
      var t := Rules.VerifyEmail(s.db, token, now);
      s.(db := t.db, past := if t.answer.Ok? then UseToken(s.past, token, ForVerifyEmail) else s.past)
    case CheckBind(user, address) =>
      var r := Rules.CheckBind(s.db, user, address);
      s.(past := if r.Ok? then s.past.(binds := s.past.binds + {(user, r.value)}) else s.past)
    case IssueBind(user, email, token, now, mailed) =>
      if (user, email) !in s.past.binds then s
      else s.(db := Rules.IssueBind(s.db, user, email, token, now, mailed).db)
    case SetStatus(user, status) =>
      if user !in s.db.users then s
      else s.(db := s.db.(users := s.db.users[user := s.db.users[user].(status := status)]))
  }

  function StartChain(past: History, id: SessionId): History
  {
    past.(chains := past.chains[id := [id]], root := past.root[id := id])
  }

  function UseToken(past: History, token: string, purpose: Purpose): History
  {
    past.(uses := past.uses + [(Digest(token), purpose)])
  }

  /** A rotation extends the chain of the session it replaces; a replay is a liquidation. */
  function AfterRefresh(s: Sys, token: string, id: SessionId, answer: Result<Grant, Error>): History
  {
    match Rules.SessionByRefresh(s.db, token)
    case None => s.past
    case Some(prev) =>
      if answer.Ok? && prev in s.past.root && s.past.root[prev] in s.past.chains then
        var r := s.past.root[prev];
        s.past.(chains := s.past.chains[r := s.past.chains[r] + [id]], root := s.past.root[id := r])
      else if token != "" && s.db.sessions[prev].revokedAt.Some? && s.db.sessions[prev].user in s.db.users then
        s.past.(liquidations := s.past.liquidations + multiset{s.db.sessions[prev].user})
      else s.past
  }

  /** The state after a sequence of actions. */
  function Run(s: Sys, actions: seq<Action>): Sys
    decreases |actions|
  {
    if actions == [] then s else Run(Step(s, actions[0]), actions[1..])
  }

  /** Some sequence of actions leads from one state to the other. */
  ghost predicate Reaches(s: Sys, t: Sys) { exists actions :: t == Run(s, actions) }
}
