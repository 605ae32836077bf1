/** Each use case of the authentication service as a function on the tables. A transaction that
    rolls back leaves the tables as they were; one that commits is a single step. */
module AuthnRules {
  import opened Prelude
  import opened AuthnStore

  /** The tables after a use case, and what it answered. */
  datatype Tx<+T> = Tx(db: Db, answer: Result<T, Error>)

  function Refuse<T>(db: Db, e: Error): Tx<T> { Tx(db, Err(e)) }

  // ---------- lookups ----------

  function SessionByRefresh(db: Db, token: string): (r: Option<SessionId>)
    ensures r.Some? ==> r.value in db.sessions
  {
    var h := Digest(token);
    if h in db.refreshIndex && db.refreshIndex[h] in db.sessions then Some(db.refreshIndex[h]) else None
  }

  /** An unconsumed one-time token with the wanted purpose. */
  function UsableToken(db: Db, token: string, purpose: Purpose): (r: Option<AuthToken>)
    ensures r.Some? ==> Digest(token) in db.tokens && db.tokens[Digest(token)] == r.value
  {
    var h := Digest(token);
    if h in db.tokens && db.tokens[h].purpose == purpose && db.tokens[h].consumedAt.None?
    then Some(db.tokens[h]) else None
  }

  function ResolveUser(db: Db, identifier: string): Option<UserId>
  {
    if '@' in identifier then
      var key := (Email, NormalizeEmail(identifier));
      if key in db.identities then Some(db.identities[key]) else None
    else
      if identifier in db.usernames then Some(db.usernames[identifier]) else None
  }

  predicate EmailTaken(db: Db, email: string)
  {
    exists u | u in db.users :: db.users[u].email == Some(email)
  }

  predicate HasProvider(db: Db, user: UserId, provider: Provider)
  {
    exists k | k in db.identities :: k.0 == provider && db.identities[k] == user
  }

  // ---------- sessions ----------

  /** Revokes the user's unrevoked sessions, all but the one to keep. */
  function RevokeSessions(sessions: map<SessionId, Session>, user: UserId, keep: Option<SessionId>, now: int)
    : map<SessionId, Session>
  {
    map id | id in sessions ::
      if sessions[id].user == user && sessions[id].revokedAt.None? && Some(id) != keep
      then sessions[id].(revokedAt := Some(now))
      else sessions[id]
  }

  function BumpVersion(users: map<UserId, User>, user: UserId): map<UserId, User>
    requires user in users
  {
    users[user := users[user].(tokenVersion := users[user].tokenVersion + 1)]
  }

  datatype Credential = Credential(user: UserId, version: int)

  /** What a login attempt asks of the failure limiter, for the account key and the address key. */
  datatype LimiterCall = NoCall | RecordFailures | ClearFailures

  /** The part of a login outside any transaction: it ends with a snapshot of the user's version. */
  function CheckLogin(db: Db, identifier: string, password: string, locked: bool)
    : (Tx<Credential>, LimiterCall)
  {
    var name := Trim(identifier);
    if name == "" || password == "" then (Refuse(db, BadRequest), NoCall)
    else match ResolveUser(db, name)
      case None => (Refuse(db, InvalidCredentials), NoCall)
      case Some(u) =>
        if locked then (Refuse(db, InvalidCredentials), NoCall)
        else if u !in db.users then (Refuse(db, Internal), NoCall)
        else if db.users[u].password != Digest(password) then
          (Tx(db.(outbox := db.outbox + [LoginFailed(u)]), Err(InvalidCredentials)), RecordFailures)
        else match db.users[u].status
          case Active => (Tx(db, Ok(Credential(u, db.users[u].tokenVersion))), ClearFailures)
          case Suspended => (Refuse(db, AccountSuspended), ClearFailures)
          case _ => (Refuse(db, InvalidCredentials), ClearFailures)
  }

  /** The transaction that opens a session from a snapshot taken earlier. */
  function OpenSession(db: Db, cfg: Config, cred: Credential, id: SessionId, refresh: string, now: int): Tx<Grant>
  {
    if id in db.sessions || Digest(refresh) in db.refreshIndex || cred.user !in db.users then
      Refuse(db, Internal)
    else
      var row := Session(cred.user, Digest(refresh), cred.version, now + RefreshTtl(cfg), None);
      Tx(db.(sessions := db.sessions[id := row],
             refreshIndex := db.refreshIndex[Digest(refresh) := id],
             outbox := db.outbox + [LoginSucceeded(cred.user, None)]),
         Ok(Grant(Claims(cred.user, id, cred.version, SignedExpiry(now + AccessTtl(cfg))), refresh)))
  }

  function RevokeAllAndBump(db: Db, user: UserId, now: int): Tx<()>
  {
    if user !in db.users then Refuse(db, Internal)
    else Tx(db.(sessions := RevokeSessions(db.sessions, user, None, now), users := BumpVersion(db.users, user)),
            Ok(()))
  }

  /** A rotation: the session is revoked, its row kept so that a replay is recognised, and a new
      session of the same user takes over. */
  function Rotate(db: Db, cfg: Config, id: SessionId, newId: SessionId, newToken: string, now: int): Db
    requires id in db.sessions && db.sessions[id].user in db.users
  {
    var sess := db.sessions[id];
    var row := Session(sess.user, Digest(newToken), db.users[sess.user].tokenVersion, now + RefreshTtl(cfg), None);
    db.(sessions := db.sessions[id := sess.(revokedAt := Some(now))][newId := row],
        refreshIndex := db.refreshIndex[Digest(newToken) := newId],
        outbox := db.outbox + [LoginSucceeded(sess.user, Some(id))])
  }

  /** Rotation, or liquidation of all the user's sessions when the token was revoked before. */
  function Refresh(db: Db, cfg: Config, token: string, newId: SessionId, newToken: string, now: int): Tx<Grant>
  {
    if token == "" then Refuse(db, BadRequest)
    else match SessionByRefresh(db, token)
      case None => Refuse(db, InvalidToken)
      case Some(id) =>
        var sess := db.sessions[id];
        if sess.revokedAt.Some? then Tx(RevokeAllAndBump(db, sess.user, now).db, Err(InvalidToken))
        else if sess.expiresAt < now then Refuse(db, InvalidToken)
        else if sess.user !in db.users then Refuse(db, Internal)
        else
          var u := db.users[sess.user];
          if u.status == Suspended then Refuse(db, AccountSuspended)
          else if u.status != Active then Refuse(db, InvalidToken)
          else if sess.tokenVersion != u.tokenVersion then Refuse(db, InvalidToken)
          else if newId in db.sessions || Digest(newToken) in db.refreshIndex then Refuse(db, Internal)
          else
            Tx(Rotate(db, cfg, id, newId, newToken, now),
               Ok(Grant(Claims(sess.user, newId, u.tokenVersion, SignedExpiry(now + AccessTtl(cfg))), newToken)))
  }

  function Logout(db: Db, token: string, now: int): Tx<()>
  {
    if token == "" then Refuse(db, BadRequest)
    else match SessionByRefresh(db, token)
      case None => Tx(db, Ok(()))
      case Some(id) =>
        if db.sessions[id].revokedAt.Some? then Tx(db, Ok(()))
        else Tx(db.(sessions := db.sessions[id := db.sessions[id].(revokedAt := Some(now))]), Ok(()))
  }

  /** The signature check of an access token yields its claims or nothing; expiry is checked here. */
  function ParseAccess(signed: Option<Claims>, now: int): Result<Claims, Error>
  {
    if signed.Some? && now < signed.value.expiresAt then Ok(signed.value) else Err(AccessTokenInvalid)
  }

  function ValidateAccess(db: Db, signed: Option<Claims>, now: int): Result<Claims, Error>
  {
    match ParseAccess(signed, now)
    case Err(e) => Err(e)
    case Ok(c) =>
      if c.user == NIL || c.session == NIL then Err(AccessTokenInvalid)
      else if c.session !in db.sessions || db.sessions[c.session].user != c.user then Err(AccessTokenInvalid)
      else
        var sess := db.sessions[c.session];
        if sess.revokedAt.Some? || sess.expiresAt < now || sess.tokenVersion != c.version then Err(AccessTokenInvalid)
        else if c.user !in db.users then Err(Internal)
        else match db.users[c.user].status
          case Suspended => Err(AccountSuspended)
          case Active => if db.users[c.user].tokenVersion != c.version then Err(AccessTokenInvalid) else Ok(c)
          case _ => Err(AccessTokenInvalid)
  }

  // ---------- passwords ----------

  /** Mail goes out after the commit, and only to a known address; `mailed` says whether that succeeds. */
  function RequestPasswordReset(db: Db, address: string, token: string, now: int, mailed: bool): Tx<()>
  {
    var email := NormalizeEmail(address);
    if !ValidEmail(email) then Refuse(db, BadRequest)
    else if (Email, email) !in db.identities then Tx(db, Ok(()))
    else if Digest(token) in db.tokens then Refuse(db, Internal)
    else
      var row := AuthToken(db.identities[(Email, email)], ForResetPassword, email, now + TOKEN_TTL, None);
      Tx(db.(tokens := db.tokens[Digest(token) := row]), if mailed then Ok(()) else Err(Internal))
  }

  function ResetPassword(db: Db, token: string, newPassword: string, now: int): Tx<()>
  {
    if token == "" then Refuse(db, InvalidToken)
    else match UsableToken(db, token, ForResetPassword)
      case None => Refuse(db, InvalidToken)
      case Some(tok) =>
        if tok.expiresAt < now then Refuse(db, InvalidToken)
        else if tok.user !in db.users then Refuse(db, Internal)
        else
          var users := BumpVersion(db.users, tok.user);
          Tx(db.(tokens := db.tokens[Digest(token) := tok.(consumedAt := Some(now))],
                 users := users[tok.user := users[tok.user].(password := Digest(newPassword))],
                 sessions := RevokeSessions(db.sessions, tok.user, None, now),
                 outbox := db.outbox + [PasswordChanged(tok.user, ByReset)]),
             Ok(()))
  }

  /** The checks of a password change that come before its transaction. */
  function AuthorizeChange(db: Db, user: UserId, current: string, newPassword: string): Result<Digest, Error>
  {
    if newPassword == "" then Err(BadRequest)
    else if user !in db.users then Err(Internal)
    else if db.users[user].password != Digest(current) then Err(InvalidCredentials)
    else Ok(Digest(newPassword))
  }

  /** The transaction of a password change made from session `keep`, which is realigned. */
  function CommitChange(db: Db, user: UserId, keep: SessionId, password: Digest, now: int): Tx<()>
  {
    if user !in db.users then Refuse(db, Internal)
    else
      var users := BumpVersion(db.users, user);
      var version := users[user].tokenVersion;
      var sessions := RevokeSessions(db.sessions, user, Some(keep), now);
      Tx(db.(users := users[user := users[user].(password := password)],
             sessions := if keep in sessions && sessions[keep].user == user
                         then sessions[keep := sessions[keep].(tokenVersion := version)] else sessions,
             outbox := db.outbox + [PasswordChanged(user, ByOwner)]),
         Ok(()))
  }

  // ---------- accounts ----------

  /** A registration; the fresh identifier and verification token are inputs. The account stays even if
      the mail to its address fails. */
  function Register(db: Db, name: string, address: string, password: string, id: UserId, token: string, now: int,
                    mailed: bool)
    : Tx<UserId>
  {
    var username := Trim(name);
    var email := NormalizeEmail(address);
    if !ValidUsername(username) || (email != "" && !ValidEmail(email)) then Refuse(db, BadRequest)
    else
      var t := CreateAccount(db, username, email, Digest(password), id, Digest(token), now);
      if t.answer.Ok? && email != "" && !mailed then Refuse(t.db, Internal) else t
  }

  /** The transaction of a registration, from well-formed names; no address means "". */
  function CreateAccount(db: Db, username: string, email: string, password: Digest, id: UserId, token: Digest, now: int)
    : Tx<UserId>
  {
    var identity := if email != "" then (Email, email) else (Local, username);
    if username in db.usernames || (email != "" && identity in db.identities) then Refuse(db, Conflict)
    else if id in db.users then Refuse(db, Conflict)
    else if (email != "" && EmailTaken(db, email)) || identity in db.identities then Refuse(db, Conflict)
    else if email != "" && token in db.tokens then Refuse(db, Internal)
    else
      var contact := if email != "" then Some(email) else None;
      var user := User(username, contact, if email != "" then Pending else Active, 0, password);
      Tx(db.(users := db.users[id := user],
             usernames := db.usernames[username := id],
             identities := db.identities[identity := id],
             tokens := if email != ""
                       then db.tokens[token := AuthToken(id, ForVerifyEmail, email, now + TOKEN_TTL, None)]
                       else db.tokens,
             outbox := db.outbox + [UserRegistered(id, identity.0)]),
         Ok(id))
  }

  /** Activates an account that is not active, binds an address to one that is. */
  function VerifyEmail(db: Db, token: string, now: int): Tx<()>
  {
    if token == "" then Refuse(db, InvalidToken)
    else match UsableToken(db, token, ForVerifyEmail)
      case None => Refuse(db, InvalidToken)
      case Some(tok) =>
        if tok.expiresAt < now then Refuse(db, InvalidToken)
        else if tok.user !in db.users then Refuse(db, Internal)
        else
          var consumed := db.(tokens := db.tokens[Digest(token) := tok.(consumedAt := Some(now))]);
          if db.users[tok.user].status != Active then
            Tx(consumed.(users := db.users[tok.user := db.users[tok.user].(status := Active)],
                         outbox := db.outbox + [UserVerified(tok.user, tok.target)]),
               Ok(()))
          else if tok.target == "" then Tx(consumed, Ok(()))
          else
            match BindRefusal(db, tok.user, NormalizeEmail(tok.target))
            case Some(e) => Refuse(db, e)
            case None => Tx(BindEmail(consumed, tok.user, NormalizeEmail(tok.target)), Ok(()))
  }

  /** The unique indexes an email binding can run into: one user per address, one address per
      user, and the address column itself. */
  function BindRefusal(db: Db, user: UserId, email: string): Option<Error>
  {
    if (Email, email) in db.identities || HasProvider(db, user, Email) then Some(Conflict)
    else if EmailTaken(db, email) then Some(Internal)
    else None
  }

  function BindEmail(db: Db, user: UserId, email: string): Db
    requires user in db.users
  {
    db.(identities := db.identities[(Email, email) := user],
        users := db.users[user := db.users[user].(email := Some(email))],
        outbox := db.outbox + [UserEmailBound(user, email)])
  }

  /** The checks of a bind request that come before its transaction, and the address that passed them. */
  function CheckBind(db: Db, user: UserId, address: string): Result<string, Error>
  {
    var email := NormalizeEmail(address);
    if !ValidEmail(email) then Err(BadRequest)
    else if (Email, email) in db.identities then Err(Conflict)
    else if user !in db.users then Err(Internal)
    else Ok(email)
  }

  /** The transaction of a bind request; who owns the address by now is not asked again. */
  function IssueBind(db: Db, user: UserId, email: string, token: string, now: int, mailed: bool): Tx<()>
  {
    if user !in db.users || Digest(token) in db.tokens then Refuse(db, Conflict)
    else
      var row := AuthToken(user, ForVerifyEmail, email, now + TOKEN_TTL, None);
      Tx(db.(tokens := db.tokens[Digest(token) := row]), if mailed then Ok(()) else Err(Internal))
  }
}
