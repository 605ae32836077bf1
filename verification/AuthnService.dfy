/** The authentication service: its use cases change the tables statement by statement. A method
    here is one transaction, or one read that the source makes outside any transaction. */
module AuthnService {
  import opened Prelude
  import opened AuthnStore
  import Rules = AuthnRules

  class Service {
    const cfg: Config
    var users: map<UserId, User>
    var usernames: map<string, UserId>
    var identities: map<(Provider, string), UserId>
    var sessions: map<SessionId, Session>
    var refreshIndex: map<Digest, SessionId>
    var tokens: map<Digest, AuthToken>
    var outbox: seq<Event>

    function Snapshot(): Db
      reads this
    {
      Db(users, usernames, identities, sessions, refreshIndex, tokens, outbox)
    }

    constructor (cfg: Config)
      ensures this.cfg == cfg && Snapshot() == EMPTY_DB
    {
      this.cfg := cfg;
      users, usernames, identities := map[], map[], map[];
      sessions, refreshIndex, tokens, outbox := map[], map[], map[], [];
    }

    /** Login up to and including the status check: no transaction, only a credential snapshot. */
    method CheckLogin(identifier: string, password: string, locked: bool)
      returns (answer: Result<Rules.Credential, Error>, limiter: Rules.LimiterCall)
      modifies this`outbox
      ensures (Rules.Tx(Snapshot(), answer), limiter) == old(Rules.CheckLogin(Snapshot(), identifier, password, locked))
    {
      limiter := Rules.NoCall;
      var name := Trim(identifier);
      if name == "" || password == "" {
        return Err(BadRequest), limiter;
      }
      var found := Rules.ResolveUser(Snapshot(), name);
      if found.None? || locked {
        return Err(InvalidCredentials), limiter;
      }
      var id := found.value;
      if id !in users {
        return Err(Internal), limiter;
      }
      var cred := users[id];
      if cred.password != Digest(password) {
        limiter := Rules.RecordFailures;
        outbox := outbox + [LoginFailed(id)];
        return Err(InvalidCredentials), limiter;
      }
      limiter := Rules.ClearFailures;
      match cred.status {
        case Active => answer := Ok(Rules.Credential(id, cred.tokenVersion));
        case Suspended => answer := Err(AccountSuspended);
        case _ => answer := Err(InvalidCredentials);
      }
    }

    method OpenSession(cred: Rules.Credential, id: SessionId, refresh: string, now: int)
      returns (answer: Result<Grant, Error>)
      modifies this
      ensures Rules.Tx(Snapshot(), answer) == old(Rules.OpenSession(Snapshot(), cfg, cred, id, refresh, now))
    {
      if id in sessions || Digest(refresh) in refreshIndex || cred.user !in users {
        return Err(Internal);
      }
      sessions := sessions[id := Session(cred.user, Digest(refresh), cred.version, now + RefreshTtl(cfg), None)];
      refreshIndex := refreshIndex[Digest(refresh) := id];
      outbox := outbox + [LoginSucceeded(cred.user, None)];
      var access := Claims(cred.user, id, cred.version, SignedExpiry(now + AccessTtl(cfg)));
      answer := Ok(Grant(access, refresh));
    }

    method RevokeAllAndBump(user: UserId, now: int) returns (answer: Result<(), Error>)
      modifies this
      ensures Rules.Tx(Snapshot(), answer) == old(Rules.RevokeAllAndBump(Snapshot(), user, now))
    {
      if user !in users {
        return Err(Internal);
      }
      sessions := Rules.RevokeSessions(sessions, user, None, now);
      users := users[user := users[user].(tokenVersion := users[user].tokenVersion + 1)];
      answer := Ok(());
    }

    method Refresh(token: string, newId: SessionId, newToken: string, now: int) returns (answer: Result<Grant, Error>)
      modifies this
      ensures Rules.Tx(Snapshot(), answer) == old(Rules.Refresh(Snapshot(), cfg, token, newId, newToken, now))
    {
      if token == "" {
        return Err(BadRequest);
      }
      var found := Rules.SessionByRefresh(Snapshot(), token);
      if found.None? {
        return Err(InvalidToken);
      }
      var id := found.value;
      var sess := sessions[id];
      if sess.revokedAt.Some? {
        // replay of a revoked token: liquidate, whatever that answers
        var _ := RevokeAllAndBump(sess.user, now);
        return Err(InvalidToken);
      }
      if sess.expiresAt < now {
        return Err(InvalidToken);
      }
      if sess.user !in users {
        return Err(Internal);
      }
      var u := users[sess.user];
      if u.status != Active {
        return if u.status == Suspended then Err(AccountSuspended) else Err(InvalidToken);
      }
      if sess.tokenVersion != u.tokenVersion {
        return Err(InvalidToken);
      }
      if newId in sessions || Digest(newToken) in refreshIndex {
        return Err(Internal);
      }
      sessions := sessions[id := sess.(revokedAt := Some(now))];
      sessions := sessions[newId := Session(sess.user, Digest(newToken), u.tokenVersion, now + RefreshTtl(cfg), None)];
      refreshIndex := refreshIndex[Digest(newToken) := newId];
      outbox := outbox + [LoginSucceeded(sess.user, Some(id))];
      var access := Claims(sess.user, newId, u.tokenVersion, SignedExpiry(now + AccessTtl(cfg)));
      answer := Ok(Grant(access, newToken));
    }

    method Logout(token: string, now: int) returns (answer: Result<(), Error>)
      modifies this
      ensures Rules.Tx(Snapshot(), answer) == old(Rules.Logout(Snapshot(), token, now))
    {
      if token == "" {
        return Err(BadRequest);
      }
      var found := Rules.SessionByRefresh(Snapshot(), token);
      if found.Some? && sessions[found.value].revokedAt.None? {
        sessions := sessions[found.value := sessions[found.value].(revokedAt := Some(now))];
      }
      answer := Ok(());
    }

    method ValidateAccess(signed: Option<Claims>, now: int) returns (answer: Result<Claims, Error>)
      ensures answer == Rules.ValidateAccess(Snapshot(), signed, now)
    {
      var parsed := Rules.ParseAccess(signed, now);
      if parsed.Err? {
        return parsed;
      }
      var claims := parsed.value;
      if claims.user == NIL || claims.session == NIL {
        return Err(AccessTokenInvalid);
      }
      if claims.session !in sessions || sessions[claims.session].user != claims.user {
        return Err(AccessTokenInvalid);
      }
      var sess := sessions[claims.session];
      if sess.revokedAt.Some? || sess.expiresAt < now || sess.tokenVersion != claims.version {
        return Err(AccessTokenInvalid);
      }
      if claims.user !in users {
        return Err(Internal);
      }
      var u := users[claims.user];
      match u.status {
        case Suspended => return Err(AccountSuspended);
        case Active =>
        case _ => return Err(AccessTokenInvalid);
      }
      answer := if u.tokenVersion != claims.version then Err(AccessTokenInvalid) else Ok(claims);
    }

    method RequestPasswordReset(address: string, token: string, now: int, mailed: bool)
      returns (answer: Result<(), Error>)
      modifies this`tokens
      ensures Rules.Tx(Snapshot(), answer) == old(Rules.RequestPasswordReset(Snapshot(), address, token, now, mailed))
    {
      var email := NormalizeEmail(address);
      if !ValidEmail(email) {
        return Err(BadRequest);
      }
      if (Email, email) !in identities {
        return Ok(());
      }
      if Digest(token) in tokens {
        return Err(Internal);
      }
      var owner := identities[(Email, email)];
      tokens := tokens[Digest(token) := AuthToken(owner, ForResetPassword, email, now + TOKEN_TTL, None)];
      if !mailed {
        return Err(Internal);
      }
      answer := Ok(());
    }

    method ResetPassword(token: string, newPassword: string, now: int) returns (answer: Result<(), Error>)
      modifies this
      ensures Rules.Tx(Snapshot(), answer) == old(Rules.ResetPassword(Snapshot(), token, newPassword, now))
    {
      if token == "" {
        return Err(InvalidToken);
      }
      var found := Rules.UsableToken(Snapshot(), token, ForResetPassword);
      if found.None? || found.value.expiresAt < now {
        return Err(InvalidToken);
      }
      var tok := found.value;
      if tok.user !in users {
        return Err(Internal);
      }
      tokens := tokens[Digest(token) := tok.(consumedAt := Some(now))];
      var u := users[tok.user];
      users := users[tok.user := u.(password := Digest(newPassword), tokenVersion := u.tokenVersion + 1)];
      sessions := Rules.RevokeSessions(sessions, tok.user, None, now);
      outbox := outbox + [PasswordChanged(tok.user, ByReset)];
      answer := Ok(());
    }

    method AuthorizeChange(user: UserId, current: string, newPassword: string) returns (answer: Result<Digest, Error>)
      ensures answer == Rules.AuthorizeChange(Snapshot(), user, current, newPassword)
    {
      if newPassword == "" {
        return Err(BadRequest);
      }
      if user !in users {
        return Err(Internal);
      }
      answer := if users[user].password == Digest(current) then Ok(Digest(newPassword)) else Err(InvalidCredentials);
    }

    method CommitChange(user: UserId, keep: SessionId, password: Digest, now: int) returns (answer: Result<(), Error>)
      modifies this
      ensures Rules.Tx(Snapshot(), answer) == old(Rules.CommitChange(Snapshot(), user, keep, password, now))
    {
      if user !in users {
        return Err(Internal);
      }
      var version := users[user].tokenVersion + 1;
      users := users[user := users[user].(password := password, tokenVersion := version)];
      sessions := Rules.RevokeSessions(sessions, user, Some(keep), now);
      if keep in sessions && sessions[keep].user == user {
        sessions := sessions[keep := sessions[keep].(tokenVersion := version)];
      }
      outbox := outbox + [PasswordChanged(user, ByOwner)];
      answer := Ok(());
    }

    method Register(name: string, address: string, password: string, id: UserId, token: string, now: int, mailed: bool)
      returns (answer: Result<UserId, Error>)
      modifies this
      ensures Rules.Tx(Snapshot(), answer)
           == old(Rules.Register(Snapshot(), name, address, password, id, token, now, mailed))
    {
      var username := Trim(name);
      if !ValidUsername(username) {
        return Err(BadRequest);
      }
      var email := NormalizeEmail(address);
      var byEmail := email != "";
      if byEmail && !ValidEmail(email) {
        return Err(BadRequest);
      }
      if username in usernames || (byEmail && (Email, email) in identities) {
        return Err(Conflict);
      }
      var provider, uid, status, contact := Local, username, Active, None;
      if byEmail {
        provider, uid, status, contact := Email, email, Pending, Some(email);
      }
      if id in users {
        return Err(Conflict);
      }
      if (byEmail && Rules.EmailTaken(Snapshot(), email)) || (provider, uid) in identities {
        return Err(Conflict);
      }
      if byEmail && Digest(token) in tokens {
        return Err(Internal);
      }
      users := users[id := User(username, contact, status, 0, Digest(password))];
      usernames := usernames[username := id];
      identities := identities[(provider, uid) := id];
      if byEmail {
        tokens := tokens[Digest(token) := AuthToken(id, ForVerifyEmail, email, now + TOKEN_TTL, None)];
      }
      outbox := outbox + [UserRegistered(id, provider)];
      // committed; the mail comes after
      if byEmail && !mailed {
        return Err(Internal);
      }
      answer := Ok(id);
    }

    method VerifyEmail(token: string, now: int) returns (answer: Result<(), Error>)
      modifies this
      ensures Rules.Tx(Snapshot(), answer) == old(Rules.VerifyEmail(Snapshot(), token, now))
    {
      if token == "" {
        return Err(InvalidToken);
      }
      var found := Rules.UsableToken(Snapshot(), token, ForVerifyEmail);
      if found.None? || found.value.expiresAt < now {
        return Err(InvalidToken);
      }
      var tok := found.value;
      if tok.user !in users {
        return Err(Internal);
      }
      var u := users[tok.user];
      if u.status != Active {
        users := users[tok.user := u.(status := Active)];
        outbox := outbox + [UserVerified(tok.user, tok.target)];
      } else if tok.target != "" {
        var email := NormalizeEmail(tok.target);
        if (Email, email) in identities || Rules.HasProvider(Snapshot(), tok.user, Email) {
          return Err(Conflict);
        }
        if Rules.EmailTaken(Snapshot(), email) {
          return Err(Internal);
        }
        identities := identities[(Email, email) := tok.user];
        users := users[tok.user := u.(email := Some(email))];
        outbox := outbox + [UserEmailBound(tok.user, email)];
      }
      tokens := tokens[Digest(token) := tok.(consumedAt := Some(now))];
      answer := Ok(());
    }

    /** The part of a bind request outside its transaction. */
    method CheckBind(user: UserId, address: string) returns (answer: Result<string, Error>)
      ensures answer == Rules.CheckBind(Snapshot(), user, address)
    {
      var email := NormalizeEmail(address);
      if !ValidEmail(email) {
        return Err(BadRequest);
      }
      if (Email, email) in identities {
        return Err(Conflict);
      }
      if user !in users {
        return Err(Internal);
      }
      answer := Ok(email);
    }

    /** Its transaction, and the mail. */
    method IssueBind(user: UserId, email: string, token: string, now: int, mailed: bool)
      returns (answer: Result<(), Error>)
      modifies this`tokens
      ensures Rules.Tx(Snapshot(), answer) == old(Rules.IssueBind(Snapshot(), user, email, token, now, mailed))
    {
      if user !in users || Digest(token) in tokens {
        return Err(Conflict);
      }
      tokens := tokens[Digest(token) := AuthToken(user, ForVerifyEmail, email, now + TOKEN_TTL, None)];
      answer := if mailed then Ok(()) else Err(Internal);
    }
  }
}
