/** One-time tokens and the ownership of login names and addresses, over whole runs. */
module AuthnAccounts {
  import opened Prelude
  import opened AuthnStore
  import opened AuthnRuns
  import Rules = AuthnRules

  /** A user's address and the email identity of that address are two views of one fact. */
  ghost predicate EmailsOk(db: Db)
  {
    && (forall u | u in db.users && db.users[u].email.Some? ::
          var key := (Email, db.users[u].email.value); key in db.identities && db.identities[key] == u)
    && (forall k | k in db.identities && k.0 == Email ::
          db.identities[k] in db.users && db.users[db.identities[k]].email == Some(k.1))
  }

  /** The unique index on usernames. */
  ghost predicate UsernamesOk(db: Db)
  {
    && (forall u | u in db.users ::
          db.users[u].username in db.usernames && db.usernames[db.users[u].username] == u)
    && (forall n | n in db.usernames :: db.usernames[n] in db.users && db.users[db.usernames[n]].username == n)
  }

  ghost predicate TokenOk(db: Db, t: AuthToken)
  {
    && t.user in db.users
    && (t.purpose == ForVerifyEmail ==> NormalizeEmail(t.target) == t.target)
    && (t.purpose == ForResetPassword ==>
          (Email, t.target) in db.identities && db.identities[(Email, t.target)] == t.user)
  }

  /** The uses on record are exactly the consumed tokens, each once, each for its own purpose. */
  ghost predicate UsesOk(db: Db, uses: seq<(Digest, Purpose)>)
  {
    && (forall i | 0 <= i < |uses| ::
          && uses[i].0 in db.tokens
          && db.tokens[uses[i].0].purpose == uses[i].1
          && db.tokens[uses[i].0].consumedAt.Some?)
    && (forall i, j | 0 <= i < j < |uses| :: uses[i].0 != uses[j].0)
    && (forall t | t in db.tokens && db.tokens[t].consumedAt.Some? :: (t, db.tokens[t].purpose) in uses)
  }

  ghost predicate NamesOk(db: Db)
  {
    EmailsOk(db) && UsernamesOk(db) && forall t | t in db.tokens :: TokenOk(db, db.tokens[t])
  }

  ghost predicate AccountsInv(s: Sys)
  {
    NamesOk(s.db) && UsesOk(s.db, s.past.uses) && BindsOk(s.past.binds)
  }

  /** A bind request past its checks carries an address in normal form. */
  ghost predicate BindsOk(binds: set<(UserId, string)>) { forall b | b in binds :: NormalizeEmail(b.1) == b.1 }

  /** Accounts, names and tokens are never taken away, and a consumed token stays consumed. */
  ghost predicate Keeps(a: Db, b: Db)
  {
    && (forall u | u in a.users ::
          && u in b.users && b.users[u].username == a.users[u].username
          && (a.users[u].email.Some? ==> b.users[u].email == a.users[u].email))
    && (forall k | k in a.identities :: k in b.identities && b.identities[k] == a.identities[k])
    && (forall t | t in a.tokens ::
          && t in b.tokens
          && b.tokens[t].user == a.tokens[t].user && b.tokens[t].purpose == a.tokens[t].purpose
          && b.tokens[t].target == a.tokens[t].target
          && (a.tokens[t].consumedAt.Some? ==> b.tokens[t] == a.tokens[t]))
  }

  /** Steps that touch neither names nor tokens. */
  ghost predicate SameNames(a: Db, b: Db)
  {
    && b.identities == a.identities && b.usernames == a.usernames && b.tokens == a.tokens
    && b.users.Keys == a.users.Keys
    && forall u | u in a.users :: b.users[u].email == a.users[u].email && b.users[u].username == a.users[u].username
  }

  lemma SameNamesKeep(a: Db, b: Db, uses: seq<(Digest, Purpose)>)
    requires SameNames(a, b) && NamesOk(a) && UsesOk(a, uses)
    ensures NamesOk(b) && UsesOk(b, uses) && Keeps(a, b)
  {
    forall t | t in b.tokens
      ensures TokenOk(b, b.tokens[t])
    {
      assert TokenOk(a, a.tokens[t]);
    }
  }

  lemma OpenSameNames(db: Db, cfg: Config, cred: Rules.Credential, id: SessionId, token: string, now: int)
    ensures SameNames(db, Rules.OpenSession(db, cfg, cred, id, token, now).db)
  {
  }

  lemma RefreshSameNames(db: Db, cfg: Config, token: string, id: SessionId, newToken: string, now: int)
    ensures SameNames(db, Rules.Refresh(db, cfg, token, id, newToken, now).db)
  {
  }

  lemma LogoutSameNames(db: Db, token: string, now: int)
    ensures SameNames(db, Rules.Logout(db, token, now).db)
  {
  }

  lemma RevokeAllSameNames(db: Db, user: UserId, now: int)
    ensures SameNames(db, Rules.RevokeAllAndBump(db, user, now).db)
  {
  }

  lemma ChangeSameNames(db: Db, user: UserId, keep: SessionId, password: Digest, now: int)
    ensures SameNames(db, Rules.CommitChange(db, user, keep, password, now).db)
  {
  }

  lemma CheckLoginSameNames(db: Db, identifier: string, password: string, locked: bool)
    ensures SameNames(db, Rules.CheckLogin(db, identifier, password, locked).0.db)
  {
  }

  // ---------- steps that issue tokens ----------

  lemma IssueKeeps(db: Db, h: Digest, t: AuthToken, uses: seq<(Digest, Purpose)>)
    requires NamesOk(db) && UsesOk(db, uses)
    requires h !in db.tokens && t.consumedAt.None? && TokenOk(db, t)
    ensures var b := db.(tokens := db.tokens[h := t]); NamesOk(b) && UsesOk(b, uses) && Keeps(db, b)
  {
    var b := db.(tokens := db.tokens[h := t]);
    forall x | x in b.tokens
      ensures TokenOk(b, b.tokens[x])
    {
      if x in db.tokens { assert TokenOk(db, db.tokens[x]); }
    }
  }

  lemma RequestResetKeeps(db: Db, address: string, token: string, now: int, mailed: bool, uses: seq<(Digest, Purpose)>)
    requires NamesOk(db) && UsesOk(db, uses)
    ensures var b := Rules.RequestPasswordReset(db, address, token, now, mailed).db;
            NamesOk(b) && UsesOk(b, uses) && Keeps(db, b)
  {
    var email := NormalizeEmail(address);
    if Rules.RequestPasswordReset(db, address, token, now, mailed).db != db {
      IssueKeeps(db, Digest(token),
                 AuthToken(db.identities[(Email, email)], ForResetPassword, email, now + TOKEN_TTL, None), uses);
    }
  }

  lemma IssueBindKeeps(db: Db, user: UserId, email: string, token: string, now: int, mailed: bool,
                       uses: seq<(Digest, Purpose)>)
    requires NamesOk(db) && UsesOk(db, uses) && NormalizeEmail(email) == email
    ensures var b := Rules.IssueBind(db, user, email, token, now, mailed).db;
            NamesOk(b) && UsesOk(b, uses) && Keeps(db, b)
  {
    SameNamesKeep(db, db, uses);
    if Rules.IssueBind(db, user, email, token, now, mailed).db != db {
      IssueKeeps(db, Digest(token), AuthToken(user, ForVerifyEmail, email, now + TOKEN_TTL, None), uses);
    }
  }

  /** The checks are not repeated: a token goes out for whatever address passed them, even if somebody has
      come to own it since. Such a token is worth nothing once redeemed by an active user: the owner keeps it. */
  lemma StaleBindIsHarmless(db: Db, user: UserId, email: string, token: string, now: int, later: int, mailed: bool)
    requires token != "" && NormalizeEmail(email) == email && email != "" && (Email, email) in db.identities
    requires user in db.users && db.users[user].status == Active && Digest(token) !in db.tokens
    ensures var issued := Rules.IssueBind(db, user, email, token, now, mailed).db;
      && Digest(token) in issued.tokens && issued.tokens[Digest(token)].target == email
      && Rules.VerifyEmail(issued, token, later).db == issued && Rules.VerifyEmail(issued, token, later).answer.Err?
  {
    var issued := Rules.IssueBind(db, user, email, token, now, mailed).db;
    assert Rules.UsableToken(issued, token, ForVerifyEmail).value.target == email;
    assert Rules.BindRefusal(issued, user, email) == Some(Conflict);
  }

  // ---------- steps that consume tokens ----------

  /** The tables once a token has been marked as used. */
  function Consumed(db: Db, h: Digest, now: int): Db
    requires h in db.tokens
  {
    db.(tokens := db.tokens[h := db.tokens[h].(consumedAt := Some(now))])
  }

  lemma ConsumeKeepsNames(db: Db, h: Digest, now: int)
    requires NamesOk(db) && h in db.tokens && db.tokens[h].consumedAt.None?
    ensures NamesOk(Consumed(db, h, now)) && Keeps(db, Consumed(db, h, now))
  {
    var b := Consumed(db, h, now);
    forall x | x in b.tokens
      ensures TokenOk(b, b.tokens[x])
    {
      assert TokenOk(db, db.tokens[x]);
    }
  }

  lemma ConsumeKeepsUses(db: Db, h: Digest, now: int, uses: seq<(Digest, Purpose)>)
    requires UsesOk(db, uses) && h in db.tokens && db.tokens[h].consumedAt.None?
    ensures UsesOk(Consumed(db, h, now), uses + [(h, db.tokens[h].purpose)])
  {
    var b := Consumed(db, h, now);
    var uses' := uses + [(h, db.tokens[h].purpose)];
    forall t | t in b.tokens && b.tokens[t].consumedAt.Some?
      ensures (t, b.tokens[t].purpose) in uses'
    {
      if t == h { assert uses'[|uses|] == (h, b.tokens[h].purpose); } else { assert (t, b.tokens[t].purpose) in uses; }
    }
  }

  lemma ResetSameNames(db: Db, token: string, password: string, now: int)
    requires Rules.ResetPassword(db, token, password, now).answer.Ok?
    ensures Digest(token) in db.tokens && db.tokens[Digest(token)].consumedAt.None?
    ensures db.tokens[Digest(token)].purpose == ForResetPassword
    ensures SameNames(Consumed(db, Digest(token), now), Rules.ResetPassword(db, token, password, now).db)
  {
  }

  lemma ResetKeeps(db: Db, token: string, password: string, now: int, uses: seq<(Digest, Purpose)>)
    requires NamesOk(db) && UsesOk(db, uses)
    ensures var t := Rules.ResetPassword(db, token, password, now);
            NamesOk(t.db) && Keeps(db, t.db)
            && UsesOk(t.db, if t.answer.Ok? then uses + [(Digest(token), ForResetPassword)] else uses)
  {
    var t := Rules.ResetPassword(db, token, password, now);
    if t.answer.Ok? {
      var h := Digest(token);
      ResetSameNames(db, token, password, now);
      ConsumeKeepsNames(db, h, now);
      ConsumeKeepsUses(db, h, now, uses);
      SameNamesKeep(Consumed(db, h, now), t.db, uses + [(h, ForResetPassword)]);
      KeepsTransitive(db, Consumed(db, h, now), t.db);
    }
  }

  lemma BindKeeps(db: Db, user: UserId, email: string, uses: seq<(Digest, Purpose)>)
    requires NamesOk(db) && UsesOk(db, uses) && user in db.users
    requires Rules.BindRefusal(db, user, email).None?
    ensures var b := Rules.BindEmail(db, user, email); NamesOk(b) && UsesOk(b, uses) && Keeps(db, b)
  {
    var b := Rules.BindEmail(db, user, email);
    assert db.users[user].email.None? by {
      if db.users[user].email.Some? { assert Rules.HasProvider(db, user, Email); }
    }
    forall x | x in b.tokens
      ensures TokenOk(b, b.tokens[x])
    {
      assert TokenOk(db, db.tokens[x]);
    }
  }

  /** What a successful verification does: the token is consumed, and then an account that was not
      active is activated, an active one gets the token's address, or (no address) nothing more. */
  lemma VerifyEmailEffect(db: Db, token: string, now: int)
    requires Rules.VerifyEmail(db, token, now).answer.Ok?
    ensures Digest(token) in db.tokens
    ensures var tok := db.tokens[Digest(token)];
            var consumed := Consumed(db, Digest(token), now);
            var b := Rules.VerifyEmail(db, token, now).db;
      && tok.purpose == ForVerifyEmail && tok.consumedAt.None? && now <= tok.expiresAt && tok.user in db.users
      && (if db.users[tok.user].status != Active then SameNames(consumed, b) && b.users[tok.user].status == Active
          else if tok.target == "" then b == consumed
          else Rules.BindRefusal(db, tok.user, NormalizeEmail(tok.target)).None?
               && b == Rules.BindEmail(consumed, tok.user, NormalizeEmail(tok.target)))
  {
  }

  lemma VerifiedKeeps(db: Db, token: string, now: int, uses: seq<(Digest, Purpose)>)
    requires NamesOk(db) && UsesOk(db, uses) && Rules.VerifyEmail(db, token, now).answer.Ok?
    ensures var b := Rules.VerifyEmail(db, token, now).db;
            NamesOk(b) && Keeps(db, b) && UsesOk(b, uses + [(Digest(token), ForVerifyEmail)])
  {
    var h := Digest(token);
    var b := Rules.VerifyEmail(db, token, now).db;
    VerifyEmailEffect(db, token, now);
    var tok := db.tokens[h];
    var consumed := Consumed(db, h, now);
    var uses' := uses + [(h, ForVerifyEmail)];
    ConsumeKeepsNames(db, h, now);
    ConsumeKeepsUses(db, h, now, uses);
    if db.users[tok.user].status != Active {
      SameNamesKeep(consumed, b, uses');
    } else if tok.target != "" {
      SameNamesRefusal(db, consumed, tok.user, NormalizeEmail(tok.target));
      BindKeeps(consumed, tok.user, NormalizeEmail(tok.target), uses');
    }
    KeepsTransitive(db, consumed, b);
  }

  lemma SameNamesRefusal(a: Db, b: Db, user: UserId, email: string)
    requires a.identities == b.identities && a.users == b.users
    ensures Rules.BindRefusal(a, user, email) == Rules.BindRefusal(b, user, email)
  {
  }

  lemma VerifyEmailKeeps(db: Db, token: string, now: int, uses: seq<(Digest, Purpose)>)
    requires NamesOk(db) && UsesOk(db, uses)
    ensures var t := Rules.VerifyEmail(db, token, now);
            NamesOk(t.db) && Keeps(db, t.db)
            && UsesOk(t.db, if t.answer.Ok? then uses + [(Digest(token), ForVerifyEmail)] else uses)
  {
    if Rules.VerifyEmail(db, token, now).answer.Ok? {
      VerifiedKeeps(db, token, now, uses);
    } else {
      assert Rules.VerifyEmail(db, token, now).db == db;
    }
  }

  lemma KeepsTransitive(a: Db, b: Db, c: Db)
    requires Keeps(a, b) && Keeps(b, c)
    ensures Keeps(a, c)
  {
  }

  // ---------- registration ----------

  lemma CreateAccountKeepsEmails(db: Db, username: string, email: string, password: Digest, id: UserId, token: Digest,
                                 now: int)
    requires EmailsOk(db)
    ensures EmailsOk(Rules.CreateAccount(db, username, email, password, id, token, now).db)
  {
  }

  lemma CreateAccountKeepsUsernames(db: Db, username: string, email: string, password: Digest, id: UserId,
                                    token: Digest, now: int)
    requires UsernamesOk(db)
    ensures UsernamesOk(Rules.CreateAccount(db, username, email, password, id, token, now).db)
  {
  }

  lemma CreateAccountOnlyAdds(db: Db, username: string, email: string, password: Digest, id: UserId, token: Digest,
                              now: int)
    ensures var b := Rules.CreateAccount(db, username, email, password, id, token, now).db;
      && (forall u | u in db.users :: u in b.users && b.users[u] == db.users[u])
      && (forall k | k in db.identities :: k in b.identities && b.identities[k] == db.identities[k])
      && (forall t | t in db.tokens :: t in b.tokens && b.tokens[t] == db.tokens[t])
  {
  }

  lemma CreateAccountIssues(db: Db, username: string, email: string, password: Digest, id: UserId, token: Digest,
                            now: int)
    ensures var b := Rules.CreateAccount(db, username, email, password, id, token, now).db;
      forall t | t in b.tokens && t !in db.tokens ::
            b.tokens[t].user in b.users && b.tokens[t].purpose == ForVerifyEmail
            && b.tokens[t].target == email && b.tokens[t].consumedAt.None?
  {
  }

  lemma CreateAccountKeeps(db: Db, username: string, email: string, password: Digest, id: UserId, token: Digest,
                           now: int, uses: seq<(Digest, Purpose)>)
    requires NamesOk(db) && UsesOk(db, uses) && NormalizeEmail(email) == email
    ensures var b := Rules.CreateAccount(db, username, email, password, id, token, now).db;
            NamesOk(b) && UsesOk(b, uses) && Keeps(db, b)
  {
    var b := Rules.CreateAccount(db, username, email, password, id, token, now).db;
    CreateAccountKeepsEmails(db, username, email, password, id, token, now);
    CreateAccountKeepsUsernames(db, username, email, password, id, token, now);
    CreateAccountOnlyAdds(db, username, email, password, id, token, now);
    CreateAccountIssues(db, username, email, password, id, token, now);
    TokensStayOk(db, b, uses);
  }

  lemma TokensStayOk(a: Db, b: Db, uses: seq<(Digest, Purpose)>)
    requires Keeps(a, b) && UsesOk(a, uses)
    requires forall t | t in a.tokens :: TokenOk(a, a.tokens[t]) && b.tokens[t] == a.tokens[t]
    requires forall t | t in b.tokens && t !in a.tokens :: TokenOk(b, b.tokens[t]) && b.tokens[t].consumedAt.None?
    ensures UsesOk(b, uses) && forall t | t in b.tokens :: TokenOk(b, b.tokens[t])
  {
    forall t | t in b.tokens
      ensures TokenOk(b, b.tokens[t])
    {
      if t in a.tokens { assert TokenOk(a, a.tokens[t]); }
    }
  }

  // ---------- steps and runs ----------

  /** Steps that only concern sessions, versions and statuses. */
  predicate SessionSide(a: Action)
  {
    || a.CheckLogin? || a.OpenSession? || a.Validate? || a.Refresh? || a.Logout? || a.LogoutAll?
    || a.AuthorizeChange? || a.CommitChange? || a.SetStatus?
  }

  lemma SessionSideSameNames(s: Sys, a: Action)
    requires SessionSide(a)
    ensures SameNames(s.db, Step(s, a).db)
  {
    match a
    case CheckLogin(identifier, password, locked) => CheckLoginSameNames(s.db, identifier, password, locked);
    case OpenSession(cred, id, token, now) => OpenSameNames(s.db, s.cfg, cred, id, token, now);
    case Refresh(token, id, newToken, now) => RefreshSameNames(s.db, s.cfg, token, id, newToken, now);
    case Logout(token, now) => LogoutSameNames(s.db, token, now);
    case LogoutAll(user, now) => RevokeAllSameNames(s.db, user, now);
    case CommitChange(user, session, digest, now) => ChangeSameNames(s.db, user, session, digest, now);
    case _ =>
  }

  lemma SessionSideUsesNothing(s: Sys, a: Action)
    requires SessionSide(a)
    ensures Step(s, a).past.uses == s.past.uses
  {
  }

  lemma SessionSideKeepsAccounts(s: Sys, a: Action)
    requires AccountsInv(s) && SessionSide(a)
    ensures AccountsInv(Step(s, a)) && Keeps(s.db, Step(s, a).db)
  {
    SessionSideSameNames(s, a);
    SessionSideUsesNothing(s, a);
    SameNamesKeep(s.db, Step(s, a).db, s.past.uses);
  }

  /** What a step has to show: the rules keep names and uses, and the step applies them. */
  lemma RuleKeepsAccounts(s: Sys, t: Sys, db: Db, uses: seq<(Digest, Purpose)>)
    requires AccountsInv(s) && NamesOk(db) && Keeps(s.db, db) && UsesOk(db, uses) && BindsOk(t.past.binds)
    requires t.db == db && t.past.uses == uses
    ensures AccountsInv(t) && Keeps(s.db, t.db)
  {
  }

  lemma CheckBindKeepsBinds(s: Sys, user: UserId, address: string)
    requires BindsOk(s.past.binds)
    ensures var t := Step(s, CheckBind(user, address));
            t.db == s.db && t.past.uses == s.past.uses && BindsOk(t.past.binds)
  {
    NormalizeEmailIdempotent(address);
  }

  lemma ResetUses(s: Sys, token: string, password: string, now: int)
    ensures var t, r := Step(s, ResetPassword(token, password, now)), Rules.ResetPassword(s.db, token, password, now);
      && t.db == r.db && t.past.binds == s.past.binds
      && t.past.uses == if r.answer.Ok? then s.past.uses + [(Digest(token), ForResetPassword)] else s.past.uses
  {
  }

  lemma VerifyUses(s: Sys, token: string, now: int)
    ensures var t, r := Step(s, VerifyEmail(token, now)), Rules.VerifyEmail(s.db, token, now);
      && t.db == r.db && t.past.binds == s.past.binds
      && t.past.uses == if r.answer.Ok? then s.past.uses + [(Digest(token), ForVerifyEmail)] else s.past.uses
  {
  }

  lemma RegisterKeeps(db: Db, name: string, address: string, password: string, user: UserId, token: string, now: int,
                      mailed: bool, uses: seq<(Digest, Purpose)>)
    requires NamesOk(db) && UsesOk(db, uses)
    ensures var b := Rules.Register(db, name, address, password, user, token, now, mailed).db;
            NamesOk(b) && UsesOk(b, uses) && Keeps(db, b)
  {
    var username, email, h := Trim(name), NormalizeEmail(address), Digest(token);
    var created := Rules.CreateAccount(db, username, email, Digest(password), user, h, now).db;
    assert var b := Rules.Register(db, name, address, password, user, token, now, mailed).db; b == db || b == created;
    SameNamesKeep(db, db, uses);
    NormalizeEmailIdempotent(address);
    CreateAccountKeeps(db, username, email, Digest(password), user, h, now, uses);
  }

  lemma StepUsesRule(s: Sys, a: Action)
    requires a.RequestReset? || a.Register? || a.IssueBind?
    ensures var t := Step(s, a);
      && t.past == s.past
      && t.db == match a
         case RequestReset(address, token, now, mailed) =>
           Rules.RequestPasswordReset(s.db, address, token, now, mailed).db
         case Register(name, address, password, user, token, now, mailed) =>
           Rules.Register(s.db, name, address, password, user, token, now, mailed).db
         case IssueBind(user, email, token, now, mailed) =>
           if (user, email) in s.past.binds then Rules.IssueBind(s.db, user, email, token, now, mailed).db else s.db
  {
  }

  lemma IssuingKeepsAccounts(s: Sys, a: Action)
    requires AccountsInv(s) && (a.RequestReset? || a.Register? || a.IssueBind?)
    ensures AccountsInv(Step(s, a)) && Keeps(s.db, Step(s, a).db)
  {
    var uses := s.past.uses;
    StepUsesRule(s, a);
    SameNamesKeep(s.db, s.db, uses);
    match a
    case RequestReset(address, token, now, mailed) => RequestResetKeeps(s.db, address, token, now, mailed, uses);
    case Register(name, address, password, user, token, now, mailed) =>
      RegisterKeeps(s.db, name, address, password, user, token, now, mailed, uses);
    case IssueBind(user, email, token, now, mailed) =>
      if (user, email) in s.past.binds { IssueBindKeeps(s.db, user, email, token, now, mailed, uses); }
  }

  lemma ResetKeepsAccounts(s: Sys, token: string, password: string, now: int)
    requires AccountsInv(s)
    ensures var t := Step(s, ResetPassword(token, password, now)); AccountsInv(t) && Keeps(s.db, t.db)
  {
    var t, r := Step(s, ResetPassword(token, password, now)), Rules.ResetPassword(s.db, token, password, now);
    ResetUses(s, token, password, now);
    ResetKeeps(s.db, token, password, now, s.past.uses);
    RuleKeepsAccounts(s, t, r.db, t.past.uses);
  }

  lemma VerifyKeepsAccounts(s: Sys, token: string, now: int)
    requires AccountsInv(s)
    ensures var t := Step(s, VerifyEmail(token, now)); AccountsInv(t) && Keeps(s.db, t.db)
  {
    var t, r := Step(s, VerifyEmail(token, now)), Rules.VerifyEmail(s.db, token, now);
    VerifyUses(s, token, now);
    VerifyEmailKeeps(s.db, token, now, s.past.uses);
    RuleKeepsAccounts(s, t, r.db, t.past.uses);
  }

  lemma StepKeepsAccounts(s: Sys, a: Action)
    requires AccountsInv(s)
    ensures AccountsInv(Step(s, a)) && Keeps(s.db, Step(s, a).db)
  {
    if SessionSide(a) {
      SessionSideKeepsAccounts(s, a);
    } else if a.ResetPassword? {
      ResetKeepsAccounts(s, a.token, a.password, a.now);
    } else if a.VerifyEmail? {
      VerifyKeepsAccounts(s, a.token, a.now);
    } else if a.CheckBind? {
      SameNamesKeep(s.db, s.db, s.past.uses);
      CheckBindKeepsBinds(s, a.user, a.address);
    } else {
      IssuingKeepsAccounts(s, a);
    }
  }

  lemma {:induction false} RunKeepsAccounts(s: Sys, actions: seq<Action>)
    requires AccountsInv(s)
    ensures AccountsInv(Run(s, actions)) && Keeps(s.db, Run(s, actions).db)
    decreases |actions|
  {
    if actions != [] {
      StepKeepsAccounts(s, actions[0]);
      RunKeepsAccounts(Step(s, actions[0]), actions[1..]);
      KeepsTransitive(s.db, Step(s, actions[0]).db, Run(s, actions).db);
    }
  }

  lemma ReachableAccounts(cfg: Config, s: Sys)
    requires Reaches(Start(cfg), s)
    ensures AccountsInv(s)
  {
    var actions :| s == Run(Start(cfg), actions);
    RunKeepsAccounts(Start(cfg), actions);
  }

  lemma ReachesKeeps(s: Sys, t: Sys)
    requires AccountsInv(s) && Reaches(s, t)
    ensures AccountsInv(t) && Keeps(s.db, t.db)
  {
    var actions :| t == Run(s, actions);
    RunKeepsAccounts(s, actions);
  }

  // ---------- what the service promises ----------

  /** Across a whole run no one-time token takes effect twice, and each only for its own purpose. */
  lemma TokenTakesEffectOnce(cfg: Config, s: Sys, i: nat, j: nat)
    requires Reaches(Start(cfg), s) && i < j < |s.past.uses|
    ensures s.past.uses[i].0 != s.past.uses[j].0
    ensures s.past.uses[i].0 in s.db.tokens && s.db.tokens[s.past.uses[i].0].purpose == s.past.uses[i].1
    ensures s.past.uses[j].0 in s.db.tokens && s.db.tokens[s.past.uses[j].0].purpose == s.past.uses[j].1
  {
    ReachableAccounts(cfg, s);
  }

  /** Once consumed, a token is refused for either purpose ever after. */
  lemma ConsumedTokenIsRefused(cfg: Config, s: Sys, t: Sys, token: string, password: string, now: int)
    requires Reaches(Start(cfg), s) && Reaches(s, t)
    requires Digest(token) in s.db.tokens && s.db.tokens[Digest(token)].consumedAt.Some?
    ensures Rules.VerifyEmail(t.db, token, now) == Rules.Refuse(t.db, InvalidToken)
    ensures Rules.ResetPassword(t.db, token, password, now) == Rules.Refuse(t.db, InvalidToken)
  {
    ReachableAccounts(cfg, s);
    ReachesKeeps(s, t);
  }

  /** An address belongs to a user exactly when its email identity does; so no two users share one. */
  lemma EmailIffIdentity(cfg: Config, s: Sys, user: UserId, email: string)
    requires Reaches(Start(cfg), s)
    ensures (user in s.db.users && s.db.users[user].email == Some(email))
            <==> ((Email, email) in s.db.identities && s.db.identities[(Email, email)] == user)
  {
    ReachableAccounts(cfg, s);
  }

  /** An identity, once registered, stays with its user. */
  lemma IdentityNeverMoves(cfg: Config, s: Sys, t: Sys, key: (Provider, string))
    requires Reaches(Start(cfg), s) && Reaches(s, t) && key in s.db.identities
    ensures key in t.db.identities && t.db.identities[key] == s.db.identities[key]
  {
    ReachableAccounts(cfg, s);
    ReachesKeeps(s, t);
  }

  /** The unique (provider, user) index makes the documented re-binding impossible: an active user
      who has an address keeps it, every attempt to bind another ends in a conflict and changes
      nothing, and the address is the same in every later state. */
  lemma AddressCannotBeRebound(cfg: Config, s: Sys, t: Sys, user: UserId, token: string, now: int)
    requires Reaches(Start(cfg), s) && Reaches(s, t)
    requires user in s.db.users && s.db.users[user].email.Some?
    ensures user in t.db.users && t.db.users[user].email == s.db.users[user].email
    ensures Rules.UsableToken(t.db, token, ForVerifyEmail).Some? && token != "" ==>
              var tok := Rules.UsableToken(t.db, token, ForVerifyEmail).value;
              tok.user == user && t.db.users[user].status == Active && tok.target != "" && now <= tok.expiresAt ==>
                Rules.VerifyEmail(t.db, token, now) == Rules.Refuse(t.db, Conflict)
  {
    ReachableAccounts(cfg, s);
    ReachesKeeps(s, t);
    assert (Email, t.db.users[user].email.value) in t.db.identities;
    assert Rules.HasProvider(t.db, user, Email);
  }

  /** A password reset always reaches the account that owns the address the token was mailed to. */
  lemma ResetReachesOwner(cfg: Config, s: Sys, token: string, password: string, now: int)
    requires Reaches(Start(cfg), s) && Rules.ResetPassword(s.db, token, password, now).answer.Ok?
    ensures var after := Rules.ResetPassword(s.db, token, password, now).db;
      && Digest(token) in s.db.tokens && (Email, s.db.tokens[Digest(token)].target) in s.db.identities
      && var owner := s.db.identities[(Email, s.db.tokens[Digest(token)].target)];
         && owner in s.db.users && owner in after.users && after.users[owner].password == Digest(password)
         && forall u | u in s.db.users && u != owner :: u in after.users && after.users[u] == s.db.users[u]
  {
    ReachableAccounts(cfg, s);
    assert TokenOk(s.db, s.db.tokens[Digest(token)]);
  }

  predicate Known(db: Db, address: string) { (Email, NormalizeEmail(address)) in db.identities }

  /** What a reset request tells about an address. Two services, one of which may know the address, give
      the same answer if and only if the mail goes out, the address is malformed, or both or neither know
      it: a mail that fails betrays a known address. */
  lemma ResetRequestRevealsIff(a: Db, b: Db, address: string, token: string, now: int, mailed: bool)
    requires Digest(token) !in a.tokens && Digest(token) !in b.tokens
    ensures Rules.RequestPasswordReset(a, address, token, now, mailed).answer
         == Rules.RequestPasswordReset(b, address, token, now, mailed).answer
       <==> mailed || !ValidEmail(NormalizeEmail(address)) || (Known(a, address) <==> Known(b, address))
  {
  }
}
