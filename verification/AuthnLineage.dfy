/** Refresh-token rotation with replay detection, the pattern of section 10.4 of RFC 6749: the
    sessions that descend from one login form a chain, and only its last link can be unrevoked. */
module AuthnLineage {
  import opened Prelude
  import opened AuthnStore
  import opened AuthnRuns
  import opened AuthnSafety
  import Rules = AuthnRules

  /** The unique index on refresh-token hashes: exactly one session per stored hash. */
  ghost predicate IndexOk(db: Db)
  {
    && (forall id | id in db.sessions ::
          db.sessions[id].refreshHash in db.refreshIndex && db.refreshIndex[db.sessions[id].refreshHash] == id)
    && (forall h | h in db.refreshIndex ::
          db.refreshIndex[h] in db.sessions && db.sessions[db.refreshIndex[h]].refreshHash == h)
  }

  ghost predicate ChainOk(db: Db, root: map<SessionId, SessionId>, r: SessionId, c: seq<SessionId>)
  {
    && |c| > 0 && c[0] == r && r in db.sessions
    && (forall i | 0 <= i < |c| ::
          && c[i] in db.sessions && c[i] in root && root[c[i]] == r
          && db.sessions[c[i]].user == db.sessions[r].user)
    && (forall i, j | 0 <= i < j < |c| :: c[i] != c[j])
    && (forall i | 0 <= i < |c| - 1 ::
          && db.sessions[c[i]].revokedAt.Some?
          && LoginSucceeded(db.sessions[c[i]].user, Some(c[i])) in db.outbox)
  }

  ghost predicate ChainsOk(db: Db, past: History)
  {
    && past.root.Keys == db.sessions.Keys
    && (forall id | id in past.root :: past.root[id] in past.chains && id in past.chains[past.root[id]])
    && (forall r | r in past.chains :: ChainOk(db, past.root, r, past.chains[r]))
  }

  ghost predicate LineageInv(s: Sys)
  {
    Inv(s) && IndexOk(s.db) && ChainsOk(s.db, s.past)
  }

  /** Steps that neither open a session nor rotate one leave the shape of the chains alone. */
  lemma SameChainsOk(a: Db, b: Db, past: History)
    requires ChainsOk(a, past) && a.sessions.Keys == b.sessions.Keys
    requires forall id | id in a.sessions ::
               && b.sessions[id].user == a.sessions[id].user
               && (a.sessions[id].revokedAt.Some? ==> b.sessions[id].revokedAt.Some?)
    requires forall e | e in a.outbox :: e in b.outbox
    ensures ChainsOk(b, past)
  {
    forall r | r in past.chains
      ensures ChainOk(b, past.root, r, past.chains[r])
    {
      assert ChainOk(a, past.root, r, past.chains[r]);
    }
  }

  lemma OpenKeepsChain(db: Db, root: map<SessionId, SessionId>, cfg: Config, cred: Rules.Credential, id: SessionId,
                       token: string, now: int, r: SessionId, c: seq<SessionId>)
    requires Rules.OpenSession(db, cfg, cred, id, token, now).answer.Ok? && ChainOk(db, root, r, c)
    ensures ChainOk(Rules.OpenSession(db, cfg, cred, id, token, now).db, root[id := id], r, c)
  {
  }

  lemma OpenKeepsChains(db: Db, past: History, cfg: Config, cred: Rules.Credential, id: SessionId, token: string,
                        now: int)
    requires ChainsOk(db, past) && Rules.OpenSession(db, cfg, cred, id, token, now).answer.Ok?
    ensures ChainsOk(Rules.OpenSession(db, cfg, cred, id, token, now).db, StartChain(past, id))
  {
    var after := Rules.OpenSession(db, cfg, cred, id, token, now).db;
    var past' := StartChain(past, id);
    assert id in past.chains ==> ChainOk(db, past.root, id, past.chains[id]);
    forall r | r in past'.chains
      ensures ChainOk(after, past'.root, r, past'.chains[r])
    {
      if r in past.chains { OpenKeepsChain(db, past.root, cfg, cred, id, token, now, r, past.chains[r]); }
    }
  }

  /** A session still unrevoked is the last of its chain. */
  lemma UnrevokedIsLast(db: Db, past: History, id: SessionId)
    requires ChainsOk(db, past) && id in db.sessions && db.sessions[id].revokedAt.None?
    ensures id in past.root && past.root[id] in past.chains
    ensures var c := past.chains[past.root[id]]; |c| > 0 && c[|c| - 1] == id
  {
    var c := past.chains[past.root[id]];
    assert ChainOk(db, past.root, past.root[id], c);
    var i :| 0 <= i < |c| && c[i] == id;
  }

  lemma RotateEffect(db: Db, cfg: Config, prev: SessionId, id: SessionId, token: string, now: int)
    requires prev in db.sessions && db.sessions[prev].user in db.users && id !in db.sessions
    ensures var after := Rules.Rotate(db, cfg, prev, id, token, now);
      && id in after.sessions && after.sessions[id].user == db.sessions[prev].user
      && prev in after.sessions && after.sessions[prev].revokedAt.Some?
      && LoginSucceeded(db.sessions[prev].user, Some(prev)) in after.outbox
      && (forall x | x in db.sessions :: x in after.sessions && after.sessions[x].user == db.sessions[x].user
            && (db.sessions[x].revokedAt.Some? ==> after.sessions[x].revokedAt.Some?))
      && (forall e | e in db.outbox :: e in after.outbox)
  {
    assert Rules.Rotate(db, cfg, prev, id, token, now).outbox[|db.outbox|]
        == LoginSucceeded(db.sessions[prev].user, Some(prev));
  }

  lemma ChainGrows(a: Db, b: Db, root: map<SessionId, SessionId>, r: SessionId, c: seq<SessionId>, id: SessionId)
    requires ChainOk(a, root, r, c) && id !in a.sessions && id in b.sessions
    requires forall x | x in a.sessions :: x in b.sessions && b.sessions[x].user == a.sessions[x].user
               && (a.sessions[x].revokedAt.Some? ==> b.sessions[x].revokedAt.Some?)
    requires forall e | e in a.outbox :: e in b.outbox
    requires var prev := c[|c| - 1];
      && b.sessions[prev].revokedAt.Some? && b.sessions[id].user == b.sessions[prev].user
      && LoginSucceeded(b.sessions[prev].user, Some(prev)) in b.outbox
    ensures ChainOk(b, root[id := r], r, c + [id])
  {
    var c' := c + [id];
    forall i | 0 <= i < |c'| - 1
      ensures b.sessions[c'[i]].revokedAt.Some?
      ensures LoginSucceeded(b.sessions[c'[i]].user, Some(c'[i])) in b.outbox
    {
      assert c'[i] == c[i];
    }
  }

  lemma RotateExtendsChain(db: Db, past: History, cfg: Config, prev: SessionId, id: SessionId, token: string, now: int)
    requires ChainsOk(db, past) && prev in db.sessions && db.sessions[prev].user in db.users
    requires db.sessions[prev].revokedAt.None? && id !in db.sessions
    requires prev in past.root && past.root[prev] in past.chains
    ensures var r := past.root[prev];
            ChainOk(Rules.Rotate(db, cfg, prev, id, token, now), past.root[id := r], r, past.chains[r] + [id])
  {
    var r := past.root[prev];
    UnrevokedIsLast(db, past, prev);
    RotateEffect(db, cfg, prev, id, token, now);
    assert ChainOk(db, past.root, r, past.chains[r]);
    ChainGrows(db, Rules.Rotate(db, cfg, prev, id, token, now), past.root, r, past.chains[r], id);
  }

  lemma RotateKeepsOtherChain(db: Db, past: History, cfg: Config, prev: SessionId, id: SessionId, token: string,
                              now: int, q: SessionId)
    requires ChainsOk(db, past) && prev in db.sessions && db.sessions[prev].user in db.users
    requires id !in db.sessions && prev in past.root
    requires q in past.chains
    ensures ChainOk(Rules.Rotate(db, cfg, prev, id, token, now), past.root[id := past.root[prev]], q, past.chains[q])
  {
    assert ChainOk(db, past.root, q, past.chains[q]);
  }

  /** What there is to show when a chain gets longer by a new session. */
  lemma LongerChain(db: Db, past: History, after: Db, r: SessionId, id: SessionId)
    requires ChainsOk(db, past) && id !in db.sessions && r in past.chains
    requires after.sessions.Keys == db.sessions.Keys + {id}
    requires ChainOk(after, past.root[id := r], r, past.chains[r] + [id])
    requires forall q | q in past.chains && q != r :: ChainOk(after, past.root[id := r], q, past.chains[q])
    ensures ChainsOk(after, past.(chains := past.chains[r := past.chains[r] + [id]], root := past.root[id := r]))
  {
    assert id in past.chains[r] + [id];
  }

  lemma RotateKeepsChains(db: Db, past: History, cfg: Config, prev: SessionId, id: SessionId, token: string, now: int)
    requires ChainsOk(db, past) && prev in db.sessions && db.sessions[prev].user in db.users
    requires db.sessions[prev].revokedAt.None? && id !in db.sessions
    requires prev in past.root && past.root[prev] in past.chains
    ensures var r := past.root[prev];
            ChainsOk(Rules.Rotate(db, cfg, prev, id, token, now),
                     past.(chains := past.chains[r := past.chains[r] + [id]], root := past.root[id := r]))
  {
    var r := past.root[prev];
    var after := Rules.Rotate(db, cfg, prev, id, token, now);
    var past' := past.(chains := past.chains[r := past.chains[r] + [id]], root := past.root[id := r]);
    RotateExtendsChain(db, past, cfg, prev, id, token, now);
    forall q | q in past.chains && q != r
      ensures ChainOk(after, past'.root, q, past.chains[q])
    {
      RotateKeepsOtherChain(db, past, cfg, prev, id, token, now, q);
    }
    LongerChain(db, past, after, r, id);
  }

  // ---------- the unique index ----------

  lemma SameIndexOk(a: Db, b: Db)
    requires IndexOk(a) && a.refreshIndex == b.refreshIndex && a.sessions.Keys == b.sessions.Keys
    requires forall id | id in a.sessions :: b.sessions[id].refreshHash == a.sessions[id].refreshHash
    ensures IndexOk(b)
  {
  }

  lemma OpenKeepsIndex(db: Db, cfg: Config, cred: Rules.Credential, id: SessionId, token: string, now: int)
    requires IndexOk(db)
    ensures IndexOk(Rules.OpenSession(db, cfg, cred, id, token, now).db)
  {
  }

  lemma RotateKeepsIndex(db: Db, cfg: Config, prev: SessionId, id: SessionId, token: string, now: int)
    requires IndexOk(db) && prev in db.sessions && db.sessions[prev].user in db.users
    requires id !in db.sessions && Digest(token) !in db.refreshIndex
    ensures IndexOk(Rules.Rotate(db, cfg, prev, id, token, now))
  {
  }

  // ---------- steps ----------

  /** No session added, none of them unrevoked again, the index and the past outbox as they were. */
  ghost predicate SameShape(a: Db, b: Db)
  {
    && b.refreshIndex == a.refreshIndex && b.sessions.Keys == a.sessions.Keys && a.outbox <= b.outbox
    && (forall id | id in a.sessions ::
          && b.sessions[id].user == a.sessions[id].user
          && b.sessions[id].refreshHash == a.sessions[id].refreshHash
          && (a.sessions[id].revokedAt.Some? ==> b.sessions[id].revokedAt.Some?))
  }

  lemma RevokeAllShape(db: Db, user: UserId, now: int)
    ensures SameShape(db, Rules.RevokeAllAndBump(db, user, now).db)
  {
  }

  lemma ResetShape(db: Db, token: string, password: string, now: int)
    ensures SameShape(db, Rules.ResetPassword(db, token, password, now).db)
  {
  }

  lemma ChangeShape(db: Db, user: UserId, keep: SessionId, password: Digest, now: int)
    ensures SameShape(db, Rules.CommitChange(db, user, keep, password, now).db)
  {
  }

  lemma LogoutShape(db: Db, token: string, now: int)
    ensures SameShape(db, Rules.Logout(db, token, now).db)
  {
  }

  lemma CreateAccountShape(db: Db, username: string, email: string, password: Digest, id: UserId, token: Digest,
                           now: int)
    ensures SameShape(db, Rules.CreateAccount(db, username, email, password, id, token, now).db)
  {
  }

  lemma VerifyEmailShape(db: Db, token: string, now: int)
    ensures SameShape(db, Rules.VerifyEmail(db, token, now).db)
  {
    var t := Rules.VerifyEmail(db, token, now);
    if t.db != db {
      assert t.db.sessions == db.sessions && t.db.refreshIndex == db.refreshIndex;
      assert db.outbox <= t.db.outbox;
    }
  }

  lemma CheckLoginShape(db: Db, identifier: string, password: string, locked: bool)
    ensures SameShape(db, Rules.CheckLogin(db, identifier, password, locked).0.db)
  {
  }

  lemma RequestResetShape(db: Db, address: string, token: string, now: int, mailed: bool)
    ensures SameShape(db, Rules.RequestPasswordReset(db, address, token, now, mailed).db)
  {
  }

  lemma IssueBindShape(db: Db, user: UserId, email: string, token: string, now: int, mailed: bool)
    ensures SameShape(db, Rules.IssueBind(db, user, email, token, now, mailed).db)
  {
  }

  lemma RegisterShape(db: Db, name: string, address: string, password: string, id: UserId, token: string, now: int,
                      mailed: bool)
    ensures SameShape(db, Rules.Register(db, name, address, password, id, token, now, mailed).db)
  {
    CreateAccountShape(db, Trim(name), NormalizeEmail(address), Digest(password), id, Digest(token), now);
  }

  /** Apart from a login's commit and a refresh, no step adds a session or touches the index. */
  lemma OtherStepShape(s: Sys, a: Action)
    requires !a.OpenSession? && !a.Refresh?
    ensures SameShape(s.db, Step(s, a).db)
  {
    match a
    case CheckLogin(identifier, password, locked) => CheckLoginShape(s.db, identifier, password, locked);
    case Logout(token, now) => LogoutShape(s.db, token, now);
    case LogoutAll(user, now) => RevokeAllShape(s.db, user, now);
    case RequestReset(address, token, now, mailed) => RequestResetShape(s.db, address, token, now, mailed);
    case ResetPassword(token, password, now) => ResetShape(s.db, token, password, now);
    case CommitChange(user, session, digest, now) => ChangeShape(s.db, user, session, digest, now);
    case Register(name, address, password, user, token, now, mailed) =>
      RegisterShape(s.db, name, address, password, user, token, now, mailed);
    case VerifyEmail(token, now) => VerifyEmailShape(s.db, token, now);
    case IssueBind(user, email, token, now, mailed) => IssueBindShape(s.db, user, email, token, now, mailed);
    case _ =>
  }

  lemma OtherStepKeepsChainRecord(s: Sys, a: Action)
    requires !a.OpenSession? && !a.Refresh?
    ensures Step(s, a).past.root == s.past.root && Step(s, a).past.chains == s.past.chains
  {
  }

  lemma StepKeepsLineage(s: Sys, a: Action)
    requires LineageInv(s)
    ensures LineageInv(Step(s, a))
  {
    StepKeepsInv(s, a);
    var t := Step(s, a);
    if a.OpenSession? {
      if a.cred in s.past.credentials {
        OpenKeepsIndex(s.db, s.cfg, a.cred, a.id, a.token, a.now);
        if Rules.OpenSession(s.db, s.cfg, a.cred, a.id, a.token, a.now).answer.Ok? {
          OpenKeepsChains(s.db, s.past, s.cfg, a.cred, a.id, a.token, a.now);
        }
      }
    } else if a.Refresh? {
      RefreshKeepsIndex(s.db, s.cfg, a.token, a.id, a.newToken, a.now);
      RefreshKeepsChains(s, a.token, a.id, a.newToken, a.now);
    } else {
      OtherStepShape(s, a);
      OtherStepKeepsChainRecord(s, a);
      SameChainsOk(s.db, t.db, s.past);
      SameIndexOk(s.db, t.db);
    }
  }

  lemma RefusedRefreshShape(db: Db, cfg: Config, token: string, id: SessionId, newToken: string, now: int)
    requires Rules.Refresh(db, cfg, token, id, newToken, now).answer.Err?
    ensures SameShape(db, Rules.Refresh(db, cfg, token, id, newToken, now).db)
  {
    var found := Rules.SessionByRefresh(db, token);
    if found.Some? { RevokeAllShape(db, db.sessions[found.value].user, now); }
  }

  lemma RefusedRefreshKeepsChainRecord(s: Sys, token: string, id: SessionId, e: Error)
    ensures AfterRefresh(s, token, id, Err(e)).root == s.past.root
    ensures AfterRefresh(s, token, id, Err(e)).chains == s.past.chains
  {
  }

  lemma AcceptedRefreshRotates(db: Db, cfg: Config, token: string, id: SessionId, newToken: string, now: int)
    requires Rules.Refresh(db, cfg, token, id, newToken, now).answer.Ok?
    ensures Rules.SessionByRefresh(db, token).Some?
    ensures var prev := Rules.SessionByRefresh(db, token).value;
      && db.sessions[prev].revokedAt.None? && db.sessions[prev].user in db.users
      && id !in db.sessions && Digest(newToken) !in db.refreshIndex
      && Rules.Refresh(db, cfg, token, id, newToken, now).db == Rules.Rotate(db, cfg, prev, id, newToken, now)
  {
  }

  lemma RefreshKeepsIndex(db: Db, cfg: Config, token: string, id: SessionId, newToken: string, now: int)
    requires IndexOk(db)
    ensures IndexOk(Rules.Refresh(db, cfg, token, id, newToken, now).db)
  {
    if Rules.Refresh(db, cfg, token, id, newToken, now).answer.Ok? {
      AcceptedRefreshRotates(db, cfg, token, id, newToken, now);
      RotateKeepsIndex(db, cfg, Rules.SessionByRefresh(db, token).value, id, newToken, now);
    } else {
      RefusedRefreshShape(db, cfg, token, id, newToken, now);
      SameIndexOk(db, Rules.Refresh(db, cfg, token, id, newToken, now).db);
    }
  }

  lemma RefreshKeepsChains(s: Sys, token: string, id: SessionId, newToken: string, now: int)
    requires ChainsOk(s.db, s.past)
    ensures var t := Rules.Refresh(s.db, s.cfg, token, id, newToken, now);
            ChainsOk(t.db, AfterRefresh(s, token, id, t.answer))
  {
    var t := Rules.Refresh(s.db, s.cfg, token, id, newToken, now);
    if t.answer.Ok? {
      AcceptedRefreshRotates(s.db, s.cfg, token, id, newToken, now);
      var prev := Rules.SessionByRefresh(s.db, token).value;
      assert prev in s.past.root;
      RotateKeepsChains(s.db, s.past, s.cfg, prev, id, newToken, now);
    } else {
      RefusedRefreshShape(s.db, s.cfg, token, id, newToken, now);
      RefusedRefreshKeepsChainRecord(s, token, id, t.answer.error);
      SameChainsOk(s.db, t.db, s.past);
      var past := AfterRefresh(s, token, id, t.answer);
      assert ChainsOk(t.db, past) <==> ChainsOk(t.db, s.past);
    }
  }

  lemma {:induction false} RunKeepsLineage(s: Sys, actions: seq<Action>)
    requires LineageInv(s)
    ensures LineageInv(Run(s, actions))
    decreases |actions|
  {
    if actions != [] {
      StepKeepsLineage(s, actions[0]);
      RunKeepsLineage(Step(s, actions[0]), actions[1..]);
    }
  }

  lemma ReachableLineage(cfg: Config, s: Sys)
    requires Reaches(Start(cfg), s)
    ensures LineageInv(s)
  {
    var actions :| s == Run(Start(cfg), actions);
    RunKeepsLineage(Start(cfg), actions);
  }

  // ---------- what rotation promises ----------

  lemma ReachableUnrevokedIsLast(cfg: Config, s: Sys, id: SessionId)
    requires Reaches(Start(cfg), s) && id in s.db.sessions && s.db.sessions[id].revokedAt.None?
    ensures id in s.past.root && s.past.root[id] in s.past.chains
    ensures var c := s.past.chains[s.past.root[id]]; |c| > 0 && c[|c| - 1] == id
  {
    ReachableLineage(cfg, s);
    UnrevokedIsLast(s.db, s.past, id);
  }

  /** In every reachable state, of all the sessions that descend from one login at most one is
      unrevoked: the newest. */
  lemma AtMostOneLivePerLogin(cfg: Config, s: Sys, x: SessionId, y: SessionId)
    requires Reaches(Start(cfg), s)
    requires x in s.db.sessions && s.db.sessions[x].revokedAt.None?
    requires y in s.db.sessions && s.db.sessions[y].revokedAt.None?
    requires x in s.past.root && y in s.past.root && s.past.root[x] == s.past.root[y]
    ensures x == y
  {
    ReachableUnrevokedIsLast(cfg, s, x);
    ReachableUnrevokedIsLast(cfg, s, y);
  }

  /** Each login's sessions form one chain without repetition, every link but the last revoked and
      recorded in the outbox as the one its successor was rotated from. */
  lemma RotationsFormChains(cfg: Config, s: Sys, id: SessionId)
    requires Reaches(Start(cfg), s) && id in s.db.sessions
    ensures id in s.past.root && s.past.root[id] in s.past.chains
    ensures ChainOk(s.db, s.past.root, s.past.root[id], s.past.chains[s.past.root[id]])
    ensures id in s.past.chains[s.past.root[id]]
  {
    ReachableLineage(cfg, s);
  }

  lemma StoredTokenFindsItsSession(db: Db, id: SessionId, token: string)
    requires IndexOk(db) && id in db.sessions && Digest(token) == db.sessions[id].refreshHash
    ensures Rules.SessionByRefresh(db, token) == Some(id)
  {
  }

  lemma ReplayIsRefused(db: Db, cfg: Config, token: string, id: SessionId, newToken: string, now: int)
    requires IsReplay(db, token)
    ensures Rules.Refresh(db, cfg, token, id, newToken, now).answer == Err(InvalidToken)
  {
  }

  /** A refresh token that has been rotated away is a replay whenever it comes back, and presenting
      it leaves its owner with no unrevoked session and a strictly larger version. */
  lemma ReplayLiquidates(cfg: Config, s: Sys, id: SessionId, a: Action)
    requires Reaches(Start(cfg), s)
    requires id in s.db.sessions && s.db.sessions[id].revokedAt.Some?
    requires a.Refresh? && a.token != "" && Digest(a.token) == s.db.sessions[id].refreshHash
    ensures var t := Step(s, a); var user := s.db.sessions[id].user;
      && Rules.Refresh(s.db, s.cfg, a.token, a.id, a.newToken, a.now).answer == Err(InvalidToken)
      && user in s.db.users && user in t.db.users
      && t.db.users[user].tokenVersion > s.db.users[user].tokenVersion
      && forall x | x in t.db.sessions && t.db.sessions[x].user == user :: t.db.sessions[x].revokedAt.Some?
  {
    ReachableLineage(cfg, s);
    StoredTokenFindsItsSession(s.db, id, a.token);
    ReplayIsRefused(s.db, s.cfg, a.token, a.id, a.newToken, a.now);
    LiquidationStep(s, a, s.db.sessions[id].user);
  }
}
