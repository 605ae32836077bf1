/** What assignments and removals amount to: who holds a role is told by the writes alone, and every
    answer of the client is what those roles grant. */
module AuthzRoles {
  import opened Prelude
  import opened RoomAuthz
  import opened AuthzCoherence

  // ---------- roles, told from the writes ----------

  /** What an operation says about one role of one user in one room, if it speaks about it. */
  function Written(op: Op, role: string, room: string, user: string): Option<bool>
  {
    match op
    case AskCan(_, _, _, _, _) => None
    case DoAssign(r, m, u) => if r == role && m == room && u == user && role in ROLES then Some(true) else None
    case DoRemove(r, m, u) => if r == role && m == room && u == user && role in ROLES then Some(false) else None
    case DoTransfer(m, from, to) =>
      if role != "host" || m != room then None
      else if user == to then Some(true)
      else if user == from then Some(false) else None
  }

  /** The last operation that speaks about it decides. */
  function Holds(ops: seq<Op>, role: string, room: string, user: string): bool
  {
    if ops == [] then false
    else
      var n := |ops| - 1;
      match Written(ops[n], role, room, user)
      case Some(held) => held
      case None => Holds(ops[..n], role, room, user)
  }

  /** One operation, in any world: the tuple it speaks about is there or gone, every other one is as before. */
  lemma StepWrites(w: World, ttl: int, op: Op, role: string, room: string, user: string)
    ensures Has(Step(w, ttl, op).tuples, role, room, user) ==
            match Written(op, role, room, user)
            case Some(held) => held
            case None => Has(w.tuples, role, room, user)
  {
  }

  lemma {:induction false} RunSnoc(w: World, ttl: int, ops: seq<Op>, op: Op)
    ensures Run(w, ttl, ops + [op]) == Step(Run(w, ttl, ops), ttl, op)
    decreases |ops|
  {
    if ops == [] {
      assert [] + [op] == [op] && [op][1..] == [];
    } else {
      RunSnoc(Step(w, ttl, ops[0]), ttl, ops[1..], op);
      assert (ops + [op])[0] == ops[0] && (ops + [op])[1..] == ops[1..] + [op];
    }
  }

  /** After any operations a role is held exactly if the last write about it says so. */
  lemma {:induction false} RolesAreWhatWasWritten(ttl: int, ops: seq<Op>, role: string, room: string, user: string)
    ensures Has(Run(EMPTY, ttl, ops).tuples, role, room, user) <==> Holds(ops, role, room, user)
    decreases |ops|
  {
    if ops != [] {
      var n := |ops| - 1;
      assert ops == ops[..n] + [ops[n]];
      RunSnoc(EMPTY, ttl, ops[..n], ops[n]);
      StepWrites(Run(EMPTY, ttl, ops[..n]), ttl, ops[n], role, room, user);
      RolesAreWhatWasWritten(ttl, ops[..n], role, room, user);
    }
  }

  // ---------- what roles grant ----------

  const MEMBERS: set<string> := {"host", "cohost", "speaker", "listener"}
  const MANAGERS: set<string> := {"host", "cohost"}

  /** The schema, permission by permission: the roles any of which grants it. */
  const GRANTS: map<string, set<string>> := map[
    "member" := MEMBERS,
    "edit_room" := {"host"},
    "transfer_host" := {"host"},
    "manage_ai" := MANAGERS,
    "kick" := MANAGERS,
    "mod_mic" := MANAGERS,
    "speak" := {"host", "cohost", "speaker"},
    "hand_raise" := MEMBERS,
    "listen" := MEMBERS,
    "invite" := MEMBERS
  ]

  /** Being muted takes away speaking and nothing else. */
  predicate Granted(permission: string, roles: set<string>)
  {
    && permission in GRANTS && roles * GRANTS[permission] != {}
    && !(permission == "speak" && "muted" in roles)
  }

  function RolesIn(ops: seq<Op>, room: string, user: string): set<string>
  {
    set role | role in ROLES && Holds(ops, role, room, user)
  }

  lemma CheckIsGranted(tuples: set<Tuple>, permission: string, room: string, user: string, roles: set<string>)
    requires permission in PERMISSIONS
    requires forall role :: role in roles <==> role in ROLES && Has(tuples, role, room, user)
    ensures Check(tuples, permission, room, user) <==> Granted(permission, roles)
  {
    var needed := GRANTS[permission];
    assert roles * needed != {} <==> exists role :: role in roles && role in needed by {
      if roles * needed != {} {
        var role :| role in roles * needed;
        assert role in roles && role in needed;
      }
    }
    assert needed <= MEMBERS;
    assert forall role :: role in needed ==> (role in roles <==> Has(tuples, role, room, user));
  }

  /** The client answers by the roles the operations have left the user with, cached or not, in rooms none
      of which, followed by the separator, begins another. */
  lemma AnswersFollowRoles(rooms: set<string>, ttl: int, ops: seq<Op>, permission: string, room: string, user: string,
                           now: int, evicted: set<string>)
    requires SeparatorFree(rooms) && Within(rooms, ops) && permission in PERMISSIONS && room in rooms
    ensures Can(Run(EMPTY, ttl, ops), ttl, permission, room, user, now, evicted).1
         == Ok(Granted(permission, RolesIn(ops, room, user)))
  {
    CoherentRunsAnswerRight(rooms, ttl, ops);
    var tuples, roles := Run(EMPTY, ttl, ops).tuples, RolesIn(ops, room, user);
    forall role ensures role in roles <==> role in ROLES && Has(tuples, role, room, user) {
      RolesAreWhatWasWritten(ttl, ops, role, room, user);
    }
    CheckIsGranted(tuples, permission, room, user, roles);
    assert Can(Run(EMPTY, ttl, ops), ttl, permission, room, user, now, evicted).1
        == Ok(Check(tuples, permission, room, user));
  }

  lemma WithinSnoc(rooms: set<string>, ops: seq<Op>, op: Op)
    requires Within(rooms, ops) && !op.AskCan?
    ensures Within(rooms, ops + [op])
  {
  }

  lemma HoldsSnoc(ops: seq<Op>, op: Op, role: string, room: string, user: string)
    ensures Holds(ops + [op], role, room, user) ==
            match Written(op, role, room, user)
            case Some(held) => held
            case None => Holds(ops, role, room, user)
  {
    assert (ops + [op])[..|ops|] == ops;
  }

  /** Whoever loses the only role in a room is refused everything there. */
  lemma RemovalEndsEverything(rooms: set<string>, ttl: int, ops: seq<Op>, role: string, permission: string,
                              room: string, user: string, now: int, evicted: set<string>)
    requires SeparatorFree(rooms) && Within(rooms, ops) && permission in PERMISSIONS && room in rooms && role in ROLES
    requires RolesIn(ops, room, user) <= {role}
    ensures Can(Run(EMPTY, ttl, ops + [DoRemove(role, room, user)]), ttl, permission, room, user, now, evicted).1
         == Ok(false)
  {
    var op := DoRemove(role, room, user);
    WithinSnoc(rooms, ops, op);
    forall r ensures r !in RolesIn(ops + [op], room, user) {
      HoldsSnoc(ops, op, r, room, user);
      assert r in RolesIn(ops, room, user) ==> r == role;
    }
    AnswersFollowRoles(rooms, ttl, ops + [op], permission, room, user, now, evicted);
  }

  /** Whoever is given a role has what it grants in addition to what there was. */
  lemma AssignmentGrants(rooms: set<string>, ttl: int, ops: seq<Op>, role: string, permission: string, room: string,
                         user: string, now: int, evicted: set<string>)
    requires SeparatorFree(rooms) && Within(rooms, ops) && permission in PERMISSIONS && room in rooms && role in ROLES
    ensures Can(Run(EMPTY, ttl, ops + [DoAssign(role, room, user)]), ttl, permission, room, user, now, evicted).1
         == Ok(Granted(permission, RolesIn(ops, room, user) + {role}))
  {
    var op := DoAssign(role, room, user);
    WithinSnoc(rooms, ops, op);
    forall r ensures r in RolesIn(ops + [op], room, user) <==> r in RolesIn(ops, room, user) + {role} {
      HoldsSnoc(ops, op, r, room, user);
    }
    assert RolesIn(ops + [op], room, user) == RolesIn(ops, room, user) + {role};
    AnswersFollowRoles(rooms, ttl, ops + [op], permission, room, user, now, evicted);
  }

  // ---------- the cache's own promises ----------

  /** A decision taken on a miss is remembered exactly for its lifetime; a hit does not prolong it. */
  lemma DecisionLifetime(w: World, ttl: int, permission: string, room: string, user: string, now: int,
                         evicted: set<string>, later: int)
    requires permission in PERMISSIONS && Get(w.cache, Key(permission, room, user), now).None?
    ensures var after := Can(w, ttl, permission, room, user, now, evicted).0;
            var hit := Get(after.cache, Key(permission, room, user), later);
      && hit == (if later <= now + ttl then Some(Check(w.tuples, permission, room, user)) else None)
      && (hit.Some? ==> Can(after, ttl, permission, room, user, later, evicted) == (after, Ok(hit.value)))
  {
  }

  /** What the cache evicts to make room is forgotten, and nothing else. */
  lemma OnlyTheEvictedGo(w: World, ttl: int, permission: string, room: string, user: string, now: int,
                         evicted: set<string>, key: string, later: int)
    requires permission in PERMISSIONS && key != Key(permission, room, user)
    requires Get(w.cache, Key(permission, room, user), now).None?
    ensures Get(Can(w, ttl, permission, room, user, now, evicted).0.cache, key, later)
         == if key in evicted then None else Get(w.cache, key, later)
  {
  }

  /** A question about a permission the schema does not know is an error, and is not remembered. */
  lemma UnknownPermissionIsRefused(w: World, ttl: int, permission: string, room: string, user: string, now: int,
                                   evicted: set<string>)
    requires permission !in PERMISSIONS && Get(w.cache, Key(permission, room, user), now).None?
    ensures Can(w, ttl, permission, room, user, now, evicted) == (w, Err(Refused))
  {
  }
}
