/** How long a conversation stays in the pool: a lookup puts its expiry off, and until then no sweep and
    nobody else's lookup drops it. */
module SessionExpiry {
  import opened Prelude
  import opened SessionPool
  import opened SessionContinuity

  /** A sweep keeps a session exactly up to the end of its time to live, that instant included. */
  lemma SweepKeepsIff(s: State, lim: Limits, now: int, unsaved: set<string>, id: string)
    requires id in s.sessions
    ensures id in Evict(s, lim, now, unsaved).sessions <==> now <= s.sessions[id].lastActive + lim.ttl
    ensures id in Evict(s, lim, now, unsaved).sessions ==> Evict(s, lim, now, unsaved).sessions[id] == s.sessions[id]
  {
  }

  /** A lookup that is answered leaves its session in the pool with its time to live ahead of it. */
  lemma LookupRenews(s: State, lim: Limits, id: string, now: int, faults: Faults)
    requires GetOrCreate(s, lim, id, now, faults).1.Some?
    ensures var (found, k) := GetOrCreate(s, lim, id, now, faults);
      && id in found.sessions && found.sessions[id] == Live(k.value, now)
      && (id in s.sessions ==> k.value == s.sessions[id].slot)
  {
  }

  /** No sweep or lookup after `until`, no closing of this session, and no lookup of it before `since`. */
  predicate Undisturbed(ops: seq<Op>, id: string, since: int, until: int)
  {
    forall k | 0 <= k < |ops| :: Spares(ops[k], id, since, until)
  }

  predicate Spares(op: Op, id: string, since: int, until: int)
  {
    && (op.Sweep? ==> op.now <= until)
    && (op.Look? ==> op.now <= until && (op.id == id ==> since <= op.now))
    && (op.Remove? ==> op.id != id)
  }

  lemma StepKeepsLive(s: State, lim: Limits, op: Op, id: string, since: int)
    requires id in s.sessions && since <= s.sessions[id].lastActive && Spares(op, id, since, since + lim.ttl)
    ensures var t := Step(s, lim, op);
            id in t.sessions && t.sessions[id].slot == s.sessions[id].slot && since <= t.sessions[id].lastActive
  {
    match op
    case Look(other, now, faults) => SweepKeepsIff(s, lim, now, faults.unsaved, id);
    case Sweep(now, unsaved) => SweepKeepsIff(s, lim, now, unsaved, id);
    case BeginTurn(_, _) =>
    case FinishTurn(_, _) =>
    case Save(_, _) =>
    case Remove(_) =>
    case SaveRemoved(_, _) =>
  }

  lemma {:induction false} RunKeepsLive(s: State, lim: Limits, ops: seq<Op>, id: string, since: int)
    requires id in s.sessions && since <= s.sessions[id].lastActive && Undisturbed(ops, id, since, since + lim.ttl)
    ensures var t := Run(s, lim, ops);
            id in t.sessions && t.sessions[id].slot == s.sessions[id].slot && since <= t.sessions[id].lastActive
    decreases |ops|
  {
    if ops != [] {
      assert Spares(ops[0], id, since, since + lim.ttl);
      StepKeepsLive(s, lim, ops[0], id, since);
      forall k | 0 <= k < |ops[1..]| ensures Spares(ops[1..][k], id, since, since + lim.ttl) {
        assert ops[1..][k] == ops[k + 1];
      }
      RunKeepsLive(Step(s, lim, ops[0]), lim, ops[1..], id, since);
    }
  }

  /** A session that was looked up is found again, the same one, by a lookup that comes within its time to
      live, whatever sweeps, turns, closings and lookups of other conversations come between. */
  lemma LookedUpIsFoundAgain(s: State, lim: Limits, id: string, now: int, faults: Faults, ops: seq<Op>, later: int,
                             faults': Faults)
    requires GetOrCreate(s, lim, id, now, faults).1.Some? && Undisturbed(ops, id, now, now + lim.ttl)
    ensures GetOrCreate(Run(s, lim, [Look(id, now, faults)] + ops), lim, id, later, faults').1
         == GetOrCreate(s, lim, id, now, faults).1
  {
    LookupRenews(s, lim, id, now, faults);
    RunCons(s, lim, Look(id, now, faults), ops);
    RunKeepsLive(Step(s, lim, Look(id, now, faults)), lim, ops, id, now);
  }
}
