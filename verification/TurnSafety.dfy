/** What every interleaving of the turn protocol keeps. */
module TurnSafety {
  import opened TurnRegistry
  import opened TurnProtocol

  /** Between its Begin and its End. */
  predicate Running(pc: Pc)
  {
    pc.Begun? || pc.Streaming? || pc.Dispatching? || pc.Retrying? || pc.Settling? || pc.Ending?
  }

  predicate NotBegun(pc: Pc)
  {
    pc.Entering? || pc.Preempting? || pc.Waiting? || pc.Beginning? || pc.Rejecting?
  }

  // ---------- the slot ----------

  ghost predicate SlotOk(s: State, session: string)
    requires session in s.table
  {
    var t := s.table[session];
    && t.cancel < |s.procs|
    && var p := s.procs[t.cancel];
       && p.session == session && p.turnId == t.turnId && Running(p.pc)
       && p.hits == (if t.cancelled then 1 else 0)
  }

  /** Each slot holds the one runner that began it, each runner has its slot, and no turn is
      cancelled successfully more than once. */
  ghost predicate SlotsOk(s: State)
  {
    && (forall session | session in s.table :: SlotOk(s, session))
    && (forall g | 0 <= g < |s.procs| ::
          && (Running(s.procs[g].pc) ==>
                s.procs[g].session in s.table && s.table[s.procs[g].session].cancel == g)
          && (NotBegun(s.procs[g].pc) ==> s.procs[g].hits == 0)
          && s.procs[g].hits <= 1)
  }

  lemma CancelKeepsSlots(s: State, session: string)
    requires SlotsOk(s)
    ensures SlotsOk(CancelSession(s, session).0)
  {
    var t := CancelSession(s, session).0;
    if session in s.table {
      assert SlotOk(s, session);
      forall x | x in t.table
        ensures SlotOk(t, x)
      {
        assert SlotOk(s, x);
      }
    }
  }

  /** A step of one goroutine that leaves the table alone and does not cross Begin or End. */
  ghost predicate LocalStep(s: State, t: State, g: nat)
  {
    && g < |s.procs| == |t.procs| && t.table == s.table
    && (forall x | 0 <= x < |s.procs| && x != g :: t.procs[x] == s.procs[x])
    && var p, q := s.procs[g], t.procs[g];
       && q.session == p.session && q.turnId == p.turnId && q.hits == p.hits
       && Running(q.pc) == Running(p.pc) && (NotBegun(q.pc) ==> NotBegun(p.pc))
  }

  lemma LocalStepKeepsSlots(s: State, t: State, g: nat)
    requires SlotsOk(s) && LocalStep(s, t, g)
    ensures SlotsOk(t)
  {
    forall x | x in t.table
      ensures SlotOk(t, x)
    {
      assert SlotOk(s, x);
    }
  }

  lemma BeginKeepsSlots(s: State, g: nat)
    requires SlotsOk(s) && g < |s.procs| && s.procs[g].pc.Beginning? && s.procs[g].session !in s.table
    ensures SlotsOk(At(s, g, Begun).(table := Begin(s.table, s.procs[g].session, s.procs[g].turnId, g).0))
  {
    var t := At(s, g, Begun).(table := Begin(s.table, s.procs[g].session, s.procs[g].turnId, g).0);
    forall x | x in t.table
      ensures SlotOk(t, x)
    {
      if x in s.table { assert SlotOk(s, x); }
    }
  }

  lemma EndKeepsSlots(s: State, g: nat)
    requires SlotsOk(s) && g < |s.procs| && s.procs[g].pc.Ending?
    ensures SlotsOk(At(s, g, Done).(table := End(s.table, s.procs[g].session, s.procs[g].turnId)))
    ensures End(s.table, s.procs[g].session, s.procs[g].turnId) == s.table - {s.procs[g].session}
  {
    var session := s.procs[g].session;
    var t := At(s, g, Done).(table := End(s.table, session, s.procs[g].turnId));
    assert SlotOk(s, session);
    forall x | x in t.table
      ensures SlotOk(t, x)
    {
      assert SlotOk(s, x);
    }
  }

  /** The moves that cross Begin or End, or that cancel. */
  predicate TouchesTable(s: State, g: nat)
    requires g < |s.procs|
  {
    var p := s.procs[g];
    p.pc.Entering? || p.pc.Ending? || (p.pc.Beginning? && p.session !in s.table)
  }

  lemma OtherMovesAreLocal(w: World, s: State, g: nat, choice: Choice)
    requires GoodWorld(w) && g < |s.procs| && !TouchesTable(s, g)
    ensures LocalStep(s, Advance(w, s, g, choice), g)
  {
  }

  lemma MoveKeepsSlots(w: World, s: State, g: nat, choice: Choice)
    requires GoodWorld(w) && SlotsOk(s) && g < |s.procs|
    ensures SlotsOk(Advance(w, s, g, choice))
  {
    var p := s.procs[g];
    if p.pc.Entering? {
      CancelKeepsSlots(s, p.session);
      var r := CancelSession(s, p.session);
      LocalStepKeepsSlots(if r.1 then r.0 else s, Advance(w, s, g, choice), g);
    } else if p.pc.Beginning? && p.session !in s.table {
      BeginKeepsSlots(s, g);
    } else if p.pc.Ending? {
      EndKeepsSlots(s, g);
    } else {
      OtherMovesAreLocal(w, s, g, choice);
      LocalStepKeepsSlots(s, Advance(w, s, g, choice), g);
    }
  }

  lemma StepKeepsSlots(w: World, s: State, a: Action)
    requires GoodWorld(w) && SlotsOk(s)
    ensures SlotsOk(Step(w, s, a))
  {
    match a
    case Send(session, turnId) =>
      forall x | x in s.table
        ensures SlotOk(Step(w, s, a), x)
      {
        assert SlotOk(s, x);
      }
    case OutsideCancel(session) =>
      CancelKeepsSlots(s, session);
      var r := CancelSession(s, session);
      if r.1 {
        forall x | x in r.0.table
          ensures SlotOk(Step(w, s, a), x)
        {
          assert SlotOk(r.0, x);
        }
      }
    case Move(g, choice) => if g < |s.procs| { MoveKeepsSlots(w, s, g, choice); }
  }
}
