/** The client's counters balance in every reachable state, with a correction for the goroutines that
    stand between a transition and the counter that records it. */
module TurnAccounting {
  import opened TurnRegistry
  import opened TurnProtocol
  import opened TurnSafety

  /** What is summed over the goroutines. */
  datatype Measure =
    | Unaccounted      // accepted, not yet counted as sent or rejected
    | Unsettled        // counted as sent, end not yet counted
    | Undispatched     // a response counted but not yet handed on
    | Unpreempted      // cancelled a predecessor, not yet counted
    | Hits             // successful cancellations received
    | Retries          // second attempts made

  function Weight(m: Measure, p: Proc): int
  {
    match m
    case Unaccounted => if NotBegun(p.pc) || p.pc.Begun? then 1 else 0
    case Unsettled => if p.pc.Streaming? || p.pc.Dispatching? || p.pc.Retrying? || p.pc.Settling? then 1 else 0
    case Undispatched => if p.pc.Dispatching? then 1 else 0
    case Unpreempted => if p.pc.Preempting? then 1 else 0
    case Hits => p.hits
    case Retries => p.attempt - 1
  }

  function Sum(m: Measure, procs: seq<Proc>): int
  {
    if procs == [] then 0 else Sum(m, procs[..|procs| - 1]) + Weight(m, procs[|procs| - 1])
  }

  lemma {:induction false} SumUpdate(m: Measure, procs: seq<Proc>, g: nat, p: Proc)
    requires g < |procs|
    ensures Sum(m, procs[g := p]) == Sum(m, procs) - Weight(m, procs[g]) + Weight(m, p)
    decreases |procs|
  {
    var n := |procs| - 1;
    if g == n {
      assert procs[g := p][..n] == procs[..n];
    } else {
      SumUpdate(m, procs[..n], g, p);
      assert procs[g := p][..n] == procs[..n][g := p];
    }
  }

  lemma SumAppend(m: Measure, procs: seq<Proc>, p: Proc)
    ensures Sum(m, procs + [p]) == Sum(m, procs) + Weight(m, p)
  {
    assert (procs + [p])[..|procs|] == procs;
  }

  /** The balances. */
  ghost predicate Balanced(s: State)
  {
    var c := s.count;
    && |s.procs| == c.sent + c.rejected + Sum(Unaccounted, s.procs)
    && c.sent == c.ok + c.cancelled + c.timedOut + c.failed + c.panicked + Sum(Unsettled, s.procs)
    && c.responses == |s.log| + Sum(Undispatched, s.procs)
    && Sum(Hits, s.procs) == c.preempted + c.outsideHits + Sum(Unpreempted, s.procs)
    && Sum(Retries, s.procs) == c.retried
  }

  /** Shapes the balances rely on: a cancellation finds an owner, a response in hand exists, and a
      retry comes after a first attempt. */
  ghost predicate ShapesOk(w: World, s: State)
  {
    SlotsOk(s) && forall g | 0 <= g < |s.procs| :: ShapeOk(w, s.procs[g], g)
  }

  ghost predicate ShapeOk(w: World, p: Proc, g: nat)
  {
    && (p.pc.Dispatching? ==> 0 < p.position <= |w.stream(g, p.attempt)|)
    && (p.pc.Retrying? ==> p.attempt == 1)
  }

  lemma UpdateAll(procs: seq<Proc>, g: nat, p: Proc)
    requires g < |procs|
    ensures forall m: Measure :: Sum(m, procs[g := p]) == Sum(m, procs) - Weight(m, procs[g]) + Weight(m, p)
  {
    forall m: Measure { SumUpdate(m, procs, g, p); }
  }

  /** The sum moves by what goroutine g's own weight moves by. */
  ghost predicate Shifted(m: Measure, procs: seq<Proc>, after: seq<Proc>, g: nat)
    requires g < |procs| == |after|
  {
    Sum(m, after) == Sum(m, procs) - Weight(m, procs[g]) + Weight(m, after[g])
  }

  /** The effect of one goroutine's step on the six sums, spelled out. */
  lemma SumsAfter(procs: seq<Proc>, after: seq<Proc>, g: nat)
    requires g < |procs| == |after| && after == procs[g := after[g]]
    ensures Shifted(Unaccounted, procs, after, g) && Shifted(Unsettled, procs, after, g)
    ensures Shifted(Undispatched, procs, after, g) && Shifted(Unpreempted, procs, after, g)
    ensures Shifted(Hits, procs, after, g) && Shifted(Retries, procs, after, g)
  {
    UpdateAll(procs, g, after[g]);
  }

  lemma CancelBalance(s: State, session: string)
    requires SlotsOk(s)
    ensures var r := CancelSession(s, session);
      && r.0.count == s.count && r.0.log == s.log
      && Sum(Hits, r.0.procs) == Sum(Hits, s.procs) + (if r.1 then 1 else 0)
      && (forall m: Measure | m != Hits :: Sum(m, r.0.procs) == Sum(m, s.procs))
      && (forall g | 0 <= g < |s.procs| :: r.0.procs[g].pc == s.procs[g].pc)
  {
    var r := Cancel(s.table, session);
    if r.1.Some? {
      assert SlotOk(s, session);
      var g := r.1.value;
      UpdateAll(s.procs, g, s.procs[g].(hits := s.procs[g].hits + 1));
    }
  }

  lemma EnterMissBalance(w: World, s: State, g: nat, choice: Choice)
    requires GoodWorld(w) && Balanced(s) && g < |s.procs| && s.procs[g].pc.Entering?
    requires !CancelSession(s, s.procs[g].session).1
    ensures Balanced(Advance(w, s, g, choice))
  {
    SumsAfter(s.procs, Advance(w, s, g, choice).procs, g);
  }

  lemma EnterHitBalance(w: World, s: State, g: nat, choice: Choice)
    requires GoodWorld(w) && SlotsOk(s) && Balanced(s) && g < |s.procs| && s.procs[g].pc.Entering?
    requires CancelSession(s, s.procs[g].session).1
    ensures Balanced(Advance(w, s, g, choice))
  {
    CancelBalance(s, s.procs[g].session);
    var u := CancelSession(s, s.procs[g].session).0;
    SumsAfter(u.procs, Advance(w, s, g, choice).procs, g);
  }

  lemma EnterBalance(w: World, s: State, g: nat, choice: Choice)
    requires GoodWorld(w) && ShapesOk(w, s) && Balanced(s) && g < |s.procs| && s.procs[g].pc.Entering?
    ensures Balanced(Advance(w, s, g, choice))
  {
    if CancelSession(s, s.procs[g].session).1 {
      EnterHitBalance(w, s, g, choice);
    } else {
      EnterMissBalance(w, s, g, choice);
    }
  }

  /** One goroutine's step records in the counters exactly what it changes in the sums. */
  ghost predicate Recorded(s: State, t: State, g: nat)
    requires g < |s.procs| == |t.procs|
  {
    var p, q, c, d := s.procs[g], t.procs[g], s.count, t.count;
    && d.sent + d.rejected - c.sent - c.rejected == Weight(Unaccounted, p) - Weight(Unaccounted, q)
    && (d.sent - d.ok - d.cancelled - d.timedOut - d.failed - d.panicked)
         - (c.sent - c.ok - c.cancelled - c.timedOut - c.failed - c.panicked)
         == Weight(Unsettled, q) - Weight(Unsettled, p)
    && (d.responses - |t.log|) - (c.responses - |s.log|) == Weight(Undispatched, q) - Weight(Undispatched, p)
    && d.preempted - c.preempted == Weight(Unpreempted, p) - Weight(Unpreempted, q)
    && d.outsideHits == c.outsideHits && q.hits == p.hits
    && d.retried - c.retried == q.attempt - p.attempt
  }

  lemma MoveIsLocal(w: World, s: State, g: nat, choice: Choice)
    requires GoodWorld(w) && g < |s.procs| && !s.procs[g].pc.Entering?
    ensures var t := Advance(w, s, g, choice); |t.procs| == |s.procs| && t.procs == s.procs[g := t.procs[g]]
  {
  }

  lemma EarlyMoveIsRecorded(w: World, s: State, g: nat, choice: Choice)
    requires GoodWorld(w) && g < |s.procs| && !s.procs[g].pc.Entering?
    requires NotBegun(s.procs[g].pc) || s.procs[g].pc.Begun?
    ensures Recorded(s, Advance(w, s, g, choice), g)
  {
  }

  lemma LateMoveIsRecorded(w: World, s: State, g: nat, choice: Choice)
    requires GoodWorld(w) && g < |s.procs| && ShapeOk(w, s.procs[g], g)
    requires !NotBegun(s.procs[g].pc) && !s.procs[g].pc.Begun?
    ensures |Advance(w, s, g, choice).procs| == |s.procs|
    ensures Recorded(s, Advance(w, s, g, choice), g)
  {
  }

  lemma MoveBalance(w: World, s: State, g: nat, choice: Choice)
    requires GoodWorld(w) && ShapesOk(w, s) && Balanced(s) && g < |s.procs| && !s.procs[g].pc.Entering?
    ensures Balanced(Advance(w, s, g, choice))
  {
    MoveIsLocal(w, s, g, choice);
    if NotBegun(s.procs[g].pc) || s.procs[g].pc.Begun? {
      EarlyMoveIsRecorded(w, s, g, choice);
    } else {
      LateMoveIsRecorded(w, s, g, choice);
    }
    SumsAfter(s.procs, Advance(w, s, g, choice).procs, g);
  }

  lemma StepKeepsBalance(w: World, s: State, a: Action)
    requires GoodWorld(w) && ShapesOk(w, s) && Balanced(s)
    ensures Balanced(Step(w, s, a))
  {
    match a
    case Send(session, turnId) =>
      forall m: Measure { SumAppend(m, s.procs, Proc(session, turnId, Entering, 1, 0, 0)); }
    case OutsideCancel(session) => CancelBalance(s, session);
    case Move(g, choice) =>
      if g < |s.procs| {
        if s.procs[g].pc.Entering? { EnterBalance(w, s, g, choice); } else { MoveBalance(w, s, g, choice); }
      }
  }

  lemma MoveKeepsShapes(w: World, s: State, g: nat, choice: Choice)
    requires GoodWorld(w) && g < |s.procs| && forall h | 0 <= h < |s.procs| :: ShapeOk(w, s.procs[h], h)
    ensures var t := Advance(w, s, g, choice);
      |t.procs| == |s.procs| && forall h | 0 <= h < |t.procs| :: ShapeOk(w, t.procs[h], h)
  {
  }

  lemma StepKeepsShapes(w: World, s: State, a: Action)
    requires GoodWorld(w) && ShapesOk(w, s)
    ensures ShapesOk(w, Step(w, s, a))
  {
    StepKeepsSlots(w, s, a);
    if a.Move? && a.runner < |s.procs| { MoveKeepsShapes(w, s, a.runner, a.choice); }
  }

  lemma {:induction false} RunKeepsBalance(w: World, s: State, actions: seq<Action>)
    requires GoodWorld(w) && ShapesOk(w, s) && Balanced(s)
    ensures ShapesOk(w, Run(w, s, actions)) && Balanced(Run(w, s, actions))
    decreases |actions|
  {
    if actions != [] {
      StepKeepsBalance(w, s, actions[0]);
      StepKeepsShapes(w, s, actions[0]);
      RunKeepsBalance(w, Step(w, s, actions[0]), actions[1..]);
    }
  }

  /** The balances hold in every reachable state. */
  lemma CountersBalance(w: World, actions: seq<Action>)
    requires GoodWorld(w)
    ensures Balanced(Run(w, START, actions))
  {
    RunKeepsBalance(w, START, actions);
  }

  ghost predicate Quiescent(s: State) { forall g | 0 <= g < |s.procs| :: s.procs[g].pc.Done? }

  lemma {:induction false} QuiescentSums(m: Measure, procs: seq<Proc>)
    requires m != Hits && m != Retries && forall g | 0 <= g < |procs| :: procs[g].pc.Done?
    ensures Sum(m, procs) == 0
    decreases |procs|
  {
    if procs != [] { QuiescentSums(m, procs[..|procs| - 1]); }
  }

  lemma SlotHasRunner(s: State, session: string)
    requires SlotsOk(s) && session in s.table
    ensures s.table[session].cancel < |s.procs| && Running(s.procs[s.table[session].cancel].pc)
  {
    assert SlotOk(s, session);
  }

  lemma NoSlotAtRest(s: State, session: string)
    requires SlotsOk(s) && Quiescent(s)
    ensures session !in s.table
  {
    if session in s.table {
      SlotHasRunner(s, session);
    }
  }

  /** At quiescence every accepted turn is counted exactly once as sent or rejected, every sent one
      has exactly one end, every response was dispatched, every successful cancellation was either a
      counted preemption or an outside one, no turn suffered two, and no slot is left behind. */
  lemma QuiescenceAddsUp(w: World, actions: seq<Action>)
    requires GoodWorld(w) && Quiescent(Run(w, START, actions))
    ensures var s := Run(w, START, actions); var c := s.count;
      && |s.procs| == c.sent + c.rejected
      && c.sent == c.ok + c.cancelled + c.timedOut + c.failed + c.panicked
      && c.responses == |s.log|
      && Sum(Hits, s.procs) == c.preempted + c.outsideHits
      && (forall g | 0 <= g < |s.procs| :: s.procs[g].hits <= 1)
      && s.table == map[]
  {
    RunKeepsBalance(w, START, actions);
    var s := Run(w, START, actions);
    QuiescentSums(Unaccounted, s.procs);
    QuiescentSums(Unsettled, s.procs);
    QuiescentSums(Undispatched, s.procs);
    QuiescentSums(Unpreempted, s.procs);
    forall session ensures session !in s.table {
      NoSlotAtRest(s, session);
    }
    assert s.table.Keys == {};
  }

  /** In every reachable state a turn has been cancelled successfully at most once, and never before
      it began. */
  lemma CancelHitsAtMostOnce(w: World, actions: seq<Action>, g: nat)
    requires GoodWorld(w) && g < |Run(w, START, actions).procs|
    ensures var p := Run(w, START, actions).procs[g]; p.hits <= 1 && (NotBegun(p.pc) ==> p.hits == 0)
  {
    RunKeepsBalance(w, START, actions);
  }
}
