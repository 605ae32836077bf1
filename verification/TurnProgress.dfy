/** Nobody gets stuck: from every reachable state every turn can be brought to its end by its own steps
    alone, whatever state the others are in; and every turn has a session and an identifier. */
module TurnProgress {
  import opened TurnRegistry
  import opened TurnProtocol
  import opened TurnSafety
  import opened TurnAccounting
  import opened TurnRefinement

  /** What brings a turn to its end soonest: it stops waiting, and its stream breaks. */
  function Hurry(pc: Pc): Choice
  {
    if pc.Waiting? then GiveUp else if pc.Streaming? then Fail(OtherError) else Go
  }

  /** How many such steps are left. */
  function Left(pc: Pc): nat
  {
    match pc
    case Entering => 9
    case Preempting => 8
    case Waiting => 7
    case Beginning => 6
    case Begun => 5
    case Dispatching => 4
    case Retrying => 4
    case Streaming => 3
    case Settling(_) => 2
    case Ending => 1
    case Rejecting => 1
    case Done => 0
  }

  lemma HurryingHelps(w: World, s: State, g: nat)
    requires GoodWorld(w) && g < |s.procs| && !s.procs[g].pc.Done? && ShapeOk(w, s.procs[g], g)
    ensures var t := Advance(w, s, g, Hurry(s.procs[g].pc));
            g < |t.procs| && Left(t.procs[g].pc) < Left(s.procs[g].pc)
  {
  }

  lemma {:induction false} TurnCanEnd(w: World, s: State, g: nat)
    requires GoodWorld(w) && ShapesOk(w, s) && g < |s.procs|
    ensures exists t :: Gets(w, s, t, g) && g < |t.procs| && t.procs[g].pc.Done?
    decreases Left(s.procs[g].pc)
  {
    if s.procs[g].pc.Done? {
      GetsNothing(w, s, g);
    } else {
      var choice := Hurry(s.procs[g].pc);
      var next := Advance(w, s, g, choice);
      HurryingHelps(w, s, g);
      StepKeepsShapes(w, s, Move(g, choice));
      assert next == Step(w, s, Move(g, choice));
      TurnCanEnd(w, next, g);
      var t :| Gets(w, next, t, g) && g < |t.procs| && t.procs[g].pc.Done?;
      GetsStep(w, s, t, g, choice);
    }
  }

  /** From every reachable state every turn can be brought to its end by steps of its own goroutine: no
      waiting, slot or stream of anybody else can hold it for good. */
  lemma EveryTurnCanEnd(w: World, actions: seq<Action>, g: nat)
    requires GoodWorld(w) && g < |Run(w, START, actions).procs|
    ensures exists t :: Gets(w, Run(w, START, actions), t, g) && g < |t.procs| && t.procs[g].pc.Done?
  {
    RunKeepsBalance(w, START, actions);
    TurnCanEnd(w, Run(w, START, actions), g);
  }

  // ---------- who is let in ----------

  ghost predicate AllNamed(s: State)
  {
    forall g | 0 <= g < |s.procs| :: s.procs[g].session != "" && s.procs[g].turnId != ""
  }

  lemma StepKeepsNames(w: World, s: State, a: Action)
    requires GoodWorld(w) && AllNamed(s)
    ensures AllNamed(Step(w, s, a))
  {
    if a.Move? && a.runner < |s.procs| {
      forall h | 0 <= h < |s.procs|
        ensures h < |Step(w, s, a).procs| && SameName(s.procs[h], Step(w, s, a).procs[h])
      {
        if h == a.runner {
          OwnNameStays(w, s, h, a.choice);
        } else {
          OtherNamesStay(w, s, a.runner, a.choice, h);
        }
      }
      assert |Step(w, s, a).procs| == |s.procs|;
    }
  }

  predicate SameName(p: Proc, q: Proc) { q.session == p.session && q.turnId == p.turnId }

  lemma OwnNameStays(w: World, s: State, g: nat, choice: Choice)
    requires GoodWorld(w) && g < |s.procs|
    ensures var t := Advance(w, s, g, choice); |t.procs| == |s.procs| && SameName(s.procs[g], t.procs[g])
  {
  }

  lemma OtherNamesStay(w: World, s: State, g: nat, choice: Choice, h: nat)
    requires GoodWorld(w) && g < |s.procs| && h < |s.procs| && h != g
    ensures var t := Advance(w, s, g, choice); |t.procs| == |s.procs| && SameName(s.procs[h], t.procs[h])
  {
  }

  lemma {:induction false} RunKeepsNames(w: World, s: State, actions: seq<Action>)
    requires GoodWorld(w) && AllNamed(s)
    ensures AllNamed(Run(w, s, actions))
    decreases |actions|
  {
    if actions != [] {
      StepKeepsNames(w, s, actions[0]);
      RunKeepsNames(w, Step(w, s, actions[0]), actions[1..]);
    }
  }

  /** Every turn that was let in has a session and an identifier, and whatever has both is let in. */
  lemma OnlyNamedTurnsAreLetIn(w: World, actions: seq<Action>, session: string, turnId: string)
    requires GoodWorld(w)
    ensures AllNamed(Run(w, START, actions))
    ensures var s := Run(w, START, actions);
            |Step(w, s, Send(session, turnId)).procs|
              == |s.procs| + if session != "" && turnId != "" then 1 else 0
  {
    RunKeepsNames(w, START, actions);
  }
}
