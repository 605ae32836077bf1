/** Every counter says what it is named after. An observer who sees where goroutines stand and what their
    streams tell them, and none of the counters, notes how each turn ended and which errors it met; the
    counters are the tallies of those notes, and a second attempt is made for one kind of error only. */
module TurnEnds {
  import opened TurnRegistry
  import opened TurnProtocol

  datatype End = Completed | Broke(error: StreamError) | Threw | TurnedAway

  datatype Note = Note(runner: nat, end: End)

  /** A response that the callback is being given. */
  predicate InHand(w: World, p: Proc, g: nat) { p.pc.Dispatching? && 0 < p.position <= |w.stream(g, p.attempt)| }

  /** What a step ends, if it ends a turn. */
  function Noted(w: World, s: State, a: Action): seq<Note>
  {
    if !a.Move? || a.runner >= |s.procs| then []
    else
      var g, p := a.runner, s.procs[a.runner];
      if p.pc.Rejecting? then [Note(g, TurnedAway)]
      else if p.pc.Settling? then [Note(g, Broke(p.pc.error))]
      else if InHand(w, p, g) && a.choice.Panic? then [Note(g, Threw)]
      else if p.pc.Streaming? && !a.choice.Fail? && p.position >= |w.stream(g, p.attempt)| then [Note(g, Completed)]
      else []
  }

  function Notes(w: World, s: State, actions: seq<Action>): seq<Note>
    requires GoodWorld(w)
    decreases |actions|
  {
    if actions == [] then [] else Noted(w, s, actions[0]) + Notes(w, Step(w, s, actions[0]), actions[1..])
  }

  /** How many turns ended like this. */
  function Tally(notes: seq<Note>, end: End): nat
  {
    if notes == [] then 0
    else Tally(notes[..|notes| - 1], end) + (if notes[|notes| - 1].end == end then 1 else 0)
  }

  lemma TallySnoc(notes: seq<Note>, n: Note, end: End)
    ensures Tally(notes + [n], end) == Tally(notes, end) + (if n.end == end then 1 else 0)
  {
    assert (notes + [n])[..|notes|] == notes;
  }

  ghost predicate CountersTell(c: Counters, notes: seq<Note>)
  {
    && c.ok == Tally(notes, Completed)
    && c.cancelled == Tally(notes, Broke(Canceled))
    && c.timedOut == Tally(notes, Broke(DeadlineExceeded))
    && c.failed == Tally(notes, Broke(Unavailable)) + Tally(notes, Broke(OtherError))
    && c.panicked == Tally(notes, Threw)
    && c.rejected == Tally(notes, TurnedAway)
  }

  predicate Over(pc: Pc) { pc.Ending? || pc.Done? }

  /** Each turn is noted once, when it is over. */
  ghost predicate NotedOnce(s: State, notes: seq<Note>)
  {
    && (forall i, j | 0 <= i < j < |notes| :: notes[i].runner != notes[j].runner)
    && (forall i | 0 <= i < |notes| :: notes[i].runner < |s.procs| && Over(s.procs[notes[i].runner].pc))
    && (forall g | 0 <= g < |s.procs| && Over(s.procs[g].pc) :: exists i :: 0 <= i < |notes| && notes[i].runner == g)
  }

  lemma TallyAfter(notes: seq<Note>, more: seq<Note>, end: End)
    requires |more| <= 1
    ensures Tally(notes + more, end) == Tally(notes, end) + (if more != [] && more[0].end == end then 1 else 0)
  {
    if more == [] { assert notes + more == notes; } else { TallySnoc(notes, more[0], end); }
  }

  lemma TalliesAfter(notes: seq<Note>, more: seq<Note>)
    requires |more| <= 1
    ensures forall end :: Tally(notes + more, end)
                       == Tally(notes, end) + (if more != [] && more[0].end == end then 1 else 0)
  {
    forall end ensures Tally(notes + more, end)
                    == Tally(notes, end) + (if more != [] && more[0].end == end then 1 else 0) {
      TallyAfter(notes, more, end);
    }
  }

  /** The counter that a step moves, and the only one of these. */
  lemma StepCounts(w: World, s: State, a: Action)
    requires GoodWorld(w)
    ensures var c, d, n := s.count, Step(w, s, a).count, Noted(w, s, a);
      && d.ok == c.ok + (if n != [] && n[0].end == Completed then 1 else 0)
      && d.cancelled == c.cancelled + (if n != [] && n[0].end == Broke(Canceled) then 1 else 0)
      && d.timedOut == c.timedOut + (if n != [] && n[0].end == Broke(DeadlineExceeded) then 1 else 0)
      && d.failed == c.failed + (if n != [] && n[0].end in {Broke(Unavailable), Broke(OtherError)} then 1 else 0)
      && d.panicked == c.panicked + (if n != [] && n[0].end == Threw then 1 else 0)
      && d.rejected == c.rejected + (if n != [] && n[0].end == TurnedAway then 1 else 0)
  {
  }

  lemma StepTells(w: World, s: State, a: Action, notes: seq<Note>)
    requires GoodWorld(w) && CountersTell(s.count, notes)
    ensures CountersTell(Step(w, s, a).count, notes + Noted(w, s, a))
  {
    StepCounts(w, s, a);
    TalliesAfter(notes, Noted(w, s, a));
  }

  lemma OwnStepEnds(w: World, s: State, g: nat, choice: Choice)
    requires GoodWorld(w) && g < |s.procs|
    ensures |Advance(w, s, g, choice).procs| == |s.procs|
    ensures var n := Noted(w, s, Move(g, choice));
      && (Over(Advance(w, s, g, choice).procs[g].pc) <==> Over(s.procs[g].pc) || n != [])
      && (n != [] ==> !Over(s.procs[g].pc) && n[0].runner == g)
  {
  }

  /** A step ends its runner's turn or nobody's. */
  lemma StepEnds(w: World, s: State, a: Action, g: nat)
    requires GoodWorld(w) && g < |s.procs|
    ensures g < |Step(w, s, a).procs|
    ensures var n := Noted(w, s, a);
      && (Over(Step(w, s, a).procs[g].pc) <==> Over(s.procs[g].pc) || (n != [] && n[0].runner == g))
      && (n != [] && n[0].runner == g ==> !Over(s.procs[g].pc))
  {
    if a.Move? && a.runner == g { OwnStepEnds(w, s, g, a.choice); } else { OthersStepAlong(w, s, a, g); }
  }

  lemma NewcomersAreNotOver(w: World, s: State, a: Action, g: nat)
    requires GoodWorld(w) && |s.procs| <= g < |Step(w, s, a).procs|
    ensures !Over(Step(w, s, a).procs[g].pc)
  {
  }

  lemma StepNotesOnce(w: World, s: State, a: Action, notes: seq<Note>)
    requires GoodWorld(w) && NotedOnce(s, notes)
    ensures NotedOnce(Step(w, s, a), notes + Noted(w, s, a))
  {
    var t, n := Step(w, s, a), Noted(w, s, a);
    var all := notes + n;
    if n != [] { StepEnds(w, s, a, n[0].runner); }
    forall i | 0 <= i < |all| ensures all[i].runner < |t.procs| && Over(t.procs[all[i].runner].pc) {
      StepEnds(w, s, a, all[i].runner);
    }
    forall g | 0 <= g < |t.procs| && Over(t.procs[g].pc) ensures exists i :: 0 <= i < |all| && all[i].runner == g {
      if g >= |s.procs| {
        NewcomersAreNotOver(w, s, a, g);
      } else {
        StepEnds(w, s, a, g);
        if Over(s.procs[g].pc) {
          var i :| 0 <= i < |notes| && notes[i].runner == g;
          assert all[i].runner == g;
        } else {
          assert all[|notes|].runner == g;
        }
      }
    }
  }

  lemma Regroup<T>(a: seq<T>, b: seq<T>, c: seq<T>)
    ensures a + b + c == a + (b + c)
  {
  }

  lemma {:induction false} RunTells(w: World, s: State, actions: seq<Action>, notes: seq<Note>, all: seq<Note>)
    requires GoodWorld(w) && CountersTell(s.count, notes) && all == notes + Notes(w, s, actions)
    ensures CountersTell(Run(w, s, actions).count, all)
    decreases |actions|
  {
    if actions == [] {
      assert all == notes;
    } else {
      var n, t := Noted(w, s, actions[0]), Step(w, s, actions[0]);
      StepTells(w, s, actions[0], notes);
      Regroup(notes, n, Notes(w, t, actions[1..]));
      RunTells(w, t, actions[1..], notes + n, all);
    }
  }

  lemma {:induction false} RunNotesOnce(w: World, s: State, actions: seq<Action>, notes: seq<Note>, all: seq<Note>)
    requires GoodWorld(w) && NotedOnce(s, notes) && all == notes + Notes(w, s, actions)
    ensures NotedOnce(Run(w, s, actions), all)
    decreases |actions|
  {
    if actions == [] {
      assert all == notes;
    } else {
      var n, t := Noted(w, s, actions[0]), Step(w, s, actions[0]);
      StepNotesOnce(w, s, actions[0], notes);
      Regroup(notes, n, Notes(w, t, actions[1..]));
      RunNotesOnce(w, t, actions[1..], notes + n, all);
    }
  }

  /** In every reachable state each counter is the number of turns that ended that way: completed, cancelled,
      out of time, broken otherwise, in a panic, or turned away; and each turn that is over ended once. */
  lemma EveryEndIsCounted(w: World, actions: seq<Action>)
    requires GoodWorld(w)
    ensures CountersTell(Run(w, START, actions).count, Notes(w, START, actions))
    ensures NotedOnce(Run(w, START, actions), Notes(w, START, actions))
  {
    RunTells(w, START, actions, [], Notes(w, START, actions));
    RunNotesOnce(w, START, actions, [], Notes(w, START, actions));
  }

  // ---------- the errors a turn meets ----------

  /** An attempt that broke: which, after how many responses, and how. */
  datatype Break = Break(attempt: nat, responses: nat, error: StreamError)

  function BreakBy(s: State, a: Action, g: nat): seq<Break>
  {
    if a.Move? && a.runner == g && g < |s.procs| && s.procs[g].pc.Streaming? && a.choice.Fail?
    then [Break(s.procs[g].attempt, s.procs[g].position, a.choice.error)] else []
  }

  /** The breaks of one goroutine's attempts along a run. */
  function Breaks(w: World, s: State, actions: seq<Action>, g: nat): seq<Break>
    requires GoodWorld(w)
    decreases |actions|
  {
    if actions == [] then [] else BreakBy(s, actions[0], g) + Breaks(w, Step(w, s, actions[0]), actions[1..], g)
  }

  const NO_CONNECTION: Break := Break(1, 0, Unavailable)

  predicate TriedAgain(p: Proc) { p.pc.Retrying? || p.attempt == 2 }

  /** How the breaks so far show in where a goroutine stands. */
  ghost predicate BreaksShow(w: World, s: State, g: nat, breaks: seq<Break>)
  {
    if g >= |s.procs| then breaks == []
    else
      var p := s.procs[g];
      && 1 <= p.attempt <= 2 && |breaks| <= 2
      && (p.pc.Retrying? ==> p.attempt == 1)
      && (TriedAgain(p) <==> breaks != [] && breaks[0] == NO_CONNECTION && w.shards > 1)
      && (Unbroken(p.pc) ==> |breaks| == if TriedAgain(p) then 1 else 0)
      && (p.pc.Settling? ==> breaks != [] && breaks[|breaks| - 1].error == p.pc.error)
  }

  /** Before and during an attempt. */
  predicate Unbroken(pc: Pc) { !pc.Settling? && !Over(pc) }

  lemma StepShows(w: World, s: State, a: Action, g: nat, breaks: seq<Break>)
    requires GoodWorld(w) && BreaksShow(w, s, g, breaks)
    ensures BreaksShow(w, Step(w, s, a), g, breaks + BreakBy(s, a, g))
  {
    var t := Step(w, s, a);
    assert breaks + [] == breaks;
    if g < |s.procs| && a.Move? && a.runner == g {
      OwnStepShows(w, s, g, a.choice, breaks);
    } else if g < |s.procs| {
      OthersStepAlong(w, s, a, g);
    } else {
      NewcomersAreNew(w, s, a, g);
    }
  }

  lemma OwnStepShows(w: World, s: State, g: nat, choice: Choice, breaks: seq<Break>)
    requires GoodWorld(w) && g < |s.procs| && BreaksShow(w, s, g, breaks)
    ensures BreaksShow(w, Advance(w, s, g, choice), g, breaks + BreakBy(s, Move(g, choice), g))
  {
    assert breaks + [] == breaks;
    if s.procs[g].pc.Streaming? && choice.Fail? {
      var b := Break(s.procs[g].attempt, s.procs[g].position, choice.error);
      assert (breaks + [b])[|breaks|] == b;
    }
  }

  lemma OthersStepAlong(w: World, s: State, a: Action, g: nat)
    requires GoodWorld(w) && g < |s.procs| && !(a.Move? && a.runner == g)
    ensures g < |Step(w, s, a).procs|
    ensures Step(w, s, a).procs[g].pc == s.procs[g].pc && Step(w, s, a).procs[g].attempt == s.procs[g].attempt
  {
  }

  lemma NewcomersAreNew(w: World, s: State, a: Action, g: nat)
    requires GoodWorld(w) && g >= |s.procs|
    ensures var t := Step(w, s, a); g < |t.procs| ==> t.procs[g].pc.Entering? && t.procs[g].attempt == 1
  {
  }

  lemma {:induction false} RunShows(w: World, s: State, actions: seq<Action>, g: nat, breaks: seq<Break>)
    requires GoodWorld(w) && BreaksShow(w, s, g, breaks)
    ensures BreaksShow(w, Run(w, s, actions), g, breaks + Breaks(w, s, actions, g))
    decreases |actions|
  {
    if actions == [] {
      assert breaks + [] == breaks;
    } else {
      var b := BreakBy(s, actions[0], g);
      StepShows(w, s, actions[0], g, breaks);
      RunShows(w, Step(w, s, actions[0]), actions[1..], g, breaks + b);
      var rest := Breaks(w, Step(w, s, actions[0]), actions[1..], g);
      assert breaks + b + rest == breaks + (b + rest);
    }
  }

  /** In every reachable state a turn has gone to a second attempt if and only if its first broke without a
      connection before any response and there is another shard; and the error it is settling for is the last
      one it met. */
  lemma RetriedIff(w: World, actions: seq<Action>, g: nat)
    requires GoodWorld(w) && g < |Run(w, START, actions).procs|
    ensures var p, breaks := Run(w, START, actions).procs[g], Breaks(w, START, actions, g);
      && (TriedAgain(p) <==> breaks != [] && breaks[0] == NO_CONNECTION && w.shards > 1)
      && (p.pc.Settling? ==> breaks != [] && breaks[|breaks| - 1].error == p.pc.error)
  {
    RunShows(w, START, actions, g, []);
    assert [] + Breaks(w, START, actions, g) == Breaks(w, START, actions, g);
  }
}
