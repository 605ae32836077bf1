/** The two views of a turn agree: what its goroutine does in the protocol when nobody interferes is what
    the turn does as a method. */
module TurnRefinement {
  import opened Prelude
  import opened TurnRegistry
  import opened TurnProtocol
  import opened TurnClient

  /** Steps of one goroutine only. */
  function Alone(w: World, s: State, g: nat, choices: seq<Choice>): State
    requires GoodWorld(w)
    decreases |choices|
  {
    if choices == [] || g >= |s.procs| then s else Alone(w, Advance(w, s, g, choices[0]), g, choices[1..])
  }

  ghost predicate Gets(w: World, s: State, t: State, g: nat)
    requires GoodWorld(w)
  {
    exists choices :: t == Alone(w, s, g, choices)
  }

  ghost predicate Reaches(w: World, s: State, t: State)
    requires GoodWorld(w)
  {
    exists actions :: t == Run(w, s, actions)
  }

  /** Such steps are steps of the protocol. */
  lemma {:induction false} AloneIsARun(w: World, s: State, g: nat, choices: seq<Choice>)
    requires GoodWorld(w)
    ensures Reaches(w, s, Alone(w, s, g, choices))
    decreases |choices|
  {
    if choices == [] || g >= |s.procs| {
      assert Alone(w, s, g, choices) == Run(w, s, []);
    } else {
      var a := Move(g, choices[0]);
      AloneIsARun(w, Step(w, s, a), g, choices[1..]);
      var rest :| Alone(w, Step(w, s, a), g, choices[1..]) == Run(w, Step(w, s, a), rest);
      assert ([a] + rest)[0] == a && ([a] + rest)[1..] == rest;
      assert Alone(w, s, g, choices) == Run(w, s, [a] + rest);
    }
  }

  lemma GetsIsARun(w: World, s: State, t: State, g: nat)
    requires GoodWorld(w) && Gets(w, s, t, g)
    ensures Reaches(w, s, t)
  {
    var choices :| t == Alone(w, s, g, choices);
    AloneIsARun(w, s, g, choices);
  }

  lemma {:induction false} AloneSplit(w: World, s: State, g: nat, a: seq<Choice>, b: seq<Choice>)
    requires GoodWorld(w)
    ensures Alone(w, s, g, a + b) == Alone(w, Alone(w, s, g, a), g, b)
    decreases |a|
  {
    if a == [] {
      assert a + b == b;
    } else if g < |s.procs| {
      assert (a + b)[0] == a[0] && (a + b)[1..] == a[1..] + b;
      AloneSplit(w, Advance(w, s, g, a[0]), g, a[1..], b);
    }
  }

  lemma GetsNothing(w: World, s: State, g: nat)
    requires GoodWorld(w)
    ensures Gets(w, s, s, g)
  {
    assert s == Alone(w, s, g, []);
  }

  lemma GetsStep(w: World, s: State, t: State, g: nat, choice: Choice)
    requires GoodWorld(w) && g < |s.procs| && Gets(w, Advance(w, s, g, choice), t, g)
    ensures Gets(w, s, t, g)
  {
    var rest :| t == Alone(w, Advance(w, s, g, choice), g, rest);
    assert ([choice] + rest)[0] == choice && ([choice] + rest)[1..] == rest;
    assert t == Alone(w, s, g, [choice] + rest);
  }

  lemma GetsTransitive(w: World, s: State, t: State, u: State, g: nat)
    requires GoodWorld(w) && Gets(w, s, t, g) && Gets(w, t, u, g)
    ensures Gets(w, s, u, g)
  {
    var a :| t == Alone(w, s, g, a);
    var b :| u == Alone(w, t, g, b);
    AloneSplit(w, s, g, a, b);
  }

  // ---------- one attempt ----------

  /** The log entries of one runner's responses. */
  function Entries(w: World, p: Proc, g: nat, responses: seq<Resp>): seq<Entry>
    requires GoodWorld(w)
  {
    if responses == [] then []
    else [Entry(p.session, g, p.attempt, Shard(w, p), responses[0])] + Entries(w, p, g, responses[1..])
  }

  /** The state after this much has been dispatched. */
  function Spoke(w: World, s: State, g: nat, spoken: seq<Resp>, panicked: bool): State
    requires GoodWorld(w) && g < |s.procs|
  {
    var p := s.procs[g];
    s.(procs := s.procs[g := p.(position := p.position + |spoken|, pc := if panicked then Ending else Streaming)],
       log := s.log + Entries(w, p, g, spoken),
       count := s.count.(responses := s.count.responses + |spoken|,
                         panicked := s.count.panicked + if panicked then 1 else 0))
  }

  /** The state once the rest of a stream has been received and dispatched: at its end, or at a panic. */
  function Streamed(w: World, s: State, g: nat, rest: seq<Resp>, panics: Resp -> bool): State
    requires GoodWorld(w) && g < |s.procs|
  {
    Spoke(w, s, g, Spoken(rest, panics), Panics(rest, panics))
  }

  /** Receiving and dispatching one response. */
  function AfterOne(w: World, s: State, g: nat, r: Resp, panics: bool): State
    requires GoodWorld(w) && g < |s.procs|
  {
    var p := s.procs[g];
    s.(procs := s.procs[g := p.(position := p.position + 1, pc := if panics then Ending else Streaming)],
       log := s.log + [Entry(p.session, g, p.attempt, Shard(w, p), r)],
       count := s.count.(responses := s.count.responses + 1,
                         panicked := s.count.panicked + if panics then 1 else 0))
  }

  lemma OneResponse(w: World, s: State, g: nat, panics: bool)
    requires GoodWorld(w) && g < |s.procs| && s.procs[g].pc.Streaming?
    requires s.procs[g].position < |w.stream(g, s.procs[g].attempt)|
    ensures var p := s.procs[g];
            Gets(w, s, AfterOne(w, s, g, w.stream(g, p.attempt)[p.position], panics), g)
  {
    var p := s.procs[g];
    var t := AfterOne(w, s, g, w.stream(g, p.attempt)[p.position], panics);
    var received := Advance(w, s, g, Go);
    assert Advance(w, received, g, if panics then Panic else Go) == t;
    GetsNothing(w, t, g);
    GetsStep(w, received, t, g, if panics then Panic else Go);
    GetsStep(w, s, t, g, Go);
  }

  lemma PanicsNext(rest: seq<Resp>, panics: Resp -> bool)
    requires rest != []
    ensures Panics(rest, panics) <==> panics(rest[0]) || Panics(rest[1..], panics)
  {
    if Panics(rest, panics) && !panics(rest[0]) {
      var r :| r in rest && panics(r);
      assert r in rest[1..];
    }
  }

  lemma SpokeNext(w: World, s: State, g: nat, r: Resp, more: seq<Resp>, panicked: bool)
    requires GoodWorld(w) && g < |s.procs|
    ensures Spoke(w, s, g, [r] + more, panicked) == Spoke(w, AfterOne(w, s, g, r, false), g, more, panicked)
  {
    var p, t := s.procs[g], AfterOne(w, s, g, r, false);
    SameRunnerSameEntries(w, p, t.procs[g], g, more);
    assert ([r] + more)[1..] == more;
    assert s.log + ([Entry(p.session, g, p.attempt, Shard(w, p), r)] + Entries(w, p, g, more))
        == t.log + Entries(w, t.procs[g], g, more);
  }

  lemma StreamedNext(w: World, s: State, g: nat, rest: seq<Resp>, panics: Resp -> bool)
    requires GoodWorld(w) && g < |s.procs| && rest != [] && !panics(rest[0])
    ensures Streamed(w, s, g, rest, panics)
         == Streamed(w, AfterOne(w, s, g, rest[0], false), g, rest[1..], panics)
  {
    PanicsNext(rest, panics);
    SpokeNext(w, s, g, rest[0], Spoken(rest[1..], panics), Panics(rest, panics));
  }

  lemma {:induction false} SameRunnerSameEntries(w: World, p: Proc, q: Proc, g: nat, responses: seq<Resp>)
    requires GoodWorld(w) && p.session == q.session && p.attempt == q.attempt
    ensures Entries(w, p, g, responses) == Entries(w, q, g, responses)
    decreases |responses|
  {
    if responses != [] { SameRunnerSameEntries(w, p, q, g, responses[1..]); }
  }

  lemma {:induction false} StreamIsReceived(w: World, s: State, g: nat, panics: Resp -> bool)
    requires GoodWorld(w) && g < |s.procs| && s.procs[g].pc.Streaming?
    requires s.procs[g].position <= |w.stream(g, s.procs[g].attempt)|
    ensures var p := s.procs[g];
            Gets(w, s, Streamed(w, s, g, w.stream(g, p.attempt)[p.position..], panics), g)
    decreases |w.stream(g, s.procs[g].attempt)| - s.procs[g].position
  {
    var p := s.procs[g];
    var stream := w.stream(g, p.attempt);
    var rest := stream[p.position..];
    if rest == [] {
      assert s.procs[g := p] == s.procs;
      assert Streamed(w, s, g, rest, panics) == s;
      GetsNothing(w, s, g);
    } else {
      assert rest[0] == stream[p.position] && rest[1..] == stream[p.position + 1..];
      OneResponse(w, s, g, panics(rest[0]));
      if panics(rest[0]) {
        PanicsNext(rest, panics);
        assert Entries(w, p, g, [rest[0]])
            == [Entry(p.session, g, p.attempt, Shard(w, p), rest[0])] + Entries(w, p, g, []);
        assert Streamed(w, s, g, rest, panics) == AfterOne(w, s, g, rest[0], true);
      } else {
        var t := AfterOne(w, s, g, rest[0], false);
        StreamIsReceived(w, t, g, panics);
        StreamedNext(w, s, g, rest, panics);
        GetsTransitive(w, s, t, Streamed(w, s, g, rest, panics), g);
      }
    }
  }

  // ---------- the whole turn ----------

  /** How an attempt ends the turn: its end counted, its slot cleared. */
  function Closed(s: State, g: nat, count: Counters): State
    requires g < |s.procs|
  {
    var p := s.procs[g];
    s.(procs := s.procs[g := p.(pc := Done)], table := End(s.table, p.session, p.turnId), count := count)
  }

  lemma EndingCloses(w: World, s: State, g: nat)
    requires GoodWorld(w) && g < |s.procs| && s.procs[g].pc.Ending?
    ensures Gets(w, s, Closed(s, g, s.count), g)
  {
    var t := Advance(w, s, g, Go);
    assert t == Closed(s, g, s.count);
    GetsNothing(w, t, g);
    GetsStep(w, s, t, g, Go);
  }

  lemma StreamEndCloses(w: World, s: State, g: nat)
    requires GoodWorld(w) && g < |s.procs| && s.procs[g].pc.Streaming?
    requires s.procs[g].position >= |w.stream(g, s.procs[g].attempt)|
    ensures Gets(w, s, Closed(s, g, s.count.(ok := s.count.ok + 1)), g)
  {
    var t := Advance(w, s, g, Go);
    EndingCloses(w, t, g);
    assert Closed(t, g, t.count) == Closed(s, g, s.count.(ok := s.count.ok + 1));
    GetsStep(w, s, Closed(t, g, t.count), g, Go);
  }

  lemma ErrorCloses(w: World, s: State, g: nat, e: StreamError)
    requires GoodWorld(w) && g < |s.procs| && s.procs[g].pc.Streaming? && !ShouldRetry(w, s.procs[g], e)
    ensures Gets(w, s, Closed(s, g, Classify(s.count, e)), g)
  {
    var t := Advance(w, s, g, Fail(e));
    var u := Advance(w, t, g, Go);
    EndingCloses(w, u, g);
    assert Closed(u, g, u.count) == Closed(s, g, Classify(s.count, e));
    GetsStep(w, t, Closed(u, g, u.count), g, Go);
    GetsStep(w, s, Closed(u, g, u.count), g, Fail(e));
  }

  /** The counters once an attempt that is not retried has run from its beginning. */
  function AttemptCount(c: Counters, a: Attempt, panics: Resp -> bool): Counters
  {
    var d := c.(responses := c.responses + |Spoken(a.responses, panics)|);
    match OutcomeOf(a, panics)
    case Finished => d.(ok := d.ok + 1)
    case Panicked => d.(panicked := d.panicked + 1)
    case Broken(e) => Classify(d, e)
  }

  /** The state at the end of such an attempt. */
  function AttemptDone(w: World, s: State, g: nat, a: Attempt, panics: Resp -> bool): State
    requires GoodWorld(w) && g < |s.procs|
  {
    var t := Streamed(w, s, g, a.responses, panics);
    Closed(t, g, AttemptCount(s.count, a, panics))
  }

  lemma AttemptRuns(w: World, s: State, g: nat, a: Attempt, panics: Resp -> bool)
    requires GoodWorld(w) && g < |s.procs| && s.procs[g].pc.Streaming? && s.procs[g].position == 0
    requires w.stream(g, s.procs[g].attempt) == a.responses
    requires a.error.Some? && a.responses == [] ==> !ShouldRetry(w, s.procs[g], a.error.value)
    ensures Gets(w, s, AttemptDone(w, s, g, a, panics), g)
  {
    var p := s.procs[g];
    var t := Streamed(w, s, g, a.responses, panics);
    assert a.responses[0..] == a.responses;
    StreamIsReceived(w, s, g, panics);
    if Panics(a.responses, panics) {
      EndingCloses(w, t, g);
    } else {
      SpokenIsPrefix(a.responses, panics);
      NoPanicSpeaksAll(a.responses, panics);
      if a.error.None? { StreamEndCloses(w, t, g); } else { ErrorCloses(w, t, g, a.error.value); }
    }
    GetsTransitive(w, s, t, AttemptDone(w, s, g, a, panics), g);
  }

  lemma NoPanicSpeaksAll(responses: seq<Resp>, panics: Resp -> bool)
    requires !Panics(responses, panics)
    ensures Spoken(responses, panics) == responses
  {
    SpokenIsPrefix(responses, panics);
    var r := Spoken(responses, panics);
    assert r != [] ==> r[|r| - 1] in responses;
  }

  /** The end of a turn as the model counts it beside the client's own counters. */
  function EndCounted(c: Counters, o: Outcome): Counters
  {
    match o
    case Finished => c.(ok := c.ok + 1)
    case Panicked => c.(panicked := c.panicked + 1)
    case Broken(_) => c
  }

  /** The state is what the method leaves: the dispatched responses, the counters, the cleared slot. */
  ghost predicate LikeRunTurn(w: World, s: State, t: State, g: nat, first: Attempt, second: Attempt,
                              panics: Resp -> bool)
    requires GoodWorld(w) && g < |s.procs|
  {
    var p, a := s.procs[g], Chosen(first, second, w.shards);
    && |t.procs| == |s.procs| && t.procs[g].pc.Done?
    && t.procs[g].attempt == (if Retries(first, w.shards) then 2 else 1)
    && t.table == End(s.table, p.session, p.turnId)
    && t.log == s.log + Entries(w, p.(attempt := t.procs[g].attempt), g, Spoken(a.responses, panics))
    && t.count == EndCounted(Counted(s.count, first, second, w.shards, panics), OutcomeOf(a, panics))
  }

  lemma OneAttemptIsRunTurn(w: World, s: State, g: nat, first: Attempt, second: Attempt, panics: Resp -> bool)
    requires GoodWorld(w) && g < |s.procs| && s.procs[g].pc.Streaming?
    requires s.procs[g].position == 0 && s.procs[g].attempt == 1
    requires w.stream(g, 1) == first.responses && !Retries(first, w.shards)
    ensures Gets(w, s, AttemptDone(w, s, g, first, panics), g)
    ensures LikeRunTurn(w, s, AttemptDone(w, s, g, first, panics), g, first, second, panics)
  {
    AttemptRuns(w, s, g, first, panics);
    assert s.procs[g].(attempt := 1) == s.procs[g];
  }

  /** The second attempt of a turn, on the neighbouring shard. */
  function Retried(s: State, g: nat): State
    requires g < |s.procs|
  {
    s.(procs := s.procs[g := s.procs[g].(pc := Streaming, attempt := 2, position := 0)],
       count := s.count.(retried := s.count.retried + 1))
  }

  lemma RetryIsReached(w: World, s: State, g: nat)
    requires GoodWorld(w) && g < |s.procs| && s.procs[g].pc.Streaming?
    requires s.procs[g].position == 0 && s.procs[g].attempt == 1 && w.shards > 1
    ensures Gets(w, s, Retried(s, g), g)
  {
    var t := Advance(w, s, g, Fail(Unavailable));
    assert Advance(w, t, g, Go) == Retried(s, g);
    GetsNothing(w, Retried(s, g), g);
    GetsStep(w, t, Retried(s, g), g, Go);
    GetsStep(w, s, Retried(s, g), g, Fail(Unavailable));
  }

  lemma TwoAttemptsAreRunTurn(w: World, s: State, g: nat, first: Attempt, second: Attempt, panics: Resp -> bool)
    requires GoodWorld(w) && g < |s.procs| && s.procs[g].pc.Streaming?
    requires s.procs[g].position == 0 && s.procs[g].attempt == 1
    requires w.stream(g, 2) == second.responses && Retries(first, w.shards)
    ensures Gets(w, s, AttemptDone(w, Retried(s, g), g, second, panics), g)
    ensures LikeRunTurn(w, s, AttemptDone(w, Retried(s, g), g, second, panics), g, first, second, panics)
  {
    RetryIsReached(w, s, g);
    AttemptRuns(w, Retried(s, g), g, second, panics);
    GetsTransitive(w, s, Retried(s, g), AttemptDone(w, Retried(s, g), g, second, panics), g);
    SameRunnerSameEntries(w, Retried(s, g).procs[g], s.procs[g].(attempt := 2), g, Spoken(second.responses, panics));
  }

  /** A turn that has begun, left to itself: for any two attempts and any callback its goroutine can reach
      the end, and leaves there what the method leaves. */
  lemma LoneTurnIsRunTurn(w: World, s: State, g: nat, first: Attempt, second: Attempt, panics: Resp -> bool)
    requires GoodWorld(w) && g < |s.procs| && s.procs[g].pc.Streaming?
    requires s.procs[g].position == 0 && s.procs[g].attempt == 1
    requires w.stream(g, 1) == first.responses && w.stream(g, 2) == second.responses
    ensures exists t :: Reaches(w, s, t) && Gets(w, s, t, g) && LikeRunTurn(w, s, t, g, first, second, panics)
  {
    if Retries(first, w.shards) {
      TwoAttemptsAreRunTurn(w, s, g, first, second, panics);
    } else {
      OneAttemptIsRunTurn(w, s, g, first, second, panics);
    }
    var t :| Gets(w, s, t, g) && LikeRunTurn(w, s, t, g, first, second, panics);
    GetsIsARun(w, s, t, g);
  }
}
