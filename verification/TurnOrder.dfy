/** The order of dispatched responses: on each session they come in one contiguous block a turn, and
    the block of a turn is a prefix of what a single attempt delivered. */
module TurnOrder {
  import opened TurnProtocol
  import opened TurnSafety
  import ShardPool

  // ---------- contiguous blocks ----------

  /** On any one session, between two responses of a turn there is no response of another. */
  ghost predicate Contiguous(log: seq<Entry>)
  {
    forall i, j, k | 0 <= i < j < k < |log| ::
      log[i].session == log[j].session == log[k].session && log[i].runner == log[k].runner
      ==> log[j].runner == log[i].runner
  }

  ghost predicate Attributed(s: State)
  {
    forall k | 0 <= k < |s.log| ::
      && s.log[k].runner < |s.procs|
      && s.procs[s.log[k].runner].session == s.log[k].session
      && !NotBegun(s.procs[s.log[k].runner].pc)
  }

  /** Once a running turn has spoken, nobody else speaks on its session. */
  ghost predicate RunnersSpeakLast(s: State)
  {
    forall i, j | 0 <= i < j < |s.log| ::
      && s.log[i].runner < |s.procs| && Running(s.procs[s.log[i].runner].pc)
      && s.log[j].session == s.log[i].session
      ==> s.log[j].runner == s.log[i].runner
  }

  ghost predicate OrderOk(s: State)
  {
    SlotsOk(s) && Attributed(s) && Contiguous(s.log) && RunnersSpeakLast(s)
  }

  /** Two turns running on one session are one turn. */
  lemma OneRunnerPerSession(s: State, g: nat, h: nat)
    requires SlotsOk(s) && g < |s.procs| && h < |s.procs|
    requires Running(s.procs[g].pc) && Running(s.procs[h].pc) && s.procs[g].session == s.procs[h].session
    ensures g == h
  {
  }

  /** A step that dispatches nothing, changes no session, and moves no turn back before its Begin;
      a turn that begins has not spoken. */
  lemma SilentStepKeepsOrder(s: State, t: State)
    requires OrderOk(s) && SlotsOk(t) && t.log == s.log && |t.procs| >= |s.procs|
    requires forall g | 0 <= g < |s.procs| ::
      && t.procs[g].session == s.procs[g].session
      && (NotBegun(t.procs[g].pc) ==> NotBegun(s.procs[g].pc))
      && (Running(t.procs[g].pc) ==> Running(s.procs[g].pc) || NotBegun(s.procs[g].pc))
    ensures OrderOk(t)
  {
  }

  lemma DispatchKeepsOrder(s: State, t: State, g: nat, e: Entry)
    requires OrderOk(s) && SlotsOk(t) && g < |s.procs| && Running(s.procs[g].pc)
    requires e.runner == g && e.session == s.procs[g].session && t.log == s.log + [e]
    requires |t.procs| == |s.procs| && forall h | 0 <= h < |s.procs| ::
      && t.procs[h].session == s.procs[h].session
      && (Running(t.procs[h].pc) <==> Running(s.procs[h].pc)) && (NotBegun(t.procs[h].pc) <==> NotBegun(s.procs[h].pc))
    ensures OrderOk(t)
  {
    forall i, j | 0 <= i < j < |t.log| && t.log[i].runner < |t.procs| && Running(t.procs[t.log[i].runner].pc)
                  && t.log[j].session == t.log[i].session
      ensures t.log[j].runner == t.log[i].runner
    {
      if j == |s.log| {
        assert t.log[i] == s.log[i];
        OneRunnerPerSession(s, s.log[i].runner, g);
      }
    }
    forall i, j, k | 0 <= i < j < k < |t.log| && t.log[i].session == t.log[j].session == t.log[k].session
                     && t.log[i].runner == t.log[k].runner
      ensures t.log[j].runner == t.log[i].runner
    {
      assert t.log[i] == s.log[i] && t.log[j] == s.log[j];
    }
  }

  predicate Dispatches(w: World, s: State, g: nat)
    requires g < |s.procs|
  {
    var p := s.procs[g];
    p.pc.Dispatching? && 0 < p.position <= |w.stream(g, p.attempt)|
  }

  lemma SilentMoves(w: World, s: State, g: nat, choice: Choice)
    requires GoodWorld(w) && g < |s.procs| && !Dispatches(w, s, g)
    ensures var t := Advance(w, s, g, choice);
      && t.log == s.log && |t.procs| == |s.procs|
      && forall h | 0 <= h < |s.procs| ::
           && t.procs[h].session == s.procs[h].session
           && (NotBegun(t.procs[h].pc) ==> NotBegun(s.procs[h].pc))
           && (Running(t.procs[h].pc) ==> Running(s.procs[h].pc) || NotBegun(s.procs[h].pc))
  {
  }

  lemma StepKeepsOrder(w: World, s: State, a: Action)
    requires GoodWorld(w) && OrderOk(s)
    ensures OrderOk(Step(w, s, a))
  {
    var t := Step(w, s, a);
    StepKeepsSlots(w, s, a);
    match a
    case Send(session, turnId) => SilentStepKeepsOrder(s, t);
    case OutsideCancel(session) => SilentStepKeepsOrder(s, t);
    case Move(g, choice) =>
      if g < |s.procs| {
        if Dispatches(w, s, g) {
          DispatchKeepsOrder(s, t, g, t.log[|s.log|]);
        } else {
          SilentMoves(w, s, g, choice);
          SilentStepKeepsOrder(s, t);
        }
      }
  }

  lemma {:induction false} RunKeepsOrder(w: World, s: State, actions: seq<Action>)
    requires GoodWorld(w) && OrderOk(s)
    ensures OrderOk(Run(w, s, actions))
    decreases |actions|
  {
    if actions != [] {
      StepKeepsOrder(w, s, actions[0]);
      RunKeepsOrder(w, Step(w, s, actions[0]), actions[1..]);
    }
  }

  /** For any number of concurrent senders: between Begin and End a session's slot holds exactly the
      one runner that began it, and nobody else is running on that session. */
  lemma SlotHoldsItsRunner(w: World, actions: seq<Action>, g: nat)
    requires GoodWorld(w)
    requires g < |Run(w, START, actions).procs| && Running(Run(w, START, actions).procs[g].pc)
    ensures var s := Run(w, START, actions); var p := s.procs[g];
      && p.session in s.table && s.table[p.session].cancel == g && s.table[p.session].turnId == p.turnId
      && forall h | 0 <= h < |s.procs| :: Running(s.procs[h].pc) && s.procs[h].session == p.session ==> h == g
  {
    RunKeepsOrder(w, START, actions);
    var s := Run(w, START, actions);
    assert SlotOk(s, s.procs[g].session);
  }

  // ---------- what the registry tells ----------

  function Runners(s: State): set<nat> { set g: nat | g < |s.procs| && Running(s.procs[g].pc) }

  lemma {:induction false} InjectiveSize<K, V>(m: map<K, V>)
    requires forall x, y | x in m && y in m && m[x] == m[y] :: x == y
    ensures |m.Keys| == |m.Values|
    decreases |m.Keys|
  {
    if m.Keys == {} {
      assert m.Values == {};
    } else {
      var x :| x in m.Keys;
      var rest := m - {x};
      InjectiveSize(rest);
      assert m.Keys == rest.Keys + {x} && m.Values == rest.Values + {m[x]};
    }
  }

  /** Each registered session's cancel function. */
  function Registrants(s: State): map<string, nat> { map x | x in s.table :: s.table[x].cancel }

  lemma RegistrantsAreRunners(s: State)
    requires SlotsOk(s)
    ensures Registrants(s).Values == Runners(s) && Registrants(s).Keys == s.table.Keys
    ensures forall x, y | x in s.table && y in s.table && Registrants(s)[x] == Registrants(s)[y] :: x == y
  {
    forall x | x in s.table ensures s.table[x].cancel in Runners(s) && s.procs[s.table[x].cancel].session == x {
      assert SlotOk(s, x);
    }
    forall g | g in Runners(s) ensures g in Registrants(s).Values {
      assert s.procs[g].session in Registrants(s).Keys;
    }
  }

  /** The number of turns in flight is the number of goroutines between Begin and End, and asking for a
      session's turn finds one exactly while some goroutine runs on it: that goroutine's. */
  lemma RegistryTellsRunners(w: World, actions: seq<Action>, session: string)
    requires GoodWorld(w)
    ensures var s := Run(w, START, actions);
      && |s.table| == |Runners(s)|
      && (session in s.table <==> exists g :: g in Runners(s) && s.procs[g].session == session)
      && (forall g | g in Runners(s) && s.procs[g].session == session ::
            session in s.table && s.table[session].turnId == s.procs[g].turnId)
  {
    RunKeepsOrder(w, START, actions);
    var s := Run(w, START, actions);
    RegistrantsAreRunners(s);
    InjectiveSize(Registrants(s));
    assert |s.table| == |s.table.Keys|;
    if session in s.table {
      assert SlotOk(s, session);
      assert s.table[session].cancel in Runners(s);
    }
  }

  /** The dispatch log projected on a session is a concatenation of contiguous per-turn blocks, even
      when a cancelled turn still delivers late responses and even if turn identifiers repeat. */
  lemma DispatchesComeInBlocks(w: World, actions: seq<Action>)
    requires GoodWorld(w)
    ensures Contiguous(Run(w, START, actions).log)
  {
    RunKeepsOrder(w, START, actions);
  }

  // ---------- one attempt's responses ----------

  /** The responses dispatched for one turn, in order. */
  function Replies(log: seq<Entry>, g: nat): seq<Resp>
  {
    if log == [] then []
    else
      var e := log[|log| - 1];
      Replies(log[..|log| - 1], g) + (if e.runner == g then [e.resp] else [])
  }

  lemma OneMoreReply(log: seq<Entry>, e: Entry, g: nat)
    ensures Replies(log + [e], g) == Replies(log, g) + (if e.runner == g then [e.resp] else [])
  {
    assert (log + [e])[..|log|] == log;
  }

  /** How many responses of its current attempt a turn has dispatched. */
  function Delivered(p: Proc): int { if p.pc.Dispatching? then p.position - 1 else p.position }

  ghost predicate ReplyOk(w: World, s: State, g: nat)
    requires GoodWorld(w) && g < |s.procs|
  {
    var p := s.procs[g];
    && (p.attempt == 1 || (p.attempt == 2 && w.shards > 1))
    && 0 <= Delivered(p) <= p.position <= |w.stream(g, p.attempt)|
    && Replies(s.log, g) == w.stream(g, p.attempt)[..Delivered(p)]
    && (NotBegun(p.pc) || p.pc.Begun? ==> p.position == 0 && p.attempt == 1)
    && (p.pc.Retrying? ==> p.position == 0 && p.attempt == 1 && w.shards > 1)
    && (forall k | 0 <= k < |s.log| && s.log[k].runner == g ::
          s.log[k].attempt == p.attempt && s.log[k].shard == Shard(w, p))
  }

  ghost predicate RepliesOk(w: World, s: State)
    requires GoodWorld(w)
  {
    && (forall g | 0 <= g < |s.procs| :: ReplyOk(w, s, g))
    && (forall k | 0 <= k < |s.log| :: s.log[k].runner < |s.procs|)
  }

  lemma NoReplies(log: seq<Entry>, g: nat)
    ensures Replies(log, g) == [] <==> forall k | 0 <= k < |log| :: log[k].runner != g
  {
    if log != [] { NoReplies(log[..|log| - 1], g); }
  }

  /** Nobody else's step changes what holds of a turn's replies. */
  lemma OthersReplyOk(w: World, s: State, t: State, g: nat, h: nat)
    requires GoodWorld(w) && RepliesOk(w, s) && h < |s.procs| <= |t.procs| && h != g
    requires t.procs[h] == s.procs[h] || t.procs[h] == s.procs[h].(hits := s.procs[h].hits + 1)
    requires t.log == s.log || (|t.log| == |s.log| + 1 && t.log[..|s.log|] == s.log && t.log[|s.log|].runner == g)
    ensures ReplyOk(w, t, h)
  {
    assert ReplyOk(w, s, h);
    if t.log != s.log {
      OneMoreReply(s.log, t.log[|s.log|], h);
      assert t.log == s.log + [t.log[|s.log|]];
    }
  }

  /** A step that hands the response last received to the callback. */
  ghost predicate DispatchMove(w: World, s: State, t: State, g: nat)
    requires GoodWorld(w) && g < |s.procs| && g < |t.procs|
  {
    var p, q := s.procs[g], t.procs[g];
    && 0 < p.position <= |w.stream(g, p.attempt)|
    && t.log == s.log + [Entry(p.session, g, p.attempt, Shard(w, p), w.stream(g, p.attempt)[p.position - 1])]
    && (q.pc.Streaming? || q.pc.Ending?) && q == p.(pc := q.pc)
  }

  lemma DispatchMoves(w: World, s: State, g: nat, choice: Choice)
    requires GoodWorld(w) && g < |s.procs| && ReplyOk(w, s, g) && Dispatches(w, s, g)
    ensures |Advance(w, s, g, choice).procs| == |s.procs| && DispatchMove(w, s, Advance(w, s, g, choice), g)
  {
  }

  lemma DispatchReplyOk(w: World, s: State, t: State, g: nat)
    requires GoodWorld(w) && g < |s.procs| && g < |t.procs|
    requires ReplyOk(w, s, g) && s.procs[g].pc.Dispatching? && DispatchMove(w, s, t, g)
    ensures ReplyOk(w, t, g)
  {
    var p := s.procs[g];
    OneMoreReply(s.log, t.log[|s.log|], g);
    var stream := w.stream(g, p.attempt);
    assert stream[..p.position] == stream[..p.position - 1] + [stream[p.position - 1]];
  }

  lemma RetryReplyOk(w: World, s: State, g: nat, choice: Choice)
    requires GoodWorld(w) && g < |s.procs| && ReplyOk(w, s, g) && s.procs[g].pc.Retrying?
    ensures ReplyOk(w, Advance(w, s, g, choice), g)
  {
    NoReplies(s.log, g);
  }

  /** A step that dispatches nothing and starts no second attempt. */
  ghost predicate SilentMove(w: World, s: State, t: State, g: nat)
    requires GoodWorld(w) && g < |s.procs| && g < |t.procs|
  {
    var p, q := s.procs[g], t.procs[g];
    && t.log == s.log && q.session == p.session && q.attempt == p.attempt && Delivered(q) == Delivered(p)
    && Delivered(q) <= q.position <= |w.stream(g, q.attempt)|
    && (NotBegun(q.pc) || q.pc.Begun? ==> q.position == 0 && q.attempt == 1)
    && (q.pc.Retrying? ==> q.position == 0 && q.attempt == 1 && w.shards > 1)
  }

  lemma SilentMovesReply(w: World, s: State, g: nat, choice: Choice)
    requires GoodWorld(w) && g < |s.procs| && ReplyOk(w, s, g)
    requires !s.procs[g].pc.Retrying? && !Dispatches(w, s, g)
    ensures |Advance(w, s, g, choice).procs| == |s.procs| && SilentMove(w, s, Advance(w, s, g, choice), g)
  {
    if s.procs[g].pc.Streaming? { SilentStream(w, s, g, choice); }
  }

  lemma SilentStream(w: World, s: State, g: nat, choice: Choice)
    requires GoodWorld(w) && g < |s.procs| && ReplyOk(w, s, g) && s.procs[g].pc.Streaming?
    ensures |Advance(w, s, g, choice).procs| == |s.procs| && SilentMove(w, s, Advance(w, s, g, choice), g)
  {
  }

  lemma SilentReplyOk(w: World, s: State, t: State, g: nat)
    requires GoodWorld(w) && g < |s.procs| && g < |t.procs|
    requires ReplyOk(w, s, g) && SilentMove(w, s, t, g)
    ensures ReplyOk(w, t, g)
  {
  }

  lemma MoveKeepsReplies(w: World, s: State, g: nat, choice: Choice)
    requires GoodWorld(w) && RepliesOk(w, s) && g < |s.procs|
    ensures RepliesOk(w, Advance(w, s, g, choice))
  {
    var t := Advance(w, s, g, choice);
    assert ReplyOk(w, s, g);
    if Dispatches(w, s, g) {
      DispatchMoves(w, s, g, choice);
      DispatchReplyOk(w, s, t, g);
    } else if s.procs[g].pc.Retrying? {
      RetryReplyOk(w, s, g, choice);
    } else {
      SilentMovesReply(w, s, g, choice);
      SilentReplyOk(w, s, t, g);
    }
    MoveTouchesOne(w, s, g, choice);
    forall h | 0 <= h < |t.procs|
      ensures ReplyOk(w, t, h)
    {
      if h != g { OthersReplyOk(w, s, t, g, h); }
    }
  }

  lemma MoveTouchesOne(w: World, s: State, g: nat, choice: Choice)
    requires GoodWorld(w) && g < |s.procs|
    ensures var t := Advance(w, s, g, choice);
      && |t.procs| == |s.procs|
      && (forall h | 0 <= h < |s.procs| && h != g ::
            t.procs[h] == s.procs[h] || t.procs[h] == s.procs[h].(hits := s.procs[h].hits + 1))
      && (t.log == s.log || (|t.log| == |s.log| + 1 && t.log[..|s.log|] == s.log && t.log[|s.log|].runner == g))
  {
  }

  lemma StepKeepsReplies(w: World, s: State, a: Action)
    requires GoodWorld(w) && RepliesOk(w, s)
    ensures RepliesOk(w, Step(w, s, a))
  {
    var t := Step(w, s, a);
    match a
    case Send(session, turnId) =>
      forall h | 0 <= h < |t.procs|
        ensures ReplyOk(w, t, h)
      {
        if h < |s.procs| { assert ReplyOk(w, s, h); } else { NoReplies(s.log, h); }
      }
    case OutsideCancel(session) =>
      forall h | 0 <= h < |t.procs|
        ensures ReplyOk(w, t, h)
      {
        assert ReplyOk(w, s, h);
      }
    case Move(g, choice) => if g < |s.procs| { MoveKeepsReplies(w, s, g, choice); }
  }

  lemma {:induction false} RunKeepsReplies(w: World, s: State, actions: seq<Action>)
    requires GoodWorld(w) && RepliesOk(w, s)
    ensures RepliesOk(w, Run(w, s, actions))
    decreases |actions|
  {
    if actions != [] {
      StepKeepsReplies(w, s, actions[0]);
      RunKeepsReplies(w, Step(w, s, actions[0]), actions[1..]);
    }
  }

  /** A retry never mixes streams. A turn makes at most two attempts, the second on another shard
      than the first, and what is dispatched for it is a prefix of one attempt's responses, all of
      them from that attempt and its shard. */
  lemma RetryNeverMixes(w: World, actions: seq<Action>, g: nat)
    requires GoodWorld(w) && g < |Run(w, START, actions).procs|
    ensures var s := Run(w, START, actions); var p := s.procs[g];
      && p.attempt in {1, 2}
      && (p.attempt == 2 ==> Shard(w, p) != w.home(p.session))
      && (exists n | 0 <= n <= |w.stream(g, p.attempt)| :: Replies(s.log, g) == w.stream(g, p.attempt)[..n])
      && forall k | 0 <= k < |s.log| && s.log[k].runner == g ::
           s.log[k].attempt == p.attempt && s.log[k].shard == Shard(w, p)
  {
    RunKeepsReplies(w, START, actions);
    var s := Run(w, START, actions);
    assert ReplyOk(w, s, g);
    ShardPool.NeighbourDiffersIff(w.home(s.procs[g].session), w.shards);
    assert Replies(s.log, g) == w.stream(g, s.procs[g].attempt)[..Delivered(s.procs[g])];
  }
}
