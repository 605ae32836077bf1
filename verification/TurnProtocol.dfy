/** The turn protocol: any number of sender goroutines, each a program counter, over one mutex-guarded
    table. Every locked section, every atomic counter and every callback is a step of its own. */
module TurnProtocol {
  import opened TurnRegistry
  import ShardPool

  type Resp = string

  /** Error classes of a stream, as the client tells them apart. */
  datatype StreamError = Unavailable | Canceled | DeadlineExceeded | OtherError

  /** What the outside world fixes for a run: the shards, and what each attempt's stream would
      deliver. How far a stream gets, and how it fails, is left open at every step. */
  datatype World = World(shards: nat, home: string -> nat, stream: (nat, nat) -> seq<Resp>)

  ghost predicate GoodWorld(w: World) { w.shards > 0 && forall s :: w.home(s) < w.shards }

  datatype Pc =
    | Entering      // about to cancel the session's turn
    | Preempting    // cancelled one, about to count that
    | Waiting       // polling for the slot
    | Beginning     // about to register
    | Rejecting     // registration refused, about to count that
    | Begun         // registered, about to count the turn as sent
    | Streaming
    | Dispatching   // received and counted a response, about to hand it to the callback
    | Retrying      // about to count a retry
    | Settling(error: StreamError)
    | Ending        // about to clear the slot
    | Done

  /** A sender. `position` counts the responses received in the current attempt, `hits` the
      successful cancellations aimed at this turn. */
  datatype Proc = Proc(session: string, turnId: string, pc: Pc, attempt: nat, position: nat, hits: nat)

  datatype Entry = Entry(session: string, runner: nat, attempt: nat, shard: nat, resp: Resp)

  /** The counters of the client; the last three exist only in the model. */
  datatype Counters = Counters(
    sent: nat, responses: nat, cancelled: nat, preempted: nat, rejected: nat, timedOut: nat, failed: nat, retried: nat,
    ok: nat, panicked: nat, outsideHits: nat)

  datatype State = State(procs: seq<Proc>, table: Table, count: Counters, log: seq<Entry>)

  const START: State := State([], map[], Counters(0, 0, 0, 0, 0, 0, 0, 0, 0, 0, 0), [])

  datatype Action =
    | Send(session: string, turnId: string)
    | OutsideCancel(session: string)           // CancelTurn, or the first act of CloseSession
    | Move(runner: nat, choice: Choice)

  /** How a goroutine's next step resolves what the model leaves open. */
  datatype Choice = Go | GiveUp | Panic | Fail(error: StreamError)

  function Shard(w: World, p: Proc): nat
    requires GoodWorld(w)
  {
    if p.attempt == 1 then w.home(p.session) else ShardPool.NextShard(w.home(p.session), w.shards)
  }

  /** Only a connection-level failure before the first response, and only once, goes to a neighbour. */
  predicate ShouldRetry(w: World, p: Proc, e: StreamError)
  {
    e == Unavailable && p.position == 0 && p.attempt == 1 && w.shards > 1
  }

  function At(s: State, g: nat, pc: Pc): State
    requires g < |s.procs|
  {
    s.(procs := s.procs[g := s.procs[g].(pc := pc)])
  }

  /** Cancelling on behalf of some session: the table changes, the turn's owner is hit. */
  function CancelSession(s: State, session: string): (r: (State, bool))
    ensures |r.0.procs| == |s.procs|
  {
    var r := Cancel(s.table, session);
    if r.1.None? then (s, false)
    else
      var g := r.1.value;
      (s.(table := r.0,
          procs := if g < |s.procs| then s.procs[g := s.procs[g].(hits := s.procs[g].hits + 1)] else s.procs),
       true)
  }

  function Step(w: World, s: State, a: Action): State
    requires GoodWorld(w)
  {
    match a
    case Send(session, turnId) =>
      if session == "" || turnId == "" then s
      else s.(procs := s.procs + [Proc(session, turnId, Entering, 1, 0, 0)])
    case OutsideCancel(session) =>
      var r := CancelSession(s, session);
      if r.1 then r.0.(count := s.count.(outsideHits := s.count.outsideHits + 1)) else s
    case Move(g, choice) => if g < |s.procs| then Advance(w, s, g, choice) else s
  }

  function Advance(w: World, s: State, g: nat, choice: Choice): State
    requires GoodWorld(w) && g < |s.procs|
  {
    var p := s.procs[g];
    match p.pc
    case Entering =>
      var r := CancelSession(s, p.session);
      if r.1 then At(r.0, g, Preempting) else At(s, g, Beginning)
    case Preempting => At(s, g, Waiting).(count := s.count.(preempted := s.count.preempted + 1))
    case Waiting => if p.session in s.table && choice != GiveUp then s else At(s, g, Beginning)
    case Beginning =>
      var r := Begin(s.table, p.session, p.turnId, g);
      if r.1 then At(s, g, Begun).(table := r.0) else At(s, g, Rejecting)
    case Rejecting => At(s, g, Done).(count := s.count.(rejected := s.count.rejected + 1))
    case Begun => At(s, g, Streaming).(count := s.count.(sent := s.count.sent + 1))
    case Streaming =>
      if choice.Fail? then At(s, g, if ShouldRetry(w, p, choice.error) then Retrying else Settling(choice.error))
      else if p.position < |w.stream(g, p.attempt)| then
        s.(procs := s.procs[g := p.(pc := Dispatching, position := p.position + 1)],
           count := s.count.(responses := s.count.responses + 1))
      else At(s, g, Ending).(count := s.count.(ok := s.count.ok + 1))
    case Dispatching =>
      if 0 < p.position <= |w.stream(g, p.attempt)| then
        var e := Entry(p.session, g, p.attempt, Shard(w, p), w.stream(g, p.attempt)[p.position - 1]);
        if choice == Panic then
          At(s, g, Ending).(log := s.log + [e], count := s.count.(panicked := s.count.panicked + 1))
        else At(s, g, Streaming).(log := s.log + [e])
      else s
    case Retrying =>
      s.(procs := s.procs[g := p.(pc := Streaming, attempt := 2, position := 0)],
         count := s.count.(retried := s.count.retried + 1))
    case Settling(e) => At(s, g, Ending).(count := Classify(s.count, e))
    case Ending => At(s, g, Done).(table := End(s.table, p.session, p.turnId))
    case Done => s
  }

  /** How an error ends a turn: cancelled, timed out, or failed. */
  function Classify(c: Counters, e: StreamError): Counters
  {
    match e
    case Canceled => c.(cancelled := c.cancelled + 1)
    case DeadlineExceeded => c.(timedOut := c.timedOut + 1)
    case _ => c.(failed := c.failed + 1)
  }

  function Run(w: World, s: State, actions: seq<Action>): State
    requires GoodWorld(w)
    decreases |actions|
  {
    if actions == [] then s else Run(w, Step(w, s, actions[0]), actions[1..])
  }
}
