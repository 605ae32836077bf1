/** Many recognition sessions behind one dispatch loop and one table: workers of all sessions side by
    side, each session seeing only what concerns it. */
module AsrDemux {
  import opened Prelude
  import opened Ring
  import opened AsrWorker
  import opened Tags

  // ---------- the recogniser: one list of workers, one table ----------

  /** A worker, and whether whoever took it out of the table has still to close its queue. */
  datatype Served = Served(worker: Worker, closing: bool)

  /** Every worker ever started, tagged with the identifier it was started for, and for each registered
      session the worker that serves it. */
  datatype Demux = Demux(workers: seq<Tagged<Served>>, table: map<string, nat>)

  const NO_SESSIONS: Demux := Demux([], map[])

  const NEW: Served := Served(NewWorker(), false)

  /** Closing a session takes two steps: out of the table under its lock, and then, without it, the queue.
      Audio may be delivered in between. */
  datatype Action =
    | Lookup(id: string)                    // the dispatch loop fetches or creates the session
    | Deliver(k: nat, chunk: Chunk)         // and pushes into the queue of the worker it fetched
    | Unregister(id: string)                // idle cleaner, connection callback
    | CloseQueue(k: nat)                    // whoever unregistered the worker closes its queue
    | MoveWorker(k: nat, connected: bool)
    | StopAll                               // the input has ended: every registered queue is to be closed

  function SetWorker(d: Demux, k: nat, w: Served): Demux
  {
    if k < |d.workers| then d.(workers := d.workers[k := d.workers[k].(item := w)]) else d
  }

  /** Takes out whichever worker is registered, which need not be the one that asks. */
  function TakeOut(d: Demux, id: string): Demux
  {
    if id !in d.table then d
    else
      var k := d.table[id];
      var marked := if k < |d.workers| then SetWorker(d, k, d.workers[k].item.(closing := true)) else d;
      marked.(table := d.table - {id})
  }

  predicate Registered(d: Demux, k: nat)
    requires k < |d.workers|
  {
    d.workers[k].id in d.table && d.table[d.workers[k].id] == k
  }

  function Offered(v: Served, c: Chunk): Served { v.(worker := Offer(v.worker, c)) }

  function QueueClosed(v: Served): Served
  {
    if v.closing then Served(AsrWorker.CloseQueue(v.worker), false) else v
  }

  /** Chunks without a session identifier are skipped. A worker that leaves takes its session out of the table. */
  function Step(d: Demux, a: Action): Demux
  {
    match a
    case Lookup(id) =>
      if id == "" || id in d.table then d
      else Demux(d.workers + [Tagged(id, NEW)], d.table[id := |d.workers|])
    case Deliver(k, c) => if k < |d.workers| then SetWorker(d, k, Offered(d.workers[k].item, c)) else d
    case Unregister(id) => TakeOut(d, id)
    case CloseQueue(k) => if k < |d.workers| then SetWorker(d, k, QueueClosed(d.workers[k].item)) else d
    case MoveWorker(k, connected) =>
      if k >= |d.workers| then d
      else
        var r := AsrWorker.Advance(d.workers[k].item.worker, connected);
        var t := SetWorker(d, k, d.workers[k].item.(worker := r.0));
        if r.1 then TakeOut(t, d.workers[k].id) else t
    case StopAll =>
      Demux(seq(|d.workers|, k requires 0 <= k < |d.workers| =>
              if Registered(d, k) then d.workers[k].(item := d.workers[k].item.(closing := true))
              else d.workers[k]),
            map[])
  }

  function Run(d: Demux, actions: seq<Action>): Demux
    decreases |actions|
  {
    if actions == [] then d else Run(Step(d, actions[0]), actions[1..])
  }

  // ---------- one session by itself ----------

  /** The workers started for one identifier, and which of them is registered. */
  datatype Session = Session(current: Option<nat>, workers: seq<Served>)

  const UNUSED: Session := Session(None, [])

  datatype SessionEvent =
    | Fetched
    | Given(worker: nat, chunk: Chunk)
    | Ended
    | Shut(worker: nat)
    | Moved(worker: nat, connected: bool)

  function EndCurrent(s: Session): Session
  {
    if s.current.None? then s
    else
      var k := s.current.value;
      Session(None, if k < |s.workers| then s.workers[k := s.workers[k].(closing := true)] else s.workers)
  }

  function StepSession(s: Session, e: SessionEvent): Session
  {
    match e
    case Fetched => if s.current.Some? then s else Session(Some(|s.workers|), s.workers + [NEW])
    case Given(k, c) => if k < |s.workers| then s.(workers := s.workers[k := Offered(s.workers[k], c)]) else s
    case Ended => EndCurrent(s)
    case Shut(k) => if k < |s.workers| then s.(workers := s.workers[k := QueueClosed(s.workers[k])]) else s
    case Moved(k, connected) =>
      if k >= |s.workers| then s
      else
        var r := AsrWorker.Advance(s.workers[k].worker, connected);
        var t := s.(workers := s.workers[k := s.workers[k].(worker := r.0)]);
        if r.1 then EndCurrent(t) else t
  }

  function RunSession(s: Session, events: seq<SessionEvent>): Session
    decreases |events|
  {
    if events == [] then s else RunSession(StepSession(s, events[0]), events[1..])
  }

  // ---------- what one session sees of the recogniser ----------

  function Project(d: Demux, id: string): Session
  {
    Session(if id in d.table && d.table[id] < |d.workers| then Some(Rank(d.workers, d.table[id])) else None,
            Own(d.workers, id))
  }

  /** What an action means for one session. */
  function SeenBy(d: Demux, a: Action, id: string): seq<SessionEvent>
  {
    match a
    case Lookup(who) => if who == id && id != "" then [Fetched] else []
    case Deliver(k, c) => if k < |d.workers| && d.workers[k].id == id then [Given(Rank(d.workers, k), c)] else []
    case Unregister(who) => if who == id then [Ended] else []
    case CloseQueue(k) => if k < |d.workers| && d.workers[k].id == id then [Shut(Rank(d.workers, k))] else []
    case MoveWorker(k, connected) =>
      if k < |d.workers| && d.workers[k].id == id then [Moved(Rank(d.workers, k), connected)] else []
    case StopAll => [Ended]
  }

  function SeenIn(d: Demux, actions: seq<Action>, id: string): seq<SessionEvent>
    decreases |actions|
  {
    if actions == [] then [] else SeenBy(d, actions[0], id) + SeenIn(Step(d, actions[0]), actions[1..], id)
  }

  /** The table names, for each identifier, a worker that was started for it. */
  ghost predicate TableOk(d: Demux)
  {
    forall id | id in d.table :: d.table[id] < |d.workers| && d.workers[d.table[id]].id == id
  }

  // ---------- each action, seen by each session ----------

  lemma SetWorkerProjects(d: Demux, k: nat, w: Served, id: string)
    requires TableOk(d) && k < |d.workers|
    ensures TableOk(SetWorker(d, k, w))
    ensures Rank(d.workers, k) < |Own(d.workers, d.workers[k].id)|
    ensures Project(SetWorker(d, k, w), id)
         == if d.workers[k].id == id
            then Project(d, id).(workers := Project(d, id).workers[Rank(d.workers, k) := w]) else Project(d, id)
  {
    OwnAfterUpdate(d.workers, k, w, id);
    if id in d.table { SameIdsSameRank(d.workers, SetWorker(d, k, w).workers, d.table[id]); }
  }

  lemma TakeOutProjects(d: Demux, who: string, id: string)
    requires TableOk(d)
    ensures TableOk(TakeOut(d, who))
    ensures Project(TakeOut(d, who), id) == if who == id then EndCurrent(Project(d, id)) else Project(d, id)
  {
    if who in d.table {
      var k := d.table[who];
      OwnAt(d.workers, k);
      SetWorkerProjects(d, k, d.workers[k].item.(closing := true), id);
    }
  }

  lemma LookupProjects(d: Demux, who: string, id: string)
    requires TableOk(d)
    ensures TableOk(Step(d, Lookup(who)))
    ensures Project(Step(d, Lookup(who)), id)
         == if who == id && id != "" then StepSession(Project(d, id), Fetched) else Project(d, id)
  {
    var t := Step(d, Lookup(who));
    OwnSnoc(d.workers, Tagged(who, NEW), id);
    if id in t.table && t.table[id] < |d.workers| {
      assert t.workers[..t.table[id]] == d.workers[..t.table[id]];
    } else if t != d {
      assert t.workers[..|d.workers|] == d.workers;
    }
  }

  lemma MoveProjects(d: Demux, k: nat, connected: bool, id: string)
    requires TableOk(d) && k < |d.workers|
    ensures TableOk(Step(d, MoveWorker(k, connected)))
    ensures Project(Step(d, MoveWorker(k, connected)), id)
         == if d.workers[k].id == id then StepSession(Project(d, id), Moved(Rank(d.workers, k), connected))
            else Project(d, id)
  {
    var r := AsrWorker.Advance(d.workers[k].item.worker, connected);
    var moved := d.workers[k].item.(worker := r.0);
    OwnAt(d.workers, k);
    SetWorkerProjects(d, k, moved, id);
    if r.1 { TakeOutProjects(SetWorker(d, k, moved), d.workers[k].id, id); }
  }

  lemma StopProjects(d: Demux, id: string)
    requires TableOk(d)
    ensures TableOk(Step(d, StopAll))
    ensures Project(Step(d, StopAll), id) == EndCurrent(Project(d, id))
  {
    var t := Step(d, StopAll);
    if id in d.table {
      var k := d.table[id];
      var w := d.workers[k].item.(closing := true);
      OwnAt(d.workers, k);
      SetWorkerProjects(d, k, w, id);
      OwnOnly(t.workers, SetWorker(d, k, w).workers, id);
    } else {
      OwnOnly(t.workers, d.workers, id);
    }
  }

  lemma DeliverProjects(d: Demux, k: nat, c: Chunk, id: string)
    requires TableOk(d) && k < |d.workers|
    ensures TableOk(Step(d, Deliver(k, c)))
    ensures Project(Step(d, Deliver(k, c)), id)
         == if d.workers[k].id == id then StepSession(Project(d, id), Given(Rank(d.workers, k), c))
            else Project(d, id)
  {
    OwnAt(d.workers, k);
    SetWorkerProjects(d, k, Offered(d.workers[k].item, c), id);
  }

  lemma ShutProjects(d: Demux, k: nat, id: string)
    requires TableOk(d) && k < |d.workers|
    ensures TableOk(Step(d, CloseQueue(k)))
    ensures Project(Step(d, CloseQueue(k)), id)
         == if d.workers[k].id == id then StepSession(Project(d, id), Shut(Rank(d.workers, k))) else Project(d, id)
  {
    OwnAt(d.workers, k);
    SetWorkerProjects(d, k, QueueClosed(d.workers[k].item), id);
  }

  lemma RunNone(s: Session)
    ensures RunSession(s, []) == s
  {
  }

  lemma RunOne(s: Session, e: SessionEvent)
    ensures RunSession(s, [e]) == StepSession(s, e)
  {
    assert [e][1..] == [];
  }

  lemma StepProjects(d: Demux, a: Action, id: string)
    requires TableOk(d)
    ensures TableOk(Step(d, a))
    ensures Project(Step(d, a), id) == RunSession(Project(d, id), SeenBy(d, a, id))
  {
    var seen := SeenBy(d, a, id);
    if seen != [] { RunOne(Project(d, id), seen[0]); } else { RunNone(Project(d, id)); }
    match a
    case Lookup(who) => LookupProjects(d, who, id);
    case Deliver(k, c) => if k < |d.workers| { DeliverProjects(d, k, c, id); }
    case Unregister(who) => TakeOutProjects(d, who, id);
    case CloseQueue(k) => if k < |d.workers| { ShutProjects(d, k, id); }
    case MoveWorker(k, connected) => if k < |d.workers| { MoveProjects(d, k, connected, id); }
    case StopAll => StopProjects(d, id);
  }

  lemma {:induction false} RunSplit(s: Session, a: seq<SessionEvent>, b: seq<SessionEvent>)
    ensures RunSession(s, a + b) == RunSession(RunSession(s, a), b)
    decreases |a|
  {
    if a == [] {
      assert a + b == b;
    } else {
      assert (a + b)[0] == a[0] && (a + b)[1..] == a[1..] + b;
      RunSplit(StepSession(s, a[0]), a[1..], b);
    }
  }

  /** Isolation: in any interleaving of many sessions over the one table, what one session has (its
      workers, their queues, the audio they sent, its registration) is what a run of its own events alone
      gives it. */
  lemma {:induction false} SessionsAreIsolated(d: Demux, actions: seq<Action>, id: string)
    requires TableOk(d)
    ensures TableOk(Run(d, actions))
    ensures Project(Run(d, actions), id) == RunSession(Project(d, id), SeenIn(d, actions, id))
    decreases |actions|
  {
    if actions == [] {
      RunNone(Project(d, id));
    } else {
      StepProjects(d, actions[0], id);
      SessionsAreIsolated(Step(d, actions[0]), actions[1..], id);
      RunSplit(Project(d, id), SeenBy(d, actions[0], id), SeenIn(Step(d, actions[0]), actions[1..], id));
    }
  }

  // ---------- every worker of every session ----------

  ghost predicate WorkerOk(w: Worker) { WakeOk(w) && SentOk(w) && Sound(w.ledger) }

  /** A queue is open exactly while its worker is registered or waits to be closed, never both. */
  predicate OpenRight(v: Served, registered: bool)
  {
    && (!Closed(v.worker) <==> registered || v.closing)
    && !(registered && v.closing)
  }

  ghost predicate SessionOk(s: Session)
  {
    && (s.current.Some? ==> s.current.value < |s.workers|)
    && (forall k | 0 <= k < |s.workers| ::
          WorkerOk(s.workers[k].worker) && OpenRight(s.workers[k], s.current == Some(k)))
  }

  lemma EndCurrentKeepsOk(s: Session)
    requires SessionOk(s)
    ensures SessionOk(EndCurrent(s))
  {
  }

  lemma AdvanceKeepsWorkerOk(w: Worker, connected: bool)
    requires WorkerOk(w)
    ensures WorkerOk(AsrWorker.Advance(w, connected).0)
    ensures Closed(AsrWorker.Advance(w, connected).0) == Closed(w)
  {
    StepKeepsWake(w, Move(connected));
    StepKeepsSent(w, Move(connected));
    StepKeepsSound(w, Move(connected));
  }

  lemma PutWorkerKeepsOk(s: Session, k: nat, v: Served)
    requires SessionOk(s) && k < |s.workers| && WorkerOk(v.worker) && OpenRight(v, s.current == Some(k))
    ensures SessionOk(s.(workers := s.workers[k := v]))
  {
  }

  lemma DeliverKeepsWorkerOk(w: Worker, c: Chunk)
    requires WorkerOk(w)
    ensures WorkerOk(Offer(w, c)) && Closed(Offer(w, c)) == Closed(w)
  {
    StepKeepsWake(w, AsrWorker.Push(c));
    StepKeepsSent(w, AsrWorker.Push(c));
    StepKeepsSound(w, AsrWorker.Push(c));
  }

  lemma CloseKeepsWorkerOk(w: Worker)
    requires WorkerOk(w)
    ensures WorkerOk(AsrWorker.CloseQueue(w)) && Closed(AsrWorker.CloseQueue(w))
  {
    StepKeepsWake(w, Close);
    StepKeepsSent(w, Close);
    StepKeepsSound(w, Close);
  }

  lemma NewWorkerOk()
    ensures WorkerOk(NEW.worker) && OpenRight(NEW, true)
  {
  }

  lemma AppendWorkerKeepsOk(s: Session, v: Served)
    requires SessionOk(s) && s.current.None? && WorkerOk(v.worker) && OpenRight(v, true)
    ensures SessionOk(Session(Some(|s.workers|), s.workers + [v]))
  {
    var t := Session(Some(|s.workers|), s.workers + [v]);
    forall k | 0 <= k < |t.workers|
      ensures WorkerOk(t.workers[k].worker) && OpenRight(t.workers[k], t.current == Some(k))
    {
      assert k < |s.workers| ==> t.workers[k] == s.workers[k];
    }
  }

  lemma LookupKeepsSessionOk(s: Session)
    requires SessionOk(s)
    ensures SessionOk(StepSession(s, Fetched))
  {
    if s.current.None? {
      NewWorkerOk();
      AppendWorkerKeepsOk(s, NEW);
    }
  }

  lemma DeliverKeepsSessionOk(s: Session, k: nat, c: Chunk)
    requires SessionOk(s)
    ensures SessionOk(StepSession(s, Given(k, c)))
  {
    if k < |s.workers| {
      DeliverKeepsWorkerOk(s.workers[k].worker, c);
      PutWorkerKeepsOk(s, k, Offered(s.workers[k], c));
    }
  }

  lemma ShutKeepsSessionOk(s: Session, k: nat)
    requires SessionOk(s)
    ensures SessionOk(StepSession(s, Shut(k)))
  {
    if k < |s.workers| {
      CloseKeepsWorkerOk(s.workers[k].worker);
      PutWorkerKeepsOk(s, k, QueueClosed(s.workers[k]));
    }
  }

  lemma MoveKeepsSessionOk(s: Session, k: nat, connected: bool)
    requires SessionOk(s)
    ensures SessionOk(StepSession(s, Moved(k, connected)))
  {
    if k < |s.workers| {
      var v := s.workers[k].(worker := AsrWorker.Advance(s.workers[k].worker, connected).0);
      AdvanceKeepsWorkerOk(s.workers[k].worker, connected);
      PutWorkerKeepsOk(s, k, v);
      EndCurrentKeepsOk(s.(workers := s.workers[k := v]));
    }
  }

  lemma StepKeepsSessionOk(s: Session, e: SessionEvent)
    requires SessionOk(s)
    ensures SessionOk(StepSession(s, e))
  {
    match e
    case Fetched => LookupKeepsSessionOk(s);
    case Given(k, c) => DeliverKeepsSessionOk(s, k, c);
    case Ended => EndCurrentKeepsOk(s);
    case Shut(k) => ShutKeepsSessionOk(s, k);
    case Moved(k, connected) => MoveKeepsSessionOk(s, k, connected);
  }

  lemma {:induction false} RunKeepsSessionOk(s: Session, events: seq<SessionEvent>)
    requires SessionOk(s)
    ensures SessionOk(RunSession(s, events))
    decreases |events|
  {
    if events != [] {
      StepKeepsSessionOk(s, events[0]);
      RunKeepsSessionOk(StepSession(s, events[0]), events[1..]);
    }
  }

  lemma ProjectNothing(id: string)
    ensures Project(NO_SESSIONS, id) == UNUSED && TableOk(NO_SESSIONS)
  {
  }

  lemma ReachableWorker(actions: seq<Action>, k: nat)
    requires k < |Run(NO_SESSIONS, actions).workers|
    ensures var d := Run(NO_SESSIONS, actions); var v := d.workers[k].item;
            WorkerOk(v.worker) && OpenRight(v, Registered(d, k))
  {
    var d := Run(NO_SESSIONS, actions);
    var id := d.workers[k].id;
    ProjectNothing(id);
    SessionsAreIsolated(NO_SESSIONS, actions, id);
    RunKeepsSessionOk(UNUSED, SeenIn(NO_SESSIONS, actions, id));
    OwnAt(d.workers, k);
    assert Project(d, id).workers[Rank(d.workers, k)] == d.workers[k].item;
    CurrentIsRegistered(d, k);
  }

  lemma CurrentIsRegistered(d: Demux, k: nat)
    requires TableOk(d) && k < |d.workers|
    ensures Registered(d, k) <==> Project(d, d.workers[k].id).current == Some(Rank(d.workers, k))
  {
    var id := d.workers[k].id;
    if id in d.table {
      var j := d.table[id];
      if j < k { RanksDiffer(d.workers, j, k); }
      if k < j { RanksDiffer(d.workers, k, j); }
    }
  }

  /** In any interleaving of any number of sessions, each worker of each session sends exactly the audio
      of the chunks it has handled, an in-order selection of what was accepted for it, of which only what
      its full queue dropped is lost; nothing follows a last chunk; it never waits in vain; and its queue takes
      audio exactly while it is registered for its session, or has been taken out of the table and not yet closed. */
  lemma EverySessionSound(actions: seq<Action>, k: nat)
    requires k < |Run(NO_SESSIONS, actions).workers|
    ensures var d := Run(NO_SESSIONS, actions); var v := d.workers[k].item; var w := v.worker;
      && (w.pc.Handling? ==> w.ledger.popped != [])
      && w.sent == Audio(Handled(w)) && Subsequence(w.sent, Audio(w.ledger.pushed))
      && (forall i | 0 <= i < |Handled(w)| :: Handled(w)[i].isLast ==> w.pc.Exited? && i == |Handled(w)| - 1)
      && |w.ledger.pushed| == |w.ledger.popped| + w.ledger.queue.dropped + |w.ledger.queue.items|
      && (w.pc.AtWait? && (w.ledger.queue.items != [] || Closed(w)) ==> CanMove(w))
      && (!Closed(w) <==> Registered(d, k) || v.closing) && !(Registered(d, k) && v.closing)
  {
    ReachableWorker(actions, k);
    SentIsSelection(Run(NO_SESSIONS, actions).workers[k].item.worker);
  }

  /** The registered worker has not left. */
  ghost predicate Attended(s: Session)
  {
    s.current.Some? && s.current.value < |s.workers| ==> !s.workers[s.current.value].worker.pc.Exited?
  }

  lemma OpenWorkerLeavesWithItsEntry(w: Worker, connected: bool)
    requires !Closed(w) && !w.pc.Exited? && !AsrWorker.Advance(w, connected).1
    ensures !AsrWorker.Advance(w, connected).0.pc.Exited?
  {
  }

  lemma StepKeepsAttended(s: Session, e: SessionEvent)
    requires s.current.Some? ==> s.current.value < |s.workers| && !Closed(s.workers[s.current.value].worker)
    requires Attended(s)
    ensures Attended(StepSession(s, e))
  {
    if e.Moved? && s.current == Some(e.worker) {
      var w := s.workers[e.worker].worker;
      if !AsrWorker.Advance(w, e.connected).1 { OpenWorkerLeavesWithItsEntry(w, e.connected); }
    }
  }

  lemma {:induction false} RunKeepsAttended(s: Session, events: seq<SessionEvent>)
    requires SessionOk(s) && Attended(s)
    ensures Attended(RunSession(s, events))
    decreases |events|
  {
    if events != [] {
      assert s.current.Some? ==> OpenRight(s.workers[s.current.value], true);
      StepKeepsSessionOk(s, events[0]);
      StepKeepsAttended(s, events[0]);
      RunKeepsAttended(StepSession(s, events[0]), events[1..]);
    }
  }

  /** A worker that leaves takes its registration along: the worker the table names for a session is always one
      that still runs, so what the dispatch loop fetches next can still be served. */
  lemma RegisteredWorkersRun(actions: seq<Action>, k: nat)
    requires k < |Run(NO_SESSIONS, actions).workers| && Registered(Run(NO_SESSIONS, actions), k)
    ensures !Run(NO_SESSIONS, actions).workers[k].item.worker.pc.Exited?
  {
    var d := Run(NO_SESSIONS, actions);
    var id := d.workers[k].id;
    ProjectNothing(id);
    SessionsAreIsolated(NO_SESSIONS, actions, id);
    RunKeepsAttended(UNUSED, SeenIn(NO_SESSIONS, actions, id));
    OwnAt(d.workers, k);
    CurrentIsRegistered(d, k);
  }

  /** Between the two steps of closing a session its queue still takes audio: the session is out of the table,
      its first worker has a chunk accepted, and the same identifier may already be served by a second one. */
  lemma AcceptedAfterUnregister(id: string, c: Chunk)
    requires id != ""
    ensures var d := Run(NO_SESSIONS, [Lookup(id), Unregister(id), Deliver(0, c), Lookup(id)]);
      && |d.workers| == 2 && !Registered(d, 0) && Registered(d, 1)
      && d.workers[0].item.worker.ledger.pushed == [c] && !Closed(d.workers[0].item.worker)
  {
    var actions := [Lookup(id), Unregister(id), Deliver(0, c), Lookup(id)];
    assert actions[1..] == [Unregister(id), Deliver(0, c), Lookup(id)];
    assert actions[1..][1..] == [Deliver(0, c), Lookup(id)];
    assert actions[1..][1..][1..] == [Lookup(id)] && actions[1..][1..][1..][1..] == [];
    var d1 := Demux([Tagged(id, NEW)], map[id := 0]);
    var d2 := Demux([Tagged(id, Served(NewWorker(), true))], map[]);
    var d3 := Demux([Tagged(id, Served(Offer(NewWorker(), c), true))], map[]);
    assert Step(NO_SESSIONS, actions[0]) == d1 && Step(d1, actions[1]) == d2 && Step(d2, actions[2]) == d3;
    assert Run(NO_SESSIONS, actions) == Run(d1, actions[1..]) == Run(d2, actions[1..][1..])
        == Run(d3, actions[1..][1..][1..]) == Step(d3, Lookup(id));
  }

  // ---------- and each of them leaves ----------

  function MovesOf(actions: seq<Action>, k: nat): nat
  {
    if actions == [] then 0
    else (if actions[0].MoveWorker? && actions[0].k == k then 1 else 0) + MovesOf(actions[1..], k)
  }

  lemma ClosedIsFixed(w: Worker, c: Chunk)
    requires Closed(w)
    ensures Offer(w, c) == w && AsrWorker.CloseQueue(w) == w
  {
  }

  /** What one action does to a worker whose queue is closed: its own move, or nothing. */
  lemma ClosedWorkerStep(d: Demux, a: Action, k: nat)
    requires k < |d.workers| && Closed(d.workers[k].item.worker)
    ensures k < |Step(d, a).workers|
    ensures Step(d, a).workers[k].item.worker
         == if a.MoveWorker? && a.k == k then AsrWorker.Step(d.workers[k].item.worker, Move(a.connected))
            else d.workers[k].item.worker
  {
    var w := d.workers[k].item.worker;
    ClosedIsFixed(w, Chunk([], false));
    if a.Deliver? { ClosedIsFixed(w, a.chunk); }
  }

  /** Once the queue of a worker is closed it is never blocked again, and it has left after at most twice
      the number of its remaining elements plus three of its own steps, whatever everybody else does. */
  lemma {:induction false} EveryWorkerLeaves(d: Demux, actions: seq<Action>, k: nat)
    requires k < |d.workers| && Closed(d.workers[k].item.worker)
    ensures k < |Run(d, actions).workers|
    ensures MovesOf(actions, k) >= StepsLeft(d.workers[k].item.worker) ==>
              Run(d, actions).workers[k].item.worker.pc.Exited?
    ensures var w := d.workers[k].item.worker;
            StepsLeft(w) <= 2 * |w.ledger.queue.items| + 3 && (!w.pc.Exited? ==> CanMove(w))
    decreases |actions|
  {
    if actions != [] {
      ClosedWorkerStep(d, actions[0], k);
      if actions[0].MoveWorker? && actions[0].k == k {
        ClosedStep(d.workers[k].item.worker, Move(actions[0].connected));
      }
      EveryWorkerLeaves(Step(d, actions[0]), actions[1..], k);
    }
  }
}
