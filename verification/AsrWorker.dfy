/** One recognition session's sender: it connects, then drains its queue in order, waiting on the
    queue's notification channel when it finds it empty. Producers and closers interleave freely. */
module AsrWorker {
  import opened Prelude
  import opened Ring

  datatype Chunk = Chunk(pcm: seq<bv8>, isLast: bool)

  datatype Pc = Connecting | AtPop | AtClosedCheck | AtWait | Handling(chunk: Chunk) | Exited

  /** `sent` is the audio handed to the cloud, in order. */
  datatype Worker = Worker(ledger: Ledger<Chunk>, pc: Pc, sent: seq<seq<bv8>>)

  const QUEUE_CAPACITY: nat := 50

  function NewWorker(): Worker { Worker(Fresh(QUEUE_CAPACITY), Connecting, []) }

  predicate Closed(w: Worker) { w.ledger.queue.closed }

  function Offer(w: Worker, c: Chunk): Worker { w.(ledger := Apply(w.ledger, DoPush(c))) }

  function CloseQueue(w: Worker): Worker { w.(ledger := Apply(w.ledger, DoClose)) }

  /** A worker can move unless it has left, or waits on a channel that is open and empty. */
  predicate CanMove(w: Worker)
  {
    !w.pc.Exited? && (w.pc.AtWait? ==> w.ledger.queue.token || Closed(w))
  }

  /** The worker's next step. Leaving after the last chunk, or for want of a connection, it closes the
      session; who models the table carries that out. */
  function Advance(w: Worker, connected: bool): (Worker, bool)
  {
    if !CanMove(w) then (w, false)
    else match w.pc
      case Connecting => if connected then (w.(pc := AtPop), false) else (w.(pc := Exited), true)
      case AtPop =>
        var r := Pop(w.ledger.queue);
        (w.(ledger := Apply(w.ledger, DoPop), pc := if r.1.Some? then Handling(r.1.value) else AtClosedCheck), false)
      case AtClosedCheck => (w.(pc := if Closed(w) then Exited else AtWait), false)
      case AtWait => (w.(ledger := w.ledger.(queue := w.ledger.queue.(token := false)), pc := AtPop), false)
      case Handling(c) =>
        var sent := if c.pcm != [] then w.sent + [c.pcm] else w.sent;
        if c.isLast then (w.(sent := sent, pc := Exited), true) else (w.(sent := sent, pc := AtPop), false)
  }

  datatype Event = Push(chunk: Chunk) | Close | Move(connected: bool)

  /** A worker by itself. A worker that leaves has its queue closed by a later event of its own; audio may still
      be pushed before. */
  function Step(w: Worker, e: Event): Worker
  {
    match e
    case Push(c) => Offer(w, c)
    case Close => CloseQueue(w)
    case Move(connected) => Advance(w, connected).0
  }

  function Run(w: Worker, events: seq<Event>): Worker
    decreases |events|
  {
    if events == [] then w else Run(Step(w, events[0]), events[1..])
  }

  // ---------- no lost wake-up ----------

  /** Between finding its queue empty and waiting, and while waiting, anything pushed has left a
      token behind. */
  ghost predicate WakeOk(w: Worker)
  {
    (w.pc.AtClosedCheck? || w.pc.AtWait?) && w.ledger.queue.items != [] ==> w.ledger.queue.token
  }

  lemma StepKeepsWake(w: Worker, e: Event)
    requires WakeOk(w)
    ensures WakeOk(Step(w, e))
  {
  }

  lemma {:induction false} RunKeepsWake(w: Worker, events: seq<Event>)
    requires WakeOk(w)
    ensures WakeOk(Run(w, events))
    decreases |events|
  {
    if events != [] {
      StepKeepsWake(w, events[0]);
      RunKeepsWake(Step(w, events[0]), events[1..]);
    }
  }

  /** In every interleaving of pushes, closes and the worker's own steps: whenever the worker waits
      while its queue holds something or is closed, the wait is over. So a worker is stuck only on
      an open, empty queue. */
  lemma NoLostWakeup(events: seq<Event>)
    ensures var w := Run(NewWorker(), events);
      w.pc.AtWait? && (w.ledger.queue.items != [] || Closed(w)) ==> CanMove(w)
  {
    RunKeepsWake(NewWorker(), events);
  }

  /** Waiting uses the token up: a worker woken for nothing goes back to waiting, and sleeps there until there
      is something to do. */
  lemma WokenForNothingSleeps(w: Worker, c1: bool, c2: bool, c3: bool)
    requires w.pc.AtWait? && CanMove(w) && w.ledger.queue.items == [] && !Closed(w)
    ensures var t := Step(Step(Step(w, Move(c1)), Move(c2)), Move(c3)); t.pc.AtWait? && !CanMove(t)
  {
  }

  // ---------- after Close the loop ends ----------

  /** Steps a worker can still make once its queue is closed. */
  function StepsLeft(w: Worker): nat
  {
    match w.pc
    case Exited => 0
    case AtClosedCheck => 1
    case AtPop => 2 * |w.ledger.queue.items| + 2
    case _ => 2 * |w.ledger.queue.items| + 3
  }

  function Moves(events: seq<Event>): nat
  {
    if events == [] then 0 else (if events[0].Move? then 1 else 0) + Moves(events[1..])
  }

  lemma ClosedStep(w: Worker, e: Event)
    requires Closed(w)
    ensures Closed(Step(w, e))
    ensures e.Move? ==> StepsLeft(Step(w, e)) < StepsLeft(w) || (w.pc.Exited? && Step(w, e).pc.Exited?)
    ensures !e.Move? ==> StepsLeft(Step(w, e)) == StepsLeft(w)
  {
  }

  /** Once the queue is closed the worker is never blocked again, and it leaves after at most twice
      the number of remaining elements plus three of its own steps, whatever else happens. */
  lemma {:induction false} LeavesAfterClose(w: Worker, events: seq<Event>)
    requires Closed(w)
    ensures Moves(events) >= StepsLeft(w) ==> Run(w, events).pc.Exited?
    ensures StepsLeft(w) <= 2 * |w.ledger.queue.items| + 3
    ensures !w.pc.Exited? ==> CanMove(w)
    decreases |events|
  {
    if events != [] {
      ClosedStep(w, events[0]);
      LeavesAfterClose(Step(w, events[0]), events[1..]);
    }
  }

  // ---------- what reaches the cloud ----------

  /** The non-empty audio of a sequence of chunks. */
  function Audio(chunks: seq<Chunk>): seq<seq<bv8>>
  {
    if chunks == [] then []
    else
      var c := chunks[|chunks| - 1];
      Audio(chunks[..|chunks| - 1]) + (if c.pcm != [] then [c.pcm] else [])
  }

  lemma AudioOfOneMore(chunks: seq<Chunk>, c: Chunk)
    ensures Audio(chunks + [c]) == Audio(chunks) + (if c.pcm != [] then [c.pcm] else [])
  {
    assert (chunks + [c])[..|chunks|] == chunks;
  }

  /** The chunks popped and dealt with: all that were popped, but for the one in hand. */
  function Handled(w: Worker): seq<Chunk>
    requires w.pc.Handling? ==> w.ledger.popped != []
  {
    if w.pc.Handling? then w.ledger.popped[..|w.ledger.popped| - 1] else w.ledger.popped
  }

  /** Everything sent so far is the audio of the chunks handled so far, and a last chunk ends it. */
  ghost predicate SentOk(w: Worker)
  {
    && (w.pc.Handling? ==> w.ledger.popped != [] && w.ledger.popped[|w.ledger.popped| - 1] == w.pc.chunk)
    && w.sent == Audio(Handled(w))
    && (forall i | 0 <= i < |Handled(w)| :: Handled(w)[i].isLast ==> w.pc.Exited? && i == |Handled(w)| - 1)
  }

  lemma StepKeepsSound(w: Worker, e: Event)
    requires Sound(w.ledger)
    ensures Sound(Step(w, e).ledger)
  {
    match e
    case Push(c) => ApplyKeepsSound(w.ledger, DoPush(c));
    case Close => ApplyKeepsSound(w.ledger, DoClose);
    case Move(connected) => ApplyKeepsSound(w.ledger, DoPop);
  }

  lemma PopKeepsSent(w: Worker, connected: bool)
    requires SentOk(w) && w.pc.AtPop?
    ensures SentOk(Advance(w, connected).0) && !Advance(w, connected).1
  {
    if w.ledger.queue.items != [] {
      var p := w.ledger.popped;
      assert (p + [w.ledger.queue.items[0]])[..|p|] == p;
    }
  }

  lemma HandleKeepsSent(w: Worker, connected: bool)
    requires SentOk(w) && w.pc.Handling?
    ensures SentOk(Advance(w, connected).0)
  {
    var p := w.ledger.popped;
    AudioOfOneMore(p[..|p| - 1], w.pc.chunk);
    assert p == p[..|p| - 1] + [w.pc.chunk];
  }

  lemma StepKeepsSent(w: Worker, e: Event)
    requires SentOk(w)
    ensures SentOk(Step(w, e))
  {
    if e.Move? && w.pc.AtPop? {
      PopKeepsSent(w, e.connected);
    } else if e.Move? && w.pc.Handling? {
      HandleKeepsSent(w, e.connected);
    } else {
      assert Step(w, e).ledger.popped == w.ledger.popped && Step(w, e).sent == w.sent;
    }
  }

  lemma {:induction false} RunKeepsSent(w: Worker, events: seq<Event>)
    requires SentOk(w) && Sound(w.ledger)
    ensures SentOk(Run(w, events)) && Sound(Run(w, events).ledger)
    decreases |events|
  {
    if events != [] {
      StepKeepsSent(w, events[0]);
      StepKeepsSound(w, events[0]);
      RunKeepsSent(Step(w, events[0]), events[1..]);
    }
  }

  lemma {:induction false} AudioKeepsSubsequence(xs: seq<Chunk>, ys: seq<Chunk>)
    requires Subsequence(xs, ys)
    ensures Subsequence(Audio(xs), Audio(ys))
    decreases |ys|
  {
    if ys != [] {
      var n := |ys| - 1;
      assert ys[n].pcm == [] ==> Audio(ys) == Audio(ys[..n]);
      if Subsequence(xs, ys[..n]) {
        AudioKeepsSubsequence(xs, ys[..n]);
        if ys[n].pcm != [] { SubsequenceSkip(Audio(xs), Audio(ys[..n]), ys[n].pcm); }
      } else {
        var m := |xs| - 1;
        assert xs[m].pcm == [] ==> Audio(xs) == Audio(xs[..m]);
        AudioKeepsSubsequence(xs[..m], ys[..n]);
        if ys[n].pcm != [] { SubsequenceTake(Audio(xs[..m]), Audio(ys[..n]), ys[n].pcm); }
      }
    }
  }

  lemma {:induction false} PrefixIsSubsequence<T>(xs: seq<T>, k: nat)
    requires k <= |xs|
    ensures Subsequence(xs[..k], xs)
  {
    SubsequenceRefl(xs[..k]);
    SubsequenceSkipMany(xs[..k], xs[..k], xs[k..]);
    assert xs[..k] + xs[k..] == xs;
  }

  lemma {:induction false} SubsequenceRefl<T>(xs: seq<T>)
    ensures Subsequence(xs, xs)
  {
    if xs != [] { SubsequenceRefl(xs[..|xs| - 1]); }
  }

  lemma {:induction false} SubsequenceTrans<T>(xs: seq<T>, ys: seq<T>, zs: seq<T>)
    requires Subsequence(xs, ys) && Subsequence(ys, zs)
    ensures Subsequence(xs, zs)
    decreases |zs|
  {
    if zs != [] {
      var n := |zs| - 1;
      if Subsequence(ys, zs[..n]) {
        SubsequenceTrans(xs, ys, zs[..n]);
      } else {
        var m := |ys| - 1;
        if Subsequence(xs, ys[..m]) {
          SubsequenceTrans(xs, ys[..m], zs[..n]);
        } else {
          SubsequenceTrans(xs[..|xs| - 1], ys[..m], zs[..n]);
        }
      }
    }
  }

  /** The audio sent to the cloud is exactly that of the chunks handled so far, an in-order selection of
      the audio that was accepted for the session; nothing is sent after a last chunk, and of what was
      accepted only the chunks the full queue dropped are lost. */
  lemma SentInOrder(events: seq<Event>)
    ensures var w := Run(NewWorker(), events); var l := w.ledger;
      && (w.pc.Handling? ==> l.popped != [])
      && w.sent == Audio(Handled(w)) && Subsequence(w.sent, Audio(l.pushed))
      && (forall i | 0 <= i < |Handled(w)| :: Handled(w)[i].isLast ==> w.pc.Exited? && i == |Handled(w)| - 1)
      && |l.pushed| == |l.popped| + l.queue.dropped + |l.queue.items|
      && (l.queue.dropped == 0 && l.queue.items == [] && !w.pc.Handling? ==> w.sent == Audio(l.pushed))
  {
    RunKeepsSent(NewWorker(), events);
    var w := Run(NewWorker(), events);
    SentIsSelection(w);
    if w.ledger.queue.dropped == 0 && w.ledger.queue.items == [] && !w.pc.Handling? {
      assert w.ledger.pushed[..|w.ledger.popped|] == w.ledger.pushed;
      FullSelectionIsAll(w.ledger.popped, w.ledger.pushed);
    }
  }

  lemma {:induction false} SelectionIsNoLonger<T>(xs: seq<T>, ys: seq<T>)
    requires Subsequence(xs, ys)
    ensures |xs| <= |ys|
    decreases |ys|
  {
    if ys != [] {
      if Subsequence(xs, ys[..|ys| - 1]) {
        SelectionIsNoLonger(xs, ys[..|ys| - 1]);
      } else {
        SelectionIsNoLonger(xs[..|xs| - 1], ys[..|ys| - 1]);
      }
    }
  }

  lemma {:induction false} FullSelectionIsAll<T>(xs: seq<T>, ys: seq<T>)
    requires Subsequence(xs, ys) && |xs| == |ys|
    ensures xs == ys
    decreases |ys|
  {
    if ys != [] {
      if Subsequence(xs, ys[..|ys| - 1]) { SelectionIsNoLonger(xs, ys[..|ys| - 1]); }
      FullSelectionIsAll(xs[..|xs| - 1], ys[..|ys| - 1]);
    }
  }

  lemma SentIsSelection(w: Worker)
    requires SentOk(w) && Sound(w.ledger)
    ensures Subsequence(w.sent, Audio(w.ledger.pushed))
  {
    var l := w.ledger;
    var gone := |l.popped| + l.queue.dropped;
    PrefixIsSubsequence(l.popped, |Handled(w)|);
    assert Handled(w) == l.popped[..|Handled(w)|];
    PrefixIsSubsequence(l.pushed, gone);
    SubsequenceTrans(Handled(w), l.popped, l.pushed[..gone]);
    SubsequenceTrans(Handled(w), l.pushed[..gone], l.pushed);
    AudioKeepsSubsequence(Handled(w), l.pushed);
  }
}
