/** One turn as its own goroutine sees it: the receive loop, the single retry, and the counters. */
module TurnClient {
  import opened Prelude
  import opened TurnRegistry
  import opened TurnProtocol

  /** What one attempt delivers: some responses, then the end of the stream or an error. A failure to
      open the stream is an error with no responses. */
  datatype Attempt = Attempt(responses: seq<Resp>, error: Option<StreamError>)

  datatype Outcome = Finished | Broken(error: StreamError) | Panicked

  /** The responses handed to the callback: all of them, or up to the first it panics on. */
  function Spoken(responses: seq<Resp>, panics: Resp -> bool): seq<Resp>
  {
    if responses == [] then []
    else if panics(responses[0]) then [responses[0]]
    else [responses[0]] + Spoken(responses[1..], panics)
  }

  /** What is spoken is a prefix, and it is cut short only by a panic on its last response. */
  lemma {:induction false} SpokenIsPrefix(responses: seq<Resp>, panics: Resp -> bool)
    ensures var r := Spoken(responses, panics);
      && r <= responses
      && (forall i | 0 <= i < |r| - 1 :: !panics(r[i]))
      && (r == responses || (r != [] && panics(r[|r| - 1])))
  {
    if responses != [] && !panics(responses[0]) {
      SpokenIsPrefix(responses[1..], panics);
    }
  }

  lemma {:induction false} SpokenAfter(responses: seq<Resp>, k: nat, panics: Resp -> bool)
    requires k <= |responses| && forall i | 0 <= i < k :: !panics(responses[i])
    ensures Spoken(responses, panics) == responses[..k] + Spoken(responses[k..], panics)
    decreases k
  {
    if k == 0 {
      assert responses[0..] == responses;
    } else {
      var rest := responses[1..];
      SpokenAfter(rest, k - 1, panics);
      assert rest[k - 1..] == responses[k..];
      assert responses[..k] == [responses[0]] + rest[..k - 1];
    }
  }

  predicate Panics(responses: seq<Resp>, panics: Resp -> bool) { exists r | r in responses :: panics(r) }

  function OutcomeOf(a: Attempt, panics: Resp -> bool): Outcome
  {
    if Panics(a.responses, panics) then Panicked
    else if a.error.None? then Finished else Broken(a.error.value)
  }

  /** The attempt whose responses count: the second only if the first failed to connect. */
  predicate Retries(first: Attempt, shards: nat)
  {
    first.responses == [] && first.error == Some(Unavailable) && shards > 1
  }

  /** The one counter that an error adds to. */
  function Settle(c: Counters, o: Outcome): Counters
  {
    c.(cancelled := c.cancelled + (if o == Broken(Canceled) then 1 else 0),
       timedOut := c.timedOut + (if o == Broken(DeadlineExceeded) then 1 else 0),
       failed := c.failed + (if o in {Broken(Unavailable), Broken(OtherError)} then 1 else 0))
  }

  function Chosen(first: Attempt, second: Attempt, shards: nat): Attempt
  {
    if Retries(first, shards) then second else first
  }

  /** The counters of a turn before its error is counted: its responses and its retry. */
  function Heard(c: Counters, first: Attempt, second: Attempt, shards: nat, panics: Resp -> bool): Counters
  {
    c.(responses := c.responses + |Spoken(Chosen(first, second, shards).responses, panics)|,
       retried := c.retried + if Retries(first, shards) then 1 else 0)
  }

  /** The counters after a turn: its responses, its retry, its error. */
  function Counted(c: Counters, first: Attempt, second: Attempt, shards: nat, panics: Resp -> bool): Counters
  {
    Settle(Heard(c, first, second, shards, panics), OutcomeOf(Chosen(first, second, shards), panics))
  }

  class Client {
    const reg: Registry
    const shards: nat
    const panics: Resp -> bool
    var count: Counters
    var dispatched: seq<Resp>

    constructor (reg: Registry, shards: nat, panics: Resp -> bool)
      ensures this.reg == reg && this.shards == shards && this.panics == panics
      ensures count == START.count && dispatched == []
    {
      this.reg, this.shards, this.panics := reg, shards, panics;
      count, dispatched := START.count, [];
    }

    method StreamOnce(a: Attempt) returns (received: bool, outcome: Outcome)
      modifies this
      ensures received <==> a.responses != []
      ensures outcome == OutcomeOf(a, panics)
      ensures dispatched == old(dispatched) + Spoken(a.responses, panics)
      ensures count == old(count).(responses := old(count).responses + |Spoken(a.responses, panics)|)
    {
      received := false;
      var k := 0;
      while k < |a.responses|
        invariant 0 <= k <= |a.responses|
        invariant received <==> k > 0
        invariant forall i | 0 <= i < k :: !panics(a.responses[i])
        invariant dispatched == old(dispatched) + a.responses[..k]
        invariant count == old(count).(responses := old(count).responses + k)
      {
        var r := a.responses[k];
        received := true;
        count := count.(responses := count.responses + 1);
        dispatched := dispatched + [r];
        assert a.responses[..k + 1] == a.responses[..k] + [r];
        if panics(r) {
          SpokenAfter(a.responses, k, panics);
          assert r in a.responses;
          return true, Panicked;
        }
        k := k + 1;
      }
      SpokenAfter(a.responses, k, panics);
      outcome := if a.error.None? then Finished else Broken(a.error.value);
    }

    /** One attempt, and a second on the next shard if the first could not even connect. */
    method StreamWithRetry(first: Attempt, second: Attempt) returns (outcome: Outcome)
      modifies this
      ensures outcome == OutcomeOf(Chosen(first, second, shards), panics)
      ensures dispatched == old(dispatched) + Spoken(Chosen(first, second, shards).responses, panics)
      ensures count == Heard(old(count), first, second, shards, panics)
    {
      var received;
      received, outcome := StreamOnce(first);
      if outcome == Broken(Unavailable) && !received && shards > 1 {
        count := count.(retried := count.retried + 1);
        received, outcome := StreamOnce(second);
      }
    }

    /** The turn's responses come from one attempt; its error, if any, is counted once; its slot is
        cleared whatever happened. */
    method RunTurn(session: string, turnId: string, first: Attempt, second: Attempt)
      modifies this, reg
      ensures reg.turns == End(old(reg.turns), session, turnId) && reg.fired == old(reg.fired)
      ensures dispatched == old(dispatched) + Spoken(Chosen(first, second, shards).responses, panics)
      ensures count == Counted(old(count), first, second, shards, panics)
    {
      var outcome := StreamWithRetry(first, second);
      if outcome.Broken? {
        match outcome.error
        case Canceled => count := count.(cancelled := count.cancelled + 1);
        case DeadlineExceeded => count := count.(timedOut := count.timedOut + 1);
        case _ => count := count.(failed := count.failed + 1);
      }
      reg.EndTurn(session, turnId);
    }
  }

  /** An attempt after which the client retries has handed nothing to the callback. */
  lemma NothingSpokenBeforeRetry(first: Attempt, shards: nat, panics: Resp -> bool)
    ensures Retries(first, shards) ==> Spoken(first.responses, panics) == [] && !OutcomeOf(first, panics).Panicked?
  {
  }
}
