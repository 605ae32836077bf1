/** The dispatch loop and the session table as objects: every registered session has a queue of its
    own on the heap, and dispatching a chunk touches exactly one of them. */
module AsrRecognizer {
  import opened Ring
  import opened AsrWorker

  type Queues = map<string, Queue<Chunk>>

  const SILENCE: Chunk := Chunk([], false)

  function QueueOf(queues: Queues, id: string): Queue<Chunk>
  {
    if id in queues then queues[id] else Fresh(QUEUE_CAPACITY).queue
  }

  /** One chunk: skipped without a session identifier, else pushed into its session's queue. */
  function Dispatched(queues: Queues, id: string, c: Chunk): Queues
  {
    if id == "" then queues else queues[id := Ring.Push(QueueOf(queues, id), c).0]
  }

  /** The table once the session has been fetched or created. */
  function WithSession(queues: Queues, id: string): Queues
  {
    if id in queues then queues else queues[id := Fresh(QUEUE_CAPACITY).queue]
  }

  lemma DispatchInTwoSteps(queues: Queues, id: string, c: Chunk)
    requires id != ""
    ensures var found := WithSession(queues, id);
            found[id := Ring.Push(found[id], c).0] == Dispatched(queues, id, c)
  {
  }

  function AllDispatched(queues: Queues, input: seq<(string, Chunk)>): Queues
  {
    if input == [] then queues
    else
      var n := |input| - 1;
      Dispatched(AllDispatched(queues, input[..n]), input[n].0, input[n].1)
  }

  function Pushed(q: Queue<Chunk>, chunks: seq<Chunk>): Queue<Chunk>
  {
    if chunks == [] then q else Ring.Push(Pushed(q, chunks[..|chunks| - 1]), chunks[|chunks| - 1]).0
  }

  function OwnChunks(input: seq<(string, Chunk)>, id: string): seq<Chunk>
  {
    if input == [] then []
    else
      var n := |input| - 1;
      OwnChunks(input[..n], id) + (if input[n].0 == id then [input[n].1] else [])
  }

  /** After any input the sessions are those there were and those a chunk named; chunks without a session
      identifier start none. */
  lemma {:induction false} OnlyNamedSessionsStart(queues: Queues, input: seq<(string, Chunk)>, id: string)
    ensures id in AllDispatched(queues, input) <==> id in queues || (id != "" && OwnChunks(input, id) != [])
    decreases |input|
  {
    if input != [] { OnlyNamedSessionsStart(queues, input[..|input| - 1], id); }
  }

  /** After any input, a session's queue is its old one with its own chunks pushed, in order. */
  lemma {:induction false} QueueDependsOnOwnChunks(queues: Queues, input: seq<(string, Chunk)>, id: string)
    requires id != ""
    ensures QueueOf(AllDispatched(queues, input), id) == Pushed(QueueOf(queues, id), OwnChunks(input, id))
    decreases |input|
  {
    if input != [] {
      var n := |input| - 1;
      QueueDependsOnOwnChunks(queues, input[..n], id);
      var own := OwnChunks(input[..n], id);
      assert (own + [input[n].1])[..|own|] == own;
      assert input[n].0 != id ==> OwnChunks(input, id) == own;
    }
  }

  class Recognizer {
    var sessions: map<string, Buffer<Chunk>>
    ghost var repr: set<object>  // the queues and their stores

    ghost predicate Valid()
      reads this, repr
    {
      && (forall id | id in sessions ::
            && sessions[id] in repr && sessions[id].buf in repr
            && sessions[id].Valid() && sessions[id].buf.Length == QUEUE_CAPACITY)
      && (forall a, b | a in sessions && b in sessions && a != b ::
            sessions[a] != sessions[b] && sessions[a].buf != sessions[b].buf)
    }

    ghost function Model(): Queues
      requires Valid()
      reads this, repr
    {
      map id | id in sessions :: sessions[id].Model()
    }

    constructor ()
      ensures Valid() && sessions == map[] && Model() == map[] && repr == {}
    {
      sessions, repr := map[], {};
    }

    /** Registers an empty queue that shares nothing with the others. */
    method Register(id: string, b: Buffer<Chunk>)
      requires Valid() && id !in sessions && b !in repr && b.buf !in repr
      requires b.Valid() && b.buf.Length == QUEUE_CAPACITY && b.Model() == Fresh(QUEUE_CAPACITY).queue
      modifies this
      ensures Valid() && sessions == old(sessions)[id := b] && repr == old(repr) + {b, b.buf}
      ensures Model() == old(Model())[id := Fresh(QUEUE_CAPACITY).queue]
    {
      sessions := sessions[id := b];
      repr := repr + {b, b.buf};
    }

    method CreateSession(id: string) returns (b: Buffer<Chunk>)
      requires Valid() && id !in sessions
      modifies this
      ensures Valid() && fresh(b) && fresh(b.buf)
      ensures sessions == old(sessions)[id := b] && repr == old(repr) + {b, b.buf}
      ensures Model() == old(Model())[id := Fresh(QUEUE_CAPACITY).queue]
    {
      b := new Buffer(QUEUE_CAPACITY, SILENCE);
      assert Valid() && Model() == old(Model());
      Register(id, b);
    }

    method GetOrCreateSession(id: string) returns (b: Buffer<Chunk>)
      requires Valid()
      modifies this
      ensures Valid() && id in sessions && sessions[id] == b
      ensures Model() == WithSession(old(Model()), id)
      ensures old(repr) <= repr && fresh(repr - old(repr))
    {
      if id in sessions {
        return sessions[id];
      }
      b := CreateSession(id);
    }

    method PushInto(id: string, c: Chunk)
      requires Valid() && id in sessions
      modifies sessions[id], sessions[id].buf
      ensures Valid() && sessions == old(sessions) && repr == old(repr)
      ensures Model() == old(Model())[id := Ring.Push(old(Model())[id], c).0]
    {
      var _ := sessions[id].Enqueue(c);
      assert forall x | x in sessions && x != id :: unchanged(sessions[x]) && unchanged(sessions[x].buf);
    }

    method Dispatch(id: string, c: Chunk)
      requires Valid()
      modifies this, repr
      ensures Valid() && Model() == Dispatched(old(Model()), id, c)
      ensures old(repr) <= repr && fresh(repr - old(repr))
    {
      if id == "" {
        return;
      }
      DispatchInTwoSteps(Model(), id, c);
      var b := GetOrCreateSession(id);
      assert b in repr && b.buf in repr;
      PushInto(id, c);
    }

    /** The dispatch loop over the chunks that arrive until the input closes. */
    method Feed(input: seq<(string, Chunk)>)
      requires Valid()
      modifies this, repr
      ensures Valid() && Model() == AllDispatched(old(Model()), input)
      ensures old(repr) <= repr && fresh(repr - old(repr))
    {
      var k := 0;
      while k < |input|
        invariant 0 <= k <= |input|
        invariant Valid() && Model() == AllDispatched(old(Model()), input[..k])
        invariant old(repr) <= repr && fresh(repr - old(repr))
      {
        Dispatch(input[k].0, input[k].1);
        assert input[..k + 1][..k] == input[..k];
        k := k + 1;
      }
      assert input[..k] == input;
    }

    /** Takes the session out of the table and closes its queue, which its worker still holds. */
    method CloseSession(id: string)
      requires Valid()
      modifies this`sessions, repr
      ensures Valid() && Model() == old(Model()) - {id} && repr == old(repr)
      ensures id in old(sessions) ==>
        var b := old(sessions)[id]; b.Valid() && b.Model() == Ring.Close(old(b.Model()))
    {
      if id !in sessions {
        return;
      }
      var b := sessions[id];
      sessions := sessions - {id};
      b.Shut();
      assert forall x | x in sessions :: unchanged(sessions[x]) && unchanged(sessions[x].buf);
    }
  }
}
