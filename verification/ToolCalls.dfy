/** Assembly of streamed tool calls: the upstream sends a call in fragments labelled with an index, in
    any interleaving; whole calls are emitted once the stream has ended. */
module ToolCalls {
  import opened Prelude

  /** Absent parts of a fragment are empty strings: the source treats the two alike. */
  datatype Fragment = Fragment(index: int, id: string, name: string, arguments: string)

  datatype Usage = Usage(prompt: nat, completion: nat)

  datatype Delta = Delta(content: string, reasoning: string, calls: seq<Fragment>)

  datatype Choice = Choice(finish: string, delta: Option<Delta>)

  /** `cancelled` says whether the cancel signal is up when the chunk has arrived. */
  datatype Chunk = Chunk(cancelled: bool, choice: Option<Choice>, usage: Option<Usage>)

  datatype Event =
    | Token(content: string)
    | ToolCall(id: string, name: string, arguments: string)
    | Done(cancelled: bool, finish: string, reasoning: string, usage: Usage)

  // ---------- what a stream says ----------

  /** The deltas that count: those of the chunks before the cancel signal. */
  function Deltas(chunks: seq<Chunk>): seq<Delta>
  {
    if chunks == [] || chunks[0].cancelled then []
    else if chunks[0].choice.Some? && chunks[0].choice.value.delta.Some?
    then [chunks[0].choice.value.delta.value] + Deltas(chunks[1..])
    else Deltas(chunks[1..])
  }

  function Tokens(deltas: seq<Delta>): seq<Event>
  {
    if deltas == [] then []
    else (if deltas[0].content != "" then [Token(deltas[0].content)] else []) + Tokens(deltas[1..])
  }

  function Fragments(deltas: seq<Delta>): seq<Fragment>
  {
    if deltas == [] then [] else deltas[0].calls + Fragments(deltas[1..])
  }

  function Reasoning(deltas: seq<Delta>): string
  {
    if deltas == [] then "" else deltas[0].reasoning + Reasoning(deltas[1..])
  }

  // ---------- what the fragments of one index add up to ----------

  function NameOf(fragments: seq<Fragment>, index: int): string
  {
    if fragments == [] then ""
    else (if fragments[0].index == index then fragments[0].name else "") + NameOf(fragments[1..], index)
  }

  function ArgumentsOf(fragments: seq<Fragment>, index: int): string
  {
    if fragments == [] then ""
    else (if fragments[0].index == index then fragments[0].arguments else "") + ArgumentsOf(fragments[1..], index)
  }

  /** The last id given wins. */
  function IdOf(fragments: seq<Fragment>, index: int): string
  {
    if fragments == [] then ""
    else if IdOf(fragments[1..], index) != "" then IdOf(fragments[1..], index)
    else if fragments[0].index == index then fragments[0].id else ""
  }

  function Digits(n: nat): string
  {
    var digit := ['0' + (n % 10) as char];
    if n < 10 then digit else Digits(n / 10) + digit
  }

  function DefaultId(index: int): string
  {
    "call_" + if index < 0 then "-" + Digits(-index) else Digits(index)
  }

  function Assembled(fragments: seq<Fragment>, index: int): Event
  {
    ToolCall(if IdOf(fragments, index) != "" then IdOf(fragments, index) else DefaultId(index),
             NameOf(fragments, index), ArgumentsOf(fragments, index))
  }

  ghost predicate Ascending(xs: seq<int>) { forall i, j :: 0 <= i < j < |xs| ==> xs[i] < xs[j] }

  /** `order` lists the indices that have a name, each once, in ascending order. */
  ghost predicate Order(fragments: seq<Fragment>, order: seq<int>)
  {
    Ascending(order) && forall i :: i in order <==> NameOf(fragments, i) != ""
  }

  /** `calls` are the whole calls the fragments amount to. */
  ghost predicate Assembles(fragments: seq<Fragment>, calls: seq<Event>)
  {
    exists order: seq<int> :: Order(fragments, order) && calls == CallsIn(fragments, order)
  }

  function CallsIn(fragments: seq<Fragment>, order: seq<int>): seq<Event>
  {
    seq(|order|, k requires 0 <= k < |order| => Assembled(fragments, order[k]))
  }

  // ---------- the assembly depends on the per-index concatenations only ----------

  lemma {:induction false} AscendingIsUnique(xs: seq<int>, ys: seq<int>)
    requires Ascending(xs) && Ascending(ys) && forall i :: i in xs <==> i in ys
    ensures xs == ys
    decreases |xs|
  {
    assert xs != [] ==> xs[0] in xs;
    assert ys != [] ==> ys[0] in ys;
    if xs != [] {
      assert xs[0] == ys[0];
      forall i ensures i in xs[1..] <==> i in ys[1..] {
        assert i in xs[1..] <==> i in xs && i != xs[0];
        assert i in ys[1..] <==> i in ys && i != ys[0];
      }
      AscendingIsUnique(xs[1..], ys[1..]);
    }
  }

  /** Both streams say the same about every index. */
  ghost predicate SameProjections(f: seq<Fragment>, g: seq<Fragment>)
  {
    forall i :: NameOf(f, i) == NameOf(g, i) && ArgumentsOf(f, i) == ArgumentsOf(g, i) && IdOf(f, i) == IdOf(g, i)
  }

  lemma SameProjectionsSameCalls(f: seq<Fragment>, g: seq<Fragment>, calls: seq<Event>, calls': seq<Event>)
    requires SameProjections(f, g) && Assembles(f, calls) && Assembles(g, calls')
    ensures calls == calls'
  {
    var order :| Order(f, order) && calls == CallsIn(f, order);
    var order' :| Order(g, order') && calls' == CallsIn(g, order');
    forall i ensures i in order <==> i in order' {
      assert NameOf(f, i) == NameOf(g, i);
    }
    AscendingIsUnique(order, order');
  }

  lemma {:induction false} NamesConcatenate(f: seq<Fragment>, g: seq<Fragment>, i: int)
    ensures NameOf(f + g, i) == NameOf(f, i) + NameOf(g, i)
    decreases |f|
  {
    if f == [] {
      assert f + g == g;
    } else {
      assert (f + g)[1..] == f[1..] + g;
      NamesConcatenate(f[1..], g, i);
      Regroup(if f[0].index == i then f[0].name else "", NameOf(f[1..], i), NameOf(g, i));
    }
  }

  lemma {:induction false} ArgumentsConcatenate(f: seq<Fragment>, g: seq<Fragment>, i: int)
    ensures ArgumentsOf(f + g, i) == ArgumentsOf(f, i) + ArgumentsOf(g, i)
    decreases |f|
  {
    if f == [] {
      assert f + g == g;
    } else {
      assert (f + g)[1..] == f[1..] + g;
      ArgumentsConcatenate(f[1..], g, i);
      Regroup(if f[0].index == i then f[0].arguments else "", ArgumentsOf(f[1..], i), ArgumentsOf(g, i));
    }
  }

  lemma {:induction false} LastIdWins(f: seq<Fragment>, g: seq<Fragment>, i: int)
    ensures IdOf(f + g, i) == if IdOf(g, i) != "" then IdOf(g, i) else IdOf(f, i)
    decreases |f|
  {
    if f == [] {
      assert f + g == g;
    } else {
      assert (f + g)[1..] == f[1..] + g;
      LastIdWins(f[1..], g, i);
    }
  }

  lemma ProjectionsConcatenate(f: seq<Fragment>, g: seq<Fragment>, i: int)
    ensures NameOf(f + g, i) == NameOf(f, i) + NameOf(g, i)
    ensures ArgumentsOf(f + g, i) == ArgumentsOf(f, i) + ArgumentsOf(g, i)
    ensures IdOf(f + g, i) == if IdOf(g, i) != "" then IdOf(g, i) else IdOf(f, i)
  {
    NamesConcatenate(f, g, i);
    ArgumentsConcatenate(f, g, i);
    LastIdWins(f, g, i);
  }

  lemma ProjectionOfOne(x: Fragment, i: int)
    ensures NameOf([x], i) == if x.index == i then x.name else ""
    ensures ArgumentsOf([x], i) == if x.index == i then x.arguments else ""
    ensures IdOf([x], i) == if x.index == i then x.id else ""
  {
    assert [x][1..] == [];
  }

  lemma ProjectionOfTwo(x: Fragment, y: Fragment, i: int)
    ensures NameOf([x, y], i) == NameOf([x], i) + NameOf([y], i)
    ensures ArgumentsOf([x, y], i) == ArgumentsOf([x], i) + ArgumentsOf([y], i)
    ensures IdOf([x, y], i) == if IdOf([y], i) != "" then IdOf([y], i) else IdOf([x], i)
  {
    assert [x, y] == [x] + [y];
    ProjectionsConcatenate([x], [y], i);
  }

  /** Replacing a stretch of a stream by one with the same projections changes nothing. */
  lemma ProjectionsInContext(before: seq<Fragment>, f: seq<Fragment>, g: seq<Fragment>, rest: seq<Fragment>)
    requires SameProjections(f, g)
    ensures SameProjections(before + f + rest, before + g + rest)
  {
    forall i
      ensures NameOf(before + f + rest, i) == NameOf(before + g + rest, i)
      ensures ArgumentsOf(before + f + rest, i) == ArgumentsOf(before + g + rest, i)
      ensures IdOf(before + f + rest, i) == IdOf(before + g + rest, i)
    {
      assert NameOf(f, i) == NameOf(g, i);
      ProjectionsConcatenate(before + f, rest, i);
      ProjectionsConcatenate(before, f, i);
      ProjectionsConcatenate(before + g, rest, i);
      ProjectionsConcatenate(before, g, i);
    }
  }

  /** A fragment may arrive in two pieces, wherever its name and its arguments are cut. */
  lemma SplitChangesNothing(before: seq<Fragment>, i: int, id: string,
                            n: string, n': string, a: string, a': string, rest: seq<Fragment>)
    ensures SameProjections(before + [Fragment(i, id, n + n', a + a')] + rest,
                            before + [Fragment(i, id, n, a), Fragment(i, "", n', a')] + rest)
  {
    var whole, x, y := Fragment(i, id, n + n', a + a'), Fragment(i, id, n, a), Fragment(i, "", n', a');
    forall j
      ensures NameOf([whole], j) == NameOf([x, y], j)
      ensures ArgumentsOf([whole], j) == ArgumentsOf([x, y], j)
      ensures IdOf([whole], j) == IdOf([x, y], j)
    {
      ProjectionOfOne(whole, j);
      ProjectionOfOne(x, j);
      ProjectionOfOne(y, j);
      ProjectionOfTwo(x, y, j);
    }
    ProjectionsInContext(before, [whole], [x, y], rest);
  }

  /** Fragments of different calls may overtake each other. */
  lemma InterleavingChangesNothing(before: seq<Fragment>, x: Fragment, y: Fragment, rest: seq<Fragment>)
    requires x.index != y.index
    ensures SameProjections(before + [x, y] + rest, before + [y, x] + rest)
  {
    forall j
      ensures NameOf([x, y], j) == NameOf([y, x], j)
      ensures ArgumentsOf([x, y], j) == ArgumentsOf([y, x], j)
      ensures IdOf([x, y], j) == IdOf([y, x], j)
    {
      ProjectionOfOne(x, j);
      ProjectionOfOne(y, j);
      ProjectionOfTwo(x, y, j);
      ProjectionOfTwo(y, x, j);
    }
    ProjectionsInContext(before, [x, y], [y, x], rest);
  }

  // ---------- the streaming loop ----------

  predicate Cancelled(chunks: seq<Chunk>)
  {
    exists k | 0 <= k < |chunks| :: chunks[k].cancelled
  }

  /** The last finish reason given before the cancel signal, which overrules it. */
  function Finish(chunks: seq<Chunk>, current: string): string
  {
    if chunks == [] then current
    else if chunks[0].cancelled then "cancelled"
    else Finish(chunks[1..], if chunks[0].choice.Some? && chunks[0].choice.value.finish != ""
                             then chunks[0].choice.value.finish else current)
  }

  /** The last usage that came with a delta; one sent in a chunk of its own is passed over. */
  function UsageSeen(chunks: seq<Chunk>, current: Usage): Usage
  {
    if chunks == [] || chunks[0].cancelled then current
    else
      var c := chunks[0];
      UsageSeen(chunks[1..],
                if c.choice.Some? && c.choice.value.delta.Some? && c.usage.Some? then c.usage.value else current)
  }

  function Closing(chunks: seq<Chunk>): Event
  {
    var finish := Finish(chunks, "stop");
    Done(finish == "cancelled", finish, Reasoning(Deltas(chunks)), UsageSeen(chunks, Usage(0, 0)))
  }

  /** The events of a stream that did not fail: text, then whole calls, then the end. */
  ghost predicate Delivered(chunks: seq<Chunk>, events: seq<Event>)
  {
    exists calls :: Assembles(Fragments(Deltas(chunks)), calls) &&
                    events == Tokens(Deltas(chunks)) + calls + [Closing(chunks)]
  }

  datatype Partial = Partial(id: string, name: string, arguments: string)

  /** What the accumulator knows after some fragments. */
  ghost predicate Holds(accum: map<int, Partial>, fragments: seq<Fragment>)
  {
    forall i :: if i in accum
                then accum[i] == Partial(IdOf(fragments, i), NameOf(fragments, i), ArgumentsOf(fragments, i))
                else Unseen(fragments, i)
  }

  ghost predicate Unseen(fragments: seq<Fragment>, i: int)
  {
    IdOf(fragments, i) == NameOf(fragments, i) == ArgumentsOf(fragments, i) == ""
  }

  /** The accumulator after one more fragment. */
  function Added(accum: map<int, Partial>, tc: Fragment): map<int, Partial>
  {
    var acc := if tc.index in accum then accum[tc.index] else Partial("", "", "");
    accum[tc.index := Partial(if tc.id != "" then tc.id else acc.id, acc.name + tc.name, acc.arguments + tc.arguments)]
  }

  lemma HoldsAfter(accum: map<int, Partial>, known: seq<Fragment>, tc: Fragment)
    requires Holds(accum, known)
    ensures Holds(Added(accum, tc), known + [tc])
  {
    var next, later := Added(accum, tc), known + [tc];
    forall i
      ensures if i in next then next[i] == Partial(IdOf(later, i), NameOf(later, i), ArgumentsOf(later, i))
              else Unseen(later, i)
    {
      ProjectionsConcatenate(known, [tc], i);
      ProjectionOfOne(tc, i);
      assert i !in accum ==> Unseen(known, i);
    }
  }

  method Accumulate(accum: map<int, Partial>, calls: seq<Fragment>, ghost soFar: seq<Fragment>)
    returns (accum': map<int, Partial>)
    requires Holds(accum, soFar)
    ensures Holds(accum', soFar + calls)
  {
    accum' := accum;
    assert soFar + calls[..0] == soFar;
    for k := 0 to |calls|
      invariant Holds(accum', soFar + calls[..k])
    {
      var tc := calls[k];
      HoldsAfter(accum', soFar + calls[..k], tc);
      assert soFar + calls[..k + 1] == soFar + calls[..k] + [tc];
      if tc.index !in accum' {
        accum' := accum'[tc.index := Partial("", "", "")];
      }
      var acc := accum'[tc.index];
      if tc.id != "" {
        acc := acc.(id := tc.id);
      }
      acc := acc.(name := acc.name + tc.name, arguments := acc.arguments + tc.arguments);
      accum' := accum'[tc.index := acc];
    }
    assert calls[..|calls|] == calls;
  }

  predicate Least(m: int, s: set<int>) { m in s && forall j :: j in s ==> m <= j }

  lemma Member<T>(s: set<T>) returns (x: T)
    requires s != {}
    ensures x in s
  {
    x :| x in s;
  }

  lemma {:induction false} LeastExists(s: set<int>, x: int)
    requires x in s
    ensures exists m :: Least(m, s)
    decreases s
  {
    if y: int :| y in s && y < x {
      var below := set z | z in s && z < x;
      assert x !in below;
      LeastExists(below, y);
      var m :| Least(m, below);
      forall j | j in s ensures m <= j {
        assert j < x ==> j in below;
      }
      assert m in below && Least(m, s);
    } else {
      assert Least(x, s);
    }
  }

  lemma AscendingSnoc(xs: seq<int>, x: int)
    requires Ascending(xs) && forall i :: i in xs ==> i < x
    ensures Ascending(xs + [x])
  {
    forall i, j | 0 <= i < j < |xs + [x]| ensures (xs + [x])[i] < (xs + [x])[j] {
      assert j == |xs| ==> xs[i] in xs;
    }
  }

  method Sorted(keys: set<int>) returns (order: seq<int>)
    ensures Ascending(order) && forall i :: i in order <==> i in keys
  {
    order := [];
    var rest := keys;
    while rest != {}
      invariant rest <= keys && Ascending(order)
      invariant forall i :: i in order <==> i in keys - rest
      invariant forall i, j :: i in order && j in rest ==> i < j
    {
      ghost var x := Member(rest);
      LeastExists(rest, x);
      var m :| Least(m, rest);
      AscendingSnoc(order, m);
      order, rest := order + [m], rest - {m};
    }
  }

  /** `named` are the indices with a name among the first k of `order`. */
  ghost predicate NamedSoFar(fragments: seq<Fragment>, order: seq<int>, k: nat, named: seq<int>)
    requires k <= |order|
  {
    && Ascending(named)
    && forall i :: i in named <==> i in order[..k] && NameOf(fragments, i) != ""
  }

  lemma NamedNext(fragments: seq<Fragment>, order: seq<int>, k: nat, named: seq<int>)
    requires Ascending(order) && k < |order| && NamedSoFar(fragments, order, k, named)
    ensures NamedSoFar(fragments, order, k + 1,
                       if NameOf(fragments, order[k]) != "" then named + [order[k]] else named)
  {
    assert order[..k + 1] == order[..k] + [order[k]];
    if NameOf(fragments, order[k]) != "" {
      forall i | i in named ensures i < order[k] {
        assert i in order[..k];
      }
      AscendingSnoc(named, order[k]);
    }
  }

  lemma CallsInNext(fragments: seq<Fragment>, order: seq<int>, i: int)
    ensures CallsIn(fragments, order + [i]) == CallsIn(fragments, order) + [Assembled(fragments, i)]
  {
  }

  lemma NamedAll(accum: map<int, Partial>, fragments: seq<Fragment>, order: seq<int>, named: seq<int>)
    requires Holds(accum, fragments) && (forall i :: i in order <==> i in accum.Keys)
    requires NamedSoFar(fragments, order, |order|, named)
    ensures Order(fragments, named)
  {
    assert order[..|order|] == order;
    forall i ensures i in named <==> NameOf(fragments, i) != "" {
      assert i !in accum ==> Unseen(fragments, i);
    }
  }

  /** Emits the calls that got a name, in ascending order of index. */
  method Emit(accum: map<int, Partial>, ghost fragments: seq<Fragment>) returns (calls: seq<Event>)
    requires Holds(accum, fragments)
    ensures Assembles(fragments, calls)
  {
    var order := Sorted(accum.Keys);
    calls := [];
    ghost var named: seq<int> := [];
    for k := 0 to |order|
      invariant NamedSoFar(fragments, order, k, named) && calls == CallsIn(fragments, named)
    {
      var i := order[k];
      assert i in order;
      var acc := accum[i];
      NamedNext(fragments, order, k, named);
      if acc.name != "" {
        CallsInNext(fragments, named, i);
        calls := calls + [ToolCall(if acc.id != "" then acc.id else DefaultId(i), acc.name, acc.arguments)];
        named := named + [i];
      }
    }
    NamedAll(accum, fragments, order, named);
  }

  /** What the loop has still to read, seen from what it has read: the whole says the same as the events,
      fragments and totals gathered so far followed by the rest. */
  ghost predicate ReadSoFar(chunks: seq<Chunk>, k: nat, events: seq<Event>, read: seq<Fragment>,
                            thinking: string, finish: string, usage: Usage)
    requires k <= |chunks|
  {
    var rest := chunks[k..];
    && Tokens(Deltas(chunks)) == events + Tokens(Deltas(rest))
    && Fragments(Deltas(chunks)) == read + Fragments(Deltas(rest))
    && Reasoning(Deltas(chunks)) == thinking + Reasoning(Deltas(rest))
    && Finish(chunks, "stop") == Finish(rest, finish)
    && UsageSeen(chunks, Usage(0, 0)) == UsageSeen(rest, usage)
    && (Cancelled(chunks) <==> Cancelled(rest))
  }

  lemma CancelledNext(chunks: seq<Chunk>)
    requires chunks != []
    ensures Cancelled(chunks) <==> chunks[0].cancelled || Cancelled(chunks[1..])
  {
    if Cancelled(chunks) && !chunks[0].cancelled {
      var k :| 0 <= k < |chunks| && chunks[k].cancelled;
      assert chunks[1..][k - 1].cancelled;
    }
    if Cancelled(chunks[1..]) {
      var k :| 0 <= k < |chunks[1..]| && chunks[1..][k].cancelled;
      assert chunks[k + 1].cancelled;
    }
  }

  function DeltaOf(c: Chunk): Delta
  {
    if c.choice.Some? && c.choice.value.delta.Some? then c.choice.value.delta.value else Delta("", "", [])
  }

  function TextOf(c: Chunk): seq<Event>
  {
    if DeltaOf(c).content != "" then [Token(DeltaOf(c).content)] else []
  }

  function FinishAfter(c: Chunk, finish: string): string
  {
    if c.choice.Some? && c.choice.value.finish != "" then c.choice.value.finish else finish
  }

  function UsageAfter(c: Chunk, usage: Usage): Usage
  {
    if c.choice.Some? && c.choice.value.delta.Some? && c.usage.Some? then c.usage.value else usage
  }

  lemma ConsDelta(d: Delta, more: seq<Delta>)
    ensures Tokens([d] + more) == (if d.content != "" then [Token(d.content)] else []) + Tokens(more)
    ensures Fragments([d] + more) == d.calls + Fragments(more)
    ensures Reasoning([d] + more) == d.reasoning + Reasoning(more)
  {
    assert ([d] + more)[1..] == more;
  }

  /** A stream seen from its first chunk, if that is not cancelled. */
  lemma FirstDelta(rest: seq<Chunk>)
    requires rest != [] && !rest[0].cancelled
    ensures var d, more := DeltaOf(rest[0]), Deltas(rest[1..]);
      && Tokens(Deltas(rest)) == TextOf(rest[0]) + Tokens(more)
      && Fragments(Deltas(rest)) == d.calls + Fragments(more)
      && Reasoning(Deltas(rest)) == d.reasoning + Reasoning(more)
  {
    ConsDelta(DeltaOf(rest[0]), Deltas(rest[1..]));
  }

  lemma FirstChunk(rest: seq<Chunk>, finish: string, usage: Usage)
    requires rest != [] && !rest[0].cancelled
    ensures Finish(rest, finish) == Finish(rest[1..], FinishAfter(rest[0], finish))
    ensures UsageSeen(rest, usage) == UsageSeen(rest[1..], UsageAfter(rest[0], usage))
    ensures Cancelled(rest) <==> Cancelled(rest[1..])
  {
    CancelledNext(rest);
  }

  lemma Regroup<T>(a: seq<T>, b: seq<T>, c: seq<T>)
    ensures a + (b + c) == a + b + c
  {
  }

  /** Reading one chunk that is not cancelled. */
  lemma ReadChunk(chunks: seq<Chunk>, k: nat, events: seq<Event>, read: seq<Fragment>,
                  thinking: string, finish: string, usage: Usage)
    requires k < |chunks| && ReadSoFar(chunks, k, events, read, thinking, finish, usage) && !chunks[k].cancelled
    ensures var c := chunks[k];
            ReadSoFar(chunks, k + 1, events + TextOf(c), read + DeltaOf(c).calls, thinking + DeltaOf(c).reasoning,
                      FinishAfter(c, finish), UsageAfter(c, usage))
  {
    var rest := chunks[k..];
    assert rest[0] == chunks[k] && rest[1..] == chunks[k + 1..];
    FirstDelta(rest);
    FirstChunk(rest, finish, usage);
    var d, more := DeltaOf(rest[0]), Deltas(rest[1..]);
    Regroup(events, TextOf(rest[0]), Tokens(more));
    Regroup(read, d.calls, Fragments(more));
    Regroup(thinking, d.reasoning, Reasoning(more));
  }

  datatype Gathered = Gathered(
    events: seq<Event>,
    accum: map<int, Partial>,
    thinking: string,
    finish: string,
    usage: Usage)

  /** What one chunk adds: perhaps a finish reason, and with its delta text, thought, fragments and usage. */
  method TakeChunk(chunk: Chunk, g: Gathered, ghost read: seq<Fragment>) returns (g': Gathered)
    requires Holds(g.accum, read)
    ensures g'.events == g.events + TextOf(chunk) && g'.thinking == g.thinking + DeltaOf(chunk).reasoning
    ensures g'.finish == FinishAfter(chunk, g.finish) && g'.usage == UsageAfter(chunk, g.usage)
    ensures Holds(g'.accum, read + DeltaOf(chunk).calls)
  {
    g' := g;
    assert read + [] == read && g.events + [] == g.events && g.thinking + "" == g.thinking;
    if chunk.choice.None? {
      return;
    }
    var choice := chunk.choice.value;
    if choice.finish != "" {
      g' := g'.(finish := choice.finish);
    }
    if choice.delta.None? {
      return;
    }
    var delta := choice.delta.value;
    if delta.content != "" {
      g' := g'.(events := g'.events + [Token(delta.content)]);
    }
    var accum := Accumulate(g'.accum, delta.calls, read);
    g' := g'.(thinking := g'.thinking + delta.reasoning, accum := accum);
    if chunk.usage.Some? {
      g' := g'.(usage := chunk.usage.value);
    }
  }

  /** The reading loop; `stopped` says that the cancel signal ended it. */
  method ReadAll(chunks: seq<Chunk>) returns (g: Gathered, stopped: bool, ghost read: seq<Fragment>)
    ensures Holds(g.accum, read) && stopped == Cancelled(chunks)
    ensures Tokens(Deltas(chunks)) == g.events && Fragments(Deltas(chunks)) == read
    ensures Closing(chunks) == Done(g.finish == "cancelled", g.finish, g.thinking, g.usage)
  {
    g, read, stopped := Gathered([], map[], "", "stop", Usage(0, 0)), [], false;
    assert chunks[0..] == chunks;
    var k := 0;
    while k < |chunks|
      invariant 0 <= k <= |chunks| && Holds(g.accum, read)
      invariant ReadSoFar(chunks, k, g.events, read, g.thinking, g.finish, g.usage)
    {
      if chunks[k].cancelled {
        ReadToSignal(chunks, k, g.events, read, g.thinking, g.finish, g.usage);
        return g.(finish := "cancelled"), true, read;
      }
      ReadChunk(chunks, k, g.events, read, g.thinking, g.finish, g.usage);
      g := TakeChunk(chunks[k], g, read);
      read := read + DeltaOf(chunks[k]).calls;
      k := k + 1;
    }
    ReadToEnd(chunks, g.events, read, g.thinking, g.finish, g.usage);
  }

  lemma ReadToEnd(chunks: seq<Chunk>, events: seq<Event>, read: seq<Fragment>, thinking: string, finish: string,
                  usage: Usage)
    requires ReadSoFar(chunks, |chunks|, events, read, thinking, finish, usage)
    ensures Tokens(Deltas(chunks)) == events && Fragments(Deltas(chunks)) == read && !Cancelled(chunks)
    ensures Closing(chunks) == Done(finish == "cancelled", finish, thinking, usage)
  {
    NothingLeft(chunks[|chunks|..], finish, usage);
    assert events + [] == events && read + [] == read && thinking + "" == thinking;
  }

  lemma NothingLeft(rest: seq<Chunk>, finish: string, usage: Usage)
    requires |rest| == 0
    ensures Tokens(Deltas(rest)) == [] && Fragments(Deltas(rest)) == [] && Reasoning(Deltas(rest)) == ""
    ensures Finish(rest, finish) == finish && UsageSeen(rest, usage) == usage && !Cancelled(rest)
  {
  }

  lemma ReadToSignal(chunks: seq<Chunk>, k: nat, events: seq<Event>, read: seq<Fragment>, thinking: string,
                     finish: string, usage: Usage)
    requires k < |chunks| && chunks[k].cancelled && ReadSoFar(chunks, k, events, read, thinking, finish, usage)
    ensures Tokens(Deltas(chunks)) == events && Fragments(Deltas(chunks)) == read && Cancelled(chunks)
    ensures Closing(chunks) == Done(true, "cancelled", thinking, usage)
  {
    CancelledNext(chunks[k..]);
    assert Deltas(chunks[k..]) == [];
  }

  /** One streamed request: the chunks that arrive, then either the end of the stream or a failure. */
  method StreamOnce(chunks: seq<Chunk>, fails: bool) returns (events: seq<Event>, raised: bool)
    ensures raised <==> fails && !Cancelled(chunks)
    ensures raised ==> events == Tokens(Deltas(chunks))
    ensures !raised ==> Delivered(chunks, events)
  {
    var g, stopped, read := ReadAll(chunks);
    if fails && !stopped {
      return g.events, true;
    }
    var calls := Emit(g.accum, read);
    events := g.events + calls + [Done(g.finish == "cancelled", g.finish, g.thinking, g.usage)];
    raised := false;
  }

  function CallEvents(events: seq<Event>): seq<Event>
  {
    if events == [] then []
    else (if events[0].ToolCall? then [events[0]] else []) + CallEvents(events[1..])
  }

  lemma {:induction false} CallEventsConcatenate(a: seq<Event>, b: seq<Event>)
    ensures CallEvents(a + b) == CallEvents(a) + CallEvents(b)
    decreases |a|
  {
    if a == [] {
      assert a + b == b;
    } else {
      CallEventsConcatenate(a[1..], b);
      assert (a + b)[0] == a[0] && (a + b)[1..] == a[1..] + b;
      var first := if a[0].ToolCall? then [a[0]] else [];
      assert first + (CallEvents(a[1..]) + CallEvents(b)) == first + CallEvents(a[1..]) + CallEvents(b);
    }
  }

  lemma {:induction false} TokensAreNoCalls(deltas: seq<Delta>)
    ensures CallEvents(Tokens(deltas)) == []
    decreases |deltas|
  {
    if deltas != [] {
      var token: seq<Event> := if deltas[0].content != "" then [Token(deltas[0].content)] else [];
      TokensAreNoCalls(deltas[1..]);
      CallEventsConcatenate(token, Tokens(deltas[1..]));
      assert token != [] ==> token[1..] == [];
    }
  }

  lemma {:induction false} CallsAreCalls(calls: seq<Event>)
    requires forall e :: e in calls ==> e.ToolCall?
    ensures CallEvents(calls) == calls
    decreases |calls|
  {
    if calls != [] {
      assert calls[0] in calls;
      CallsAreCalls(calls[1..]);
      assert calls == [calls[0]] + calls[1..];
    }
  }

  lemma NoCallAlone(e: Event)
    requires !e.ToolCall?
    ensures CallEvents([e]) == []
  {
    assert [e][1..] == [];
  }

  lemma CallsAmong(tokens: seq<Event>, calls: seq<Event>, end: Event)
    requires CallEvents(tokens) == [] && !end.ToolCall? && forall e :: e in calls ==> e.ToolCall?
    ensures CallEvents(tokens + calls + [end]) == calls
  {
    CallEventsConcatenate(tokens + calls, [end]);
    CallEventsConcatenate(tokens, calls);
    CallsAreCalls(calls);
    NoCallAlone(end);
  }

  lemma DeliveredCalls(chunks: seq<Chunk>, events: seq<Event>)
    requires Delivered(chunks, events)
    ensures Assembles(Fragments(Deltas(chunks)), CallEvents(events))
  {
    var calls :| Assembles(Fragments(Deltas(chunks)), calls) &&
                 events == Tokens(Deltas(chunks)) + calls + [Closing(chunks)];
    TokensAreNoCalls(Deltas(chunks));
    CallsAmong(Tokens(Deltas(chunks)), calls, Closing(chunks));
  }

  /** However a reply is cut into fragments and chunks: two streams that say the same about every index
      lead to the same tool calls. */
  lemma FragmentationIsInvisible(c: seq<Chunk>, c': seq<Chunk>, events: seq<Event>, events': seq<Event>)
    requires Delivered(c, events) && Delivered(c', events')
    requires SameProjections(Fragments(Deltas(c)), Fragments(Deltas(c')))
    ensures CallEvents(events) == CallEvents(events')
  {
    DeliveredCalls(c, events);
    DeliveredCalls(c', events');
    SameProjectionsSameCalls(Fragments(Deltas(c)), Fragments(Deltas(c')), CallEvents(events), CallEvents(events'));
  }

  // ---------- usage reports ----------

  /** The usage reports that arrive before the cancel signal, each with whether it came with a delta. */
  function Reports(chunks: seq<Chunk>): seq<(Usage, bool)>
  {
    if chunks == [] || chunks[0].cancelled then []
    else
      var c := chunks[0];
      (if c.usage.Some? then [(c.usage.value, c.choice.Some? && c.choice.value.delta.Some?)] else [])
      + Reports(chunks[1..])
  }

  lemma {:induction false} UnreportedUsage(chunks: seq<Chunk>, current: Usage)
    requires forall r :: r in Reports(chunks) ==> !r.1
    ensures UsageSeen(chunks, current) == current
    decreases |chunks|
  {
    if chunks != [] && !chunks[0].cancelled {
      assert forall r :: r in Reports(chunks[1..]) ==> r in Reports(chunks);
      UnreportedUsage(chunks[1..], current);
    }
  }

  /** When a stream reports its usage once, the closing event tells that usage if and only if the report
      came with a delta, or was of nothing. A report in a chunk of its own is lost. */
  lemma {:induction false} UsageToldIff(chunks: seq<Chunk>, current: Usage, usage: Usage, withDelta: bool)
    requires Reports(chunks) == [(usage, withDelta)]
    ensures UsageSeen(chunks, current) == if withDelta then usage else current
    ensures UsageSeen(chunks, Usage(0, 0)) == usage <==> withDelta || usage == Usage(0, 0)
    decreases |chunks|
  {
    var c := chunks[0];
    if c.usage.Some? {
      assert Reports(chunks)[0] == (usage, withDelta) && Reports(chunks)[1..] == Reports(chunks[1..]) == [];
      UnreportedUsage(chunks[1..], if withDelta then usage else current);
      UnreportedUsage(chunks[1..], if withDelta then usage else Usage(0, 0));
    } else {
      assert Reports(chunks) == Reports(chunks[1..]);
      UsageToldIff(chunks[1..], current, usage, withDelta);
    }
  }
}
