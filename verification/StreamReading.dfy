/** What a streamed reply says, told without the reading loop: one chunk says what it carries, a stream what
    its pieces say one after the other, and nothing counts from the cancel signal on. */
module StreamReading {
  import opened Prelude
  import opened ToolCalls

  lemma {:induction false} DeltasConcatenate(a: seq<Chunk>, b: seq<Chunk>)
    requires !Cancelled(a)
    ensures Deltas(a + b) == Deltas(a) + Deltas(b)
    decreases |a|
  {
    if a == [] {
      assert a + b == b;
    } else {
      CancelledNext(a);
      assert (a + b)[0] == a[0] && (a + b)[1..] == a[1..] + b;
      DeltasConcatenate(a[1..], b);
    }
  }

  lemma {:induction false} FinishConcatenates(a: seq<Chunk>, b: seq<Chunk>, current: string)
    requires !Cancelled(a)
    ensures Finish(a + b, current) == Finish(b, Finish(a, current))
    decreases |a|
  {
    if a == [] {
      assert a + b == b;
    } else {
      CancelledNext(a);
      assert (a + b)[0] == a[0] && (a + b)[1..] == a[1..] + b;
      FinishConcatenates(a[1..], b, FinishAfter(a[0], current));
    }
  }

  lemma {:induction false} UsageConcatenates(a: seq<Chunk>, b: seq<Chunk>, current: Usage)
    requires !Cancelled(a)
    ensures UsageSeen(a + b, current) == UsageSeen(b, UsageSeen(a, current))
    decreases |a|
  {
    if a == [] {
      assert a + b == b;
    } else {
      CancelledNext(a);
      assert (a + b)[0] == a[0] && (a + b)[1..] == a[1..] + b;
      UsageConcatenates(a[1..], b, UsageAfter(a[0], current));
    }
  }

  lemma {:induction false} TokensConcatenate(d: seq<Delta>, e: seq<Delta>)
    ensures Tokens(d + e) == Tokens(d) + Tokens(e)
    decreases |d|
  {
    if d == [] {
      assert d + e == e;
    } else {
      assert (d + e)[0] == d[0] && (d + e)[1..] == d[1..] + e;
      TokensConcatenate(d[1..], e);
      var first: seq<Event> := if d[0].content != "" then [Token(d[0].content)] else [];
      Regroup(first, Tokens(d[1..]), Tokens(e));
    }
  }

  lemma {:induction false} FragmentsConcatenate(d: seq<Delta>, e: seq<Delta>)
    ensures Fragments(d + e) == Fragments(d) + Fragments(e)
    decreases |d|
  {
    if d == [] {
      assert d + e == e;
    } else {
      assert (d + e)[0] == d[0] && (d + e)[1..] == d[1..] + e;
      FragmentsConcatenate(d[1..], e);
      Regroup(d[0].calls, Fragments(d[1..]), Fragments(e));
    }
  }

  lemma {:induction false} ReasoningConcatenates(d: seq<Delta>, e: seq<Delta>)
    ensures Reasoning(d + e) == Reasoning(d) + Reasoning(e)
    decreases |d|
  {
    if d == [] {
      assert d + e == e;
    } else {
      assert (d + e)[0] == d[0] && (d + e)[1..] == d[1..] + e;
      ReasoningConcatenates(d[1..], e);
      Regroup(d[0].reasoning, Reasoning(d[1..]), Reasoning(e));
    }
  }

  /** A stream says what its pieces say, in order; of finish reasons and usages the last one counts. */
  lemma PieceByPiece(a: seq<Chunk>, b: seq<Chunk>, finish: string, usage: Usage)
    requires !Cancelled(a)
    ensures Tokens(Deltas(a + b)) == Tokens(Deltas(a)) + Tokens(Deltas(b))
    ensures Fragments(Deltas(a + b)) == Fragments(Deltas(a)) + Fragments(Deltas(b))
    ensures Reasoning(Deltas(a + b)) == Reasoning(Deltas(a)) + Reasoning(Deltas(b))
    ensures Finish(a + b, finish) == Finish(b, Finish(a, finish))
    ensures UsageSeen(a + b, usage) == UsageSeen(b, UsageSeen(a, usage))
  {
    DeltasConcatenate(a, b);
    TokensConcatenate(Deltas(a), Deltas(b));
    FragmentsConcatenate(Deltas(a), Deltas(b));
    ReasoningConcatenates(Deltas(a), Deltas(b));
    FinishConcatenates(a, b, finish);
    UsageConcatenates(a, b, usage);
  }

  lemma OneDeltaSays(d: Delta)
    ensures Tokens([d]) == (if d.content != "" then [Token(d.content)] else [])
    ensures Fragments([d]) == d.calls && Reasoning([d]) == d.reasoning
  {
    assert [d][1..] == [];
    assert d.calls + [] == d.calls && d.reasoning + "" == d.reasoning;
  }

  /** One chunk with a delta says what that carries, and its usage counts; without one its finish reason does
      and nothing else. */
  lemma OneChunkSays(c: Chunk, finish: string, usage: Usage)
    requires !c.cancelled
    ensures Finish([c], finish)
         == if c.choice.Some? && c.choice.value.finish != "" then c.choice.value.finish else finish
    ensures if c.choice.Some? && c.choice.value.delta.Some? then
              var d := c.choice.value.delta.value;
              && Tokens(Deltas([c])) == (if d.content != "" then [Token(d.content)] else [])
              && Fragments(Deltas([c])) == d.calls && Reasoning(Deltas([c])) == d.reasoning
              && UsageSeen([c], usage) == (if c.usage.Some? then c.usage.value else usage)
            else Deltas([c]) == [] && UsageSeen([c], usage) == usage
  {
    assert [c][1..] == [];
    if c.choice.Some? && c.choice.value.delta.Some? {
      assert Deltas([c]) == [c.choice.value.delta.value];
      OneDeltaSays(c.choice.value.delta.value);
    }
  }

  lemma SignalSaysNothing(rest: seq<Chunk>, finish: string, usage: Usage)
    requires rest != [] && rest[0].cancelled
    ensures Deltas(rest) == [] && Finish(rest, finish) == "cancelled" && UsageSeen(rest, usage) == usage
  {
  }

  /** From the cancel signal on nothing counts: the text, the calls and the totals are those of what came
      before, and the end is told as cancelled, whatever finish reason came before. */
  lemma SignalCutsOff(before: seq<Chunk>, rest: seq<Chunk>, events: seq<Event>)
    requires !Cancelled(before) && rest != [] && rest[0].cancelled
    ensures Delivered(before + rest, events) <==>
            exists calls :: Assembles(Fragments(Deltas(before)), calls) &&
              events == Tokens(Deltas(before)) + calls
                        + [Done(true, "cancelled", Reasoning(Deltas(before)), UsageSeen(before, Usage(0, 0)))]
  {
    DeltasConcatenate(before, rest);
    FinishConcatenates(before, rest, "stop");
    UsageConcatenates(before, rest, Usage(0, 0));
    SignalSaysNothing(rest, Finish(before, "stop"), UsageSeen(before, Usage(0, 0)));
    assert Deltas(before) + [] == Deltas(before);
    var end := Done(true, "cancelled", Reasoning(Deltas(before)), UsageSeen(before, Usage(0, 0)));
    assert Closing(before + rest) == end && Deltas(before + rest) == Deltas(before);
    forall calls
      ensures Assembles(Fragments(Deltas(before + rest)), calls) <==> Assembles(Fragments(Deltas(before)), calls)
      ensures Tokens(Deltas(before + rest)) + calls + [Closing(before + rest)] == Tokens(Deltas(before)) + calls + [end]
    {
    }
  }

  lemma {:induction false} NoReasonNoChange(chunks: seq<Chunk>, current: string)
    requires forall c :: c in chunks ==> !c.cancelled && (c.choice.Some? ==> c.choice.value.finish == "")
    ensures Finish(chunks, current) == current
    decreases |chunks|
  {
    if chunks != [] {
      assert chunks[0] in chunks && forall c :: c in chunks[1..] ==> c in chunks;
      NoReasonNoChange(chunks[1..], current);
    }
  }

  /** A stream that ends without ever giving a reason ends as stopped, and not as cancelled. */
  lemma NoReasonMeansStop(chunks: seq<Chunk>)
    requires forall c :: c in chunks ==> !c.cancelled && (c.choice.Some? ==> c.choice.value.finish == "")
    ensures Closing(chunks).finish == "stop" && !Closing(chunks).cancelled
  {
    NoReasonNoChange(chunks, "stop");
  }

  // ---------- identifiers ----------

  lemma {:induction false} DigitsAreDigits(n: nat)
    ensures Digits(n) != "" && (n >= 10 <==> |Digits(n)| >= 2)
    ensures forall i | 0 <= i < |Digits(n)| :: '0' <= Digits(n)[i] <= '9'
    decreases n
  {
    if n >= 10 { DigitsAreDigits(n / 10); }
  }

  lemma LastDigit(n: nat)
    ensures |Digits(n)| >= 1 && Digits(n)[|Digits(n)| - 1] == '0' + (n % 10) as char
    ensures n >= 10 ==> Digits(n)[..|Digits(n)| - 1] == Digits(n / 10)
  {
  }

  lemma {:induction false} DigitsTell(m: nat, n: nat)
    requires Digits(m) == Digits(n)
    ensures m == n
    decreases m
  {
    DigitsAreDigits(m);
    DigitsAreDigits(n);
    LastDigit(m);
    LastDigit(n);
    assert m % 10 == n % 10;
    if m >= 10 { DigitsTell(m / 10, n / 10); }
  }

  /** Different indices get different default identifiers, negative ones included. */
  lemma DefaultIdsDiffer(i: int, j: int)
    requires i != j
    ensures DefaultId(i) != DefaultId(j)
  {
    var a, b := DefaultId(i)[5..], DefaultId(j)[5..];
    assert DefaultId(i) == "call_" + a && DefaultId(j) == "call_" + b;
    DigitsAreDigits(if i < 0 then -i else i);
    DigitsAreDigits(if j < 0 then -j else j);
    if a == b {
      assert (i < 0 <==> a[0] == '-') && (j < 0 <==> b[0] == '-');
      if i < 0 { assert a[1..] == Digits(-i) && b[1..] == Digits(-j); }
      DigitsTell(if i < 0 then -i else i, if j < 0 then -j else j);
    }
  }

  /** No two calls that came without an identifier are emitted with the same one. */
  lemma UnnamedCallsDiffer(fragments: seq<Fragment>, order: seq<int>, k: nat, l: nat)
    requires Order(fragments, order) && k < l < |order|
    requires IdOf(fragments, order[k]) == IdOf(fragments, order[l]) == ""
    ensures CallsIn(fragments, order)[k].id != CallsIn(fragments, order)[l].id
  {
    DefaultIdsDiffer(order[k], order[l]);
  }
}
