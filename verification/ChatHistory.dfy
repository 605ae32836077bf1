/** A conversation's bounded history, and what an interruption does to it: the reply is first kept
    whole and marked, then cut down to what the user actually heard when that becomes known. */
module ChatHistory {
  import opened Prelude

  datatype Role = User | Assistant

  datatype Message = Message(role: Role, content: string, reasoning: Option<string>)

  /** A turn as the orchestrator sees it. `completed` is false when generation ended in an exception
      or its task was cancelled; nothing is then written back. */
  datatype Turn = Turn(
    userText: string,
    playedPrefix: Option<string>,
    parts: seq<string>,
    reasoning: string,
    cancelled: bool,
    completed: bool)

  datatype Chat = Chat(history: seq<Message>, pending: bool)

  function Joined(parts: seq<string>): string
  {
    if parts == [] then "" else Joined(parts[..|parts| - 1]) + parts[|parts| - 1]
  }

  function Reply(t: Turn): string { Trim(Joined(t.parts)) }

  /** Appends to a bounded queue: the oldest message gives way when it is full. */
  function Append(history: seq<Message>, m: Message, max: nat): (h: seq<Message>)
    ensures |history| <= max ==> |h| <= max
  {
    var all := history + [m];
    if |all| > max then all[|all| - max..] else all
  }

  function Heard(prefix: string): Message { Message(Assistant, Trim(prefix), None) }

  function Popped(h: seq<Message>): seq<Message>
  {
    if h != [] && h[|h| - 1].role == Assistant then h[..|h| - 1] else h
  }

  function ApplyPrefix(c: Chat, prefix: Option<string>, max: nat): Chat
  {
    if !c.pending || prefix.None? then c
    else
      var kept := Popped(c.history);
      Chat(if Trim(prefix.value) != "" then Append(kept, Heard(prefix.value), max) else kept, false)
  }

  function WriteBack(c: Chat, t: Turn, max: nat): Chat
  {
    var asked := Append(c.history, Message(User, t.userText, None), max);
    if Reply(t) == "" then Chat(asked, c.pending)
    else Chat(Append(asked, Message(Assistant, Reply(t), Some(t.reasoning)), max), c.pending || t.cancelled)
  }

  /** What the end of a turn's generation leaves. */
  function Finished(c: Chat, t: Turn, max: nat): Chat { if t.completed then WriteBack(c, t, max) else c }

  function TakeTurn(c: Chat, t: Turn, max: nat): Chat
  {
    Finished(ApplyPrefix(c, t.playedPrefix, max), t, max)
  }

  function TakeTurns(c: Chat, turns: seq<Turn>, max: nat): Chat
    decreases |turns|
  {
    if turns == [] then c else TakeTurns(TakeTurn(c, turns[0], max), turns[1..], max)
  }

  class Session {
    const id: string
    const maxHistory: nat
    var history: seq<Message>
    var pendingPlayedPrefix: bool
    var lastActive: int

    function Model(): Chat
      reads this
    {
      Chat(history, pendingPlayedPrefix)
    }

    constructor (id: string, maxHistory: nat, now: int)
      ensures this.id == id && this.maxHistory == maxHistory && lastActive == now && Model() == Chat([], false)
    {
      this.id, this.maxHistory, lastActive := id, maxHistory, now;
      history, pendingPlayedPrefix := [], false;
    }

    method Touch(now: int)
      modifies this`lastActive
      ensures lastActive == now
    {
      lastActive := now;
    }

    method AddMessage(m: Message)
      modifies this`history
      ensures history == Append(old(history), m, maxHistory)
    {
      history := history + [m];
      if |history| > maxHistory {
        history := history[|history| - maxHistory..];
      }
    }

    method ApplyPlayedPrefix(prefix: Option<string>)
      modifies this`history, this`pendingPlayedPrefix
      ensures Model() == ApplyPrefix(old(Model()), prefix, maxHistory)
    {
      if !pendingPlayedPrefix || prefix.None? {
        return;
      }
      pendingPlayedPrefix := false;
      if history != [] && history[|history| - 1].role == Assistant {
        history := history[..|history| - 1];
      }
      var heard := Trim(prefix.value);
      if heard != "" {
        AddMessage(Message(Assistant, heard, None));
      }
    }

    /** Collects the reply's parts and writes the exchange back, unless generation failed. */
    method WriteExchange(t: Turn)
      modifies this`history, this`pendingPlayedPrefix
      ensures Model() == Finished(old(Model()), t, maxHistory)
    {
      var text := "";
      var k := 0;
      while k < |t.parts|
        invariant 0 <= k <= |t.parts| && text == Joined(t.parts[..k])
        invariant Model() == old(Model())
      {
        assert t.parts[..k + 1][..k] == t.parts[..k];
        text := text + t.parts[k];
        k := k + 1;
      }
      assert t.parts[..k] == t.parts;
      if !t.completed {
        return;
      }
      AddMessage(Message(User, t.userText, None));
      var reply := Trim(text);
      if reply != "" {
        AddMessage(Message(Assistant, reply, Some(t.reasoning)));
        if t.cancelled {
          pendingPlayedPrefix := true;
        }
      }
    }

    /** One turn with nobody in between: apply the prefix, generate, write the exchange back. */
    method HandleMessage(t: Turn)
      modifies this`history, this`pendingPlayedPrefix
      ensures Model() == TakeTurn(old(Model()), t, maxHistory)
    {
      ApplyPlayedPrefix(t.playedPrefix);
      WriteExchange(t);
    }
  }

  // ---------- the reference transcript ----------

  /** The prefix that belongs to a reply just given, seen from the turns that follow it: the first
      one to arrive before another turn completes. */
  function PrefixFor(rest: seq<Turn>): Option<string>
  {
    if rest == [] then None
    else if rest[0].playedPrefix.Some? then rest[0].playedPrefix
    else if rest[0].completed then None
    else PrefixFor(rest[1..])
  }

  /** What of an interrupted reply ends up in the transcript. */
  function HeardPart(prefix: string): seq<Message>
  {
    if Trim(prefix) != "" then [Heard(prefix)] else []
  }

  function Exchange(t: Turn, rest: seq<Turn>): seq<Message>
  {
    if !t.completed then []
    else
      [Message(User, t.userText, None)] +
      (if Reply(t) == "" then []
       else if t.cancelled && PrefixFor(rest).Some? then HeardPart(PrefixFor(rest).value)
       else [Message(Assistant, Reply(t), Some(t.reasoning))])
  }

  /** The whole conversation, unbounded: every interrupted reply whose prefix became known is replaced
      by it, or left out if nothing was heard. */
  function Transcript(turns: seq<Turn>): seq<Message>
  {
    if turns == [] then [] else Exchange(turns[0], turns[1..]) + Transcript(turns[1..])
  }

  predicate IsSuffix(h: seq<Message>, t: seq<Message>)
  {
    |h| <= |t| && h == t[|t| - |h|..]
  }

  predicate Interrupted(t: Turn) { t.completed && t.cancelled && Reply(t) != "" }

  /** What the turns so far say about the newest entry: whether a reply is marked, whether that reply is
      the newest entry, and whether the newest entry is a question (the last completed turn had no reply). */
  datatype Known = Known(marked: bool, newest: bool, question: bool)

  const NOTHING_KNOWN: Known := Known(false, false, false)

  function NewestAfter(newest: bool, t: Turn): bool
  {
    if t.completed then Interrupted(t) else newest && t.playedPrefix.None?
  }

  function KnownAfter(k: Known, t: Turn): Known
  {
    Known(Interrupted(t) || (k.marked && t.playedPrefix.None?), NewestAfter(k.newest, t),
          if t.completed then Reply(t) == "" else k.question)
  }

  /** A prefix that arrives while a reply is marked belongs to the newest entry, or is blank and finds a
      question there, which is not cut. */
  predicate Harmless(k: Known, t: Turn)
  {
    k.marked && t.playedPrefix.Some? ==> k.newest || (k.question && Trim(t.playedPrefix.value) == "")
  }

  /** Every prefix is harmless where it arrives. */
  predicate Attributable(turns: seq<Turn>, k: Known)
  {
    turns == [] || (Harmless(k, turns[0]) && Attributable(turns[1..], KnownAfter(k, turns[0])))
  }

  /** Every turn right after an interrupted reply carries a prefix. */
  predicate Prompt(turns: seq<Turn>)
  {
    forall i | 0 < i < |turns| :: Interrupted(turns[i - 1]) ==> turns[i].playedPrefix.Some?
  }

  lemma {:induction false} PromptIsAttributable(turns: seq<Turn>, k: Known)
    requires Prompt(turns) && (k.marked ==> k.newest && (turns != [] ==> turns[0].playedPrefix.Some?))
    ensures Attributable(turns, k)
    decreases |turns|
  {
    if turns != [] {
      assert forall i | 0 <= i < |turns[1..]| :: turns[1..][i] == turns[i + 1];
      PromptIsAttributable(turns[1..], KnownAfter(k, turns[0]));
    }
  }

  /** The transcript so far, once the turns to come have settled its newest reply. */
  function Settled(soFar: seq<Message>, newest: bool, rest: seq<Turn>): seq<Message>
  {
    if newest && soFar != [] && PrefixFor(rest).Some?
    then soFar[..|soFar| - 1] + HeardPart(PrefixFor(rest).value) else soFar
  }

  lemma AppendKeepsSuffix(h: seq<Message>, t: seq<Message>, m: Message, max: nat)
    requires IsSuffix(h, t)
    ensures IsSuffix(Append(h, m, max), t + [m])
  {
    var all := h + [m];
    assert all == (t + [m])[|t| - |h|..];
  }

  lemma PopKeepsSuffix(h: seq<Message>, t: seq<Message>)
    requires IsSuffix(h, t) && t != [] && t[|t| - 1].role == Assistant
    ensures IsSuffix(Popped(h), t[..|t| - 1])
  {
    if h != [] {
      assert h[|h| - 1] == t[|t| - 1];
    }
  }

  /** The transcript so far once `prefix` has settled its newest reply. */
  function Cut(soFar: seq<Message>, prefix: string): seq<Message>
    requires soFar != []
  {
    soFar[..|soFar| - 1] + HeardPart(prefix)
  }

  lemma ApplyKeepsSuffix(c: Chat, soFar: seq<Message>, prefix: string, max: nat)
    requires IsSuffix(c.history, soFar) && c.pending
    requires soFar != [] && soFar[|soFar| - 1].role == Assistant
    ensures IsSuffix(ApplyPrefix(c, Some(prefix), max).history, Cut(soFar, prefix))
  {
    var before := soFar[..|soFar| - 1];
    PopKeepsSuffix(c.history, soFar);
    if Trim(prefix) != "" {
      AppendKeepsSuffix(Popped(c.history), before, Heard(prefix), max);
    } else {
      assert before + [] == before;
    }
  }

  lemma AppendTwoKeepsSuffix(h: seq<Message>, t: seq<Message>, m: Message, n: Message, max: nat)
    requires IsSuffix(h, t)
    ensures IsSuffix(Append(Append(h, m, max), n, max), t + [m, n])
  {
    AppendKeepsSuffix(h, t, m, max);
    AppendKeepsSuffix(Append(h, m, max), t + [m], n, max);
    assert t + [m] + [n] == t + [m, n];
  }

  lemma WriteBackKeepsSuffix(c: Chat, soFar: seq<Message>, t: Turn, max: nat)
    requires IsSuffix(c.history, soFar) && t.completed
    ensures IsSuffix(WriteBack(c, t, max).history, soFar + Exchange(t, []))
  {
    var user := Message(User, t.userText, None);
    if Reply(t) == "" {
      AppendKeepsSuffix(c.history, soFar, user, max);
      assert Exchange(t, []) == [user];
    } else {
      var reply := Message(Assistant, Reply(t), Some(t.reasoning));
      AppendTwoKeepsSuffix(c.history, soFar, user, reply, max);
      assert Exchange(t, []) == [user, reply];
    }
  }

  /** What holds between turns: the history is a suffix of the transcript so far, and its newest entry is
      what is known of it; while a reply is marked that is a question or a reply of the model. */
  predicate Tracks(c: Chat, soFar: seq<Message>, k: Known)
  {
    && IsSuffix(c.history, soFar) && c.pending == k.marked && EndsAsKnown(soFar, k)
  }

  predicate EndsAsKnown(soFar: seq<Message>, k: Known)
  {
    && (k.newest ==> k.marked && !k.question)
    && (k.marked || k.question ==>
          soFar != [] && (soFar[|soFar| - 1].role == User <==> k.question))
    && (k.marked && !k.question ==> soFar[|soFar| - 1].reasoning.Some?)
  }

  /** The transcript so far after the next turn's prefix. */
  function Next(soFar: seq<Message>, newest: bool, t: Turn): seq<Message>
  {
    if newest && soFar != [] && t.playedPrefix.Some? then Cut(soFar, t.playedPrefix.value) else soFar
  }

  /** What is known once the turn's prefix has been dealt with. */
  function KnownAfterPrefix(k: Known, t: Turn): Known
  {
    k.(marked := k.marked && t.playedPrefix.None?, newest := k.newest && t.playedPrefix.None?)
  }

  lemma BlankLeavesQuestion(c: Chat, soFar: seq<Message>, prefix: string, max: nat)
    requires IsSuffix(c.history, soFar) && soFar != [] && soFar[|soFar| - 1].role == User && Trim(prefix) == ""
    ensures ApplyPrefix(c, Some(prefix), max).history == c.history
  {
    if c.history != [] {
      assert c.history[|c.history| - 1] == soFar[|soFar| - 1];
    }
  }

  lemma PrefixTracks(c: Chat, soFar: seq<Message>, k: Known, t: Turn, max: nat)
    requires Tracks(c, soFar, k) && Harmless(k, t)
    ensures Tracks(ApplyPrefix(c, t.playedPrefix, max), Next(soFar, k.newest, t), KnownAfterPrefix(k, t))
  {
    if k.marked && t.playedPrefix.Some? {
      if k.newest {
        ApplyKeepsSuffix(c, soFar, t.playedPrefix.value, max);
      } else {
        BlankLeavesQuestion(c, soFar, t.playedPrefix.value, max);
      }
    }
  }

  lemma ExchangeEndsAsKnown(soFar: seq<Message>, t: Turn, marked: bool)
    requires t.completed
    ensures EndsAsKnown(soFar + Exchange(t, []), Known(Interrupted(t) || marked, Interrupted(t), Reply(t) == ""))
  {
    var user, reply := Message(User, t.userText, None), Message(Assistant, Reply(t), Some(t.reasoning));
    assert Exchange(t, []) == if Reply(t) == "" then [user] else [user, reply];
  }

  lemma WriteBackTracks(c: Chat, soFar: seq<Message>, t: Turn, max: nat)
    requires IsSuffix(c.history, soFar) && t.completed
    ensures Tracks(WriteBack(c, t, max), soFar + Exchange(t, []),
                   Known(Interrupted(t) || c.pending, Interrupted(t), Reply(t) == ""))
  {
    WriteBackKeepsSuffix(c, soFar, t, max);
    ExchangeEndsAsKnown(soFar, t, c.pending);
  }

  lemma SettledNext(soFar: seq<Message>, newest: bool, t: Turn, rest: seq<Turn>)
    ensures Settled(soFar, newest, [t] + rest) ==
            if t.completed then Next(soFar, newest, t)
            else Settled(Next(soFar, newest, t), newest && t.playedPrefix.None?, rest)
  {
    assert ([t] + rest)[1..] == rest;
  }

  lemma SettledExchange(soFar: seq<Message>, t: Turn, rest: seq<Turn>)
    requires t.completed
    ensures Settled(soFar + Exchange(t, []), Interrupted(t), rest) == soFar + Exchange(t, rest)
  {
    if Interrupted(t) && PrefixFor(rest).Some? {
      var user, reply := Message(User, t.userText, None), Message(Assistant, Reply(t), Some(t.reasoning));
      var all := soFar + Exchange(t, []);
      assert Exchange(t, []) == [user, reply];
      assert all[..|all| - 1] == soFar + [user];
      assert soFar + [user] + HeardPart(PrefixFor(rest).value) == soFar + ([user] + HeardPart(PrefixFor(rest).value));
    }
  }

  /** The transcript so far after a whole turn. */
  function After(soFar: seq<Message>, newest: bool, t: Turn): seq<Message>
  {
    if t.completed then Next(soFar, newest, t) + Exchange(t, []) else Next(soFar, newest, t)
  }

  lemma TurnTracks(c: Chat, soFar: seq<Message>, k: Known, t: Turn, max: nat)
    requires Tracks(c, soFar, k) && Harmless(k, t)
    ensures Tracks(TakeTurn(c, t, max), After(soFar, k.newest, t), KnownAfter(k, t))
  {
    PrefixTracks(c, soFar, k, t, max);
    if t.completed {
      WriteBackTracks(ApplyPrefix(c, t.playedPrefix, max), Next(soFar, k.newest, t), t, max);
    }
  }

  lemma TranscriptCons(t: Turn, rest: seq<Turn>)
    ensures Transcript([t] + rest) == Exchange(t, rest) + Transcript(rest)
  {
    assert ([t] + rest)[1..] == rest;
  }

  lemma Regroup(a: seq<Message>, b: seq<Message>, c: seq<Message>)
    ensures a + b + c == a + (b + c)
  {
  }

  /** Settling commutes with a turn. */
  lemma TurnSettles(soFar: seq<Message>, newest: bool, t: Turn, rest: seq<Turn>)
    ensures Settled(After(soFar, newest, t), NewestAfter(newest, t), rest) + Transcript(rest)
         == Settled(soFar, newest, [t] + rest) + Transcript([t] + rest)
  {
    var next := Next(soFar, newest, t);
    SettledNext(soFar, newest, t, rest);
    TranscriptCons(t, rest);
    if t.completed {
      SettledExchange(next, t, rest);
      Regroup(next, Exchange(t, rest), Transcript(rest));
    } else {
      assert [] + Transcript(rest) == Transcript(rest);
    }
  }

  lemma {:induction false} TurnsKeepSuffix(c: Chat, soFar: seq<Message>, k: Known, turns: seq<Turn>, max: nat)
    requires Tracks(c, soFar, k) && Attributable(turns, k)
    ensures IsSuffix(TakeTurns(c, turns, max).history, Settled(soFar, k.newest, turns) + Transcript(turns))
    decreases |turns|
  {
    if turns == [] {
      assert soFar + [] == soFar;
    } else {
      var t, rest := turns[0], turns[1..];
      assert turns == [t] + rest;
      TurnTracks(c, soFar, k, t, max);
      TurnsKeepSuffix(TakeTurn(c, t, max), After(soFar, k.newest, t), KnownAfter(k, t), rest, max);
      TurnSettles(soFar, k.newest, t, rest);
    }
  }

  // ---------- and how much of it ----------

  function Min(a: nat, b: nat): nat { if a < b then a else b }

  /** A reply cut away entirely leaves one place free until the next completed turn. */
  function Room(max: nat, cut: bool): nat { if cut && max > 0 then max - 1 else max }

  function CutByPrefix(newest: bool, cut: bool, t: Turn): bool
  {
    if newest && t.playedPrefix.Some? then Trim(t.playedPrefix.value) == "" else cut
  }

  /** Whether such a place is free after these turns. */
  function CutAfter(newest: bool, cut: bool, turns: seq<Turn>): bool
    decreases |turns|
  {
    if turns == [] then cut
    else CutAfter(NewestAfter(newest, turns[0]), !turns[0].completed && CutByPrefix(newest, cut, turns[0]), turns[1..])
  }

  /** The history holds as much of the transcript so far as there is room for. */
  predicate Filled(c: Chat, soFar: seq<Message>, max: nat, cut: bool)
  {
    |c.history| == Min(Room(max, cut), |soFar|)
  }

  lemma PrefixFills(c: Chat, soFar: seq<Message>, k: Known, cut: bool, t: Turn, max: nat)
    requires Tracks(c, soFar, k) && Harmless(k, t)
    requires Filled(c, soFar, max, cut) && (k.newest ==> !cut)
    ensures Filled(ApplyPrefix(c, t.playedPrefix, max), Next(soFar, k.newest, t), max, CutByPrefix(k.newest, cut, t))
  {
    if k.marked && t.playedPrefix.Some? {
      if c.history != [] {
        assert c.history[|c.history| - 1] == soFar[|soFar| - 1];
      }
      if !k.newest {
        BlankLeavesQuestion(c, soFar, t.playedPrefix.value, max);
      }
    }
  }

  lemma WriteBackFills(c: Chat, soFar: seq<Message>, t: Turn, max: nat, cut: bool)
    requires t.completed && Filled(c, soFar, max, cut)
    ensures Filled(WriteBack(c, t, max), soFar + Exchange(t, []), max, false)
  {
  }

  lemma TurnFills(c: Chat, soFar: seq<Message>, k: Known, cut: bool, t: Turn, max: nat)
    requires Tracks(c, soFar, k) && Harmless(k, t)
    requires Filled(c, soFar, max, cut) && (k.newest ==> !cut)
    ensures Filled(TakeTurn(c, t, max), After(soFar, k.newest, t), max, !t.completed && CutByPrefix(k.newest, cut, t))
    ensures NewestAfter(k.newest, t) ==> t.completed || !CutByPrefix(k.newest, cut, t)
  {
    PrefixFills(c, soFar, k, cut, t, max);
    if t.completed {
      WriteBackFills(ApplyPrefix(c, t.playedPrefix, max), Next(soFar, k.newest, t), t, max,
                     CutByPrefix(k.newest, cut, t));
    }
  }

  lemma {:induction false} TurnsFill(c: Chat, soFar: seq<Message>, k: Known, cut: bool, turns: seq<Turn>, max: nat)
    requires Tracks(c, soFar, k) && Attributable(turns, k)
    requires Filled(c, soFar, max, cut) && (k.newest ==> !cut)
    ensures Filled(TakeTurns(c, turns, max), Settled(soFar, k.newest, turns) + Transcript(turns), max,
                   CutAfter(k.newest, cut, turns))
    decreases |turns|
  {
    if turns == [] {
      assert soFar + [] == soFar;
    } else {
      var t, rest := turns[0], turns[1..];
      assert turns == [t] + rest;
      TurnTracks(c, soFar, k, t, max);
      TurnFills(c, soFar, k, cut, t, max);
      TurnsFill(TakeTurn(c, t, max), After(soFar, k.newest, t), KnownAfter(k, t),
                !t.completed && CutByPrefix(k.newest, cut, t), rest, max);
      TurnSettles(soFar, k.newest, t, rest);
    }
  }

  lemma {:induction false} CompletedIsNotCut(newest: bool, cut: bool, turns: seq<Turn>)
    requires turns != [] && turns[|turns| - 1].completed
    ensures !CutAfter(newest, cut, turns)
    decreases |turns|
  {
    if |turns| > 1 {
      CompletedIsNotCut(NewestAfter(newest, turns[0]), !turns[0].completed && CutByPrefix(newest, cut, turns[0]),
                        turns[1..]);
    }
  }

  const NEW_CHAT: Chat := Chat([], false)

  lemma NothingSettled(turns: seq<Turn>)
    ensures Settled([], false, turns) + Transcript(turns) == Transcript(turns)
  {
    assert [] + Transcript(turns) == Transcript(turns);
  }

  lemma SuffixFits(h: seq<Message>, t: seq<Message>, max: nat, cut: bool)
    requires |h| == Min(Room(max, cut), |t|)
    ensures Min(max, |t|) <= |h| + 1 && |h| <= max && (!cut ==> |h| == Min(max, |t|))
  {
  }

  /** The newest part of the transcript: all that the bound allows whenever the last turn completed, and
      at most one message short of it otherwise. */
  ghost predicate Remembers(h: seq<Message>, turns: seq<Turn>, max: nat)
  {
    var t := Transcript(turns);
    && IsSuffix(h, t) && Min(max, |t|) <= |h| + 1 && |h| <= max
    && (turns != [] && turns[|turns| - 1].completed ==> |h| == Min(max, |t|))
  }

  /** For every run of turns on one session in which prefixes can be attributed, the stored history is
      the newest part of the reference transcript. */
  lemma HistoryIsSuffixOfTranscript(turns: seq<Turn>, max: nat)
    requires Attributable(turns, NOTHING_KNOWN)
    ensures Remembers(TakeTurns(NEW_CHAT, turns, max).history, turns, max)
  {
    var h, cut := TakeTurns(NEW_CHAT, turns, max).history, CutAfter(false, false, turns);
    TurnsKeepSuffix(NEW_CHAT, [], NOTHING_KNOWN, turns, max);
    TurnsFill(NEW_CHAT, [], NOTHING_KNOWN, false, turns, max);
    NothingSettled(turns);
    SuffixFits(h, Transcript(turns), max, cut);
    if turns != [] && turns[|turns| - 1].completed { CompletedIsNotCut(false, false, turns); }
  }

  /** In particular when the turn after each interrupted reply carries its prefix. */
  lemma PromptHistoryIsSuffix(turns: seq<Turn>, max: nat)
    requires Prompt(turns)
    ensures Remembers(TakeTurns(NEW_CHAT, turns, max).history, turns, max)
  {
    PromptIsAttributable(turns, NOTHING_KNOWN);
    HistoryIsSuffixOfTranscript(turns, max);
  }

  lemma HeardIsLast(c: Chat, t: Turn, max: nat)
    requires c.pending && !t.completed && t.playedPrefix.Some? && Trim(t.playedPrefix.value) != "" && max > 0
    ensures var h := TakeTurn(c, t, max).history;
            h != [] && h[|h| - 1] == Heard(t.playedPrefix.value)
  {
  }
}
