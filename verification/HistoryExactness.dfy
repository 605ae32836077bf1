/** Exactly when the stored history remembers the conversation: if one prefix is not harmless where it
    arrives, the history goes wrong there and no later turn repairs it. */
module HistoryExactness {
  import opened Prelude
  import opened ChatHistory

  // ---------- a history with all its questions ----------

  function Questions(h: seq<Message>): nat
  {
    if h == [] then 0 else Questions(h[..|h| - 1]) + (if h[|h| - 1].role == User then 1 else 0)
  }

  function CompletedTurns(turns: seq<Turn>): nat
  {
    if turns == [] then 0 else (if turns[0].completed then 1 else 0) + CompletedTurns(turns[1..])
  }

  lemma QuestionsSnoc(h: seq<Message>, m: Message)
    ensures Questions(h + [m]) == Questions(h) + (if m.role == User then 1 else 0)
  {
    assert (h + [m])[..|h|] == h;
  }

  lemma {:induction false} QuestionsConcat(a: seq<Message>, b: seq<Message>)
    ensures Questions(a + b) == Questions(a) + Questions(b)
    decreases |b|
  {
    if b == [] {
      assert a + b == a;
    } else {
      var rest, last := b[..|b| - 1], b[|b| - 1];
      QuestionsConcat(a, rest);
      assert b == rest + [last] && a + b == a + rest + [last];
      QuestionsSnoc(a + rest, last);
      QuestionsSnoc(rest, last);
    }
  }

  lemma OneQuestion(m: Message)
    ensures Questions([m]) == if m.role == User then 1 else 0
  {
    assert [] + [m] == [m];
    QuestionsSnoc([], m);
  }

  lemma QuestionsInExchange(t: Turn, rest: seq<Turn>)
    ensures Questions(Exchange(t, rest)) == if t.completed then 1 else 0
    ensures t.completed ==> Exchange(t, rest) != [] && Exchange(t, rest)[0].role == User
  {
    if t.completed {
      var user := Message(User, t.userText, None);
      var more := Exchange(t, rest)[1..];
      assert Exchange(t, rest) == [user] + more;
      OneQuestion(user);
      if more != [] {
        assert |more| == 1 && more == [more[0]];
        OneQuestion(more[0]);
      }
      QuestionsConcat([user], more);
    }
  }

  lemma {:induction false} QuestionsInTranscript(turns: seq<Turn>)
    ensures Questions(Transcript(turns)) == CompletedTurns(turns)
    ensures Transcript(turns) != [] ==> Transcript(turns)[0].role == User
    decreases |turns|
  {
    if turns != [] {
      QuestionsInTranscript(turns[1..]);
      QuestionsInExchange(turns[0], turns[1..]);
      QuestionsConcat(Exchange(turns[0], turns[1..]), Transcript(turns[1..]));
      if !turns[0].completed { assert [] + Transcript(turns[1..]) == Transcript(turns[1..]); }
    }
  }

  lemma PoppedQuestions(h: seq<Message>)
    ensures Questions(Popped(h)) == Questions(h)
  {
  }

  lemma PrefixKeepsQuestions(c: Chat, prefix: Option<string>, max: nat)
    requires |c.history| < max
    ensures var h := ApplyPrefix(c, prefix, max).history;
            Questions(h) == Questions(c.history) && |h| <= |c.history| + 1
  {
    if c.pending && prefix.Some? {
      PoppedQuestions(c.history);
      QuestionsSnoc(Popped(c.history), Heard(prefix.value));
    }
  }

  lemma WriteBackAddsQuestion(c: Chat, t: Turn, max: nat)
    requires |c.history| + 2 <= max
    ensures var h := WriteBack(c, t, max).history;
            Questions(h) == Questions(c.history) + 1 && |h| <= |c.history| + 2
  {
    var user, reply := Message(User, t.userText, None), Message(Assistant, Reply(t), Some(t.reasoning));
    QuestionsSnoc(c.history, user);
    QuestionsSnoc(c.history + [user], reply);
  }

  lemma TurnAddsQuestion(c: Chat, t: Turn, max: nat)
    requires |c.history| + 3 <= max
    ensures var h := TakeTurn(c, t, max).history;
            Questions(h) == Questions(c.history) + (if t.completed then 1 else 0) && |h| <= |c.history| + 3
  {
    PrefixKeepsQuestions(c, t.playedPrefix, max);
    if t.completed { WriteBackAddsQuestion(ApplyPrefix(c, t.playedPrefix, max), t, max); }
  }

  lemma {:induction false} QuestionsInHistory(c: Chat, turns: seq<Turn>, max: nat)
    requires |c.history| + 3 * |turns| <= max
    ensures Questions(TakeTurns(c, turns, max).history) == Questions(c.history) + CompletedTurns(turns)
    decreases |turns|
  {
    if turns != [] {
      TurnAddsQuestion(c, turns[0], max);
      QuestionsInHistory(TakeTurn(c, turns[0], max), turns[1..], max);
    }
  }

  lemma SuffixMissesQuestion(h: seq<Message>, t: seq<Message>)
    requires IsSuffix(h, t) && |h| < |t| && t[0].role == User
    ensures Questions(h) < Questions(t)
  {
    var k := |t| - |h|;
    assert t == [t[0]] + (t[1..k] + h);
    OneQuestion(t[0]);
    QuestionsConcat([t[0]], t[1..k] + h);
    QuestionsConcat(t[1..k], h);
  }

  /** A suffix that has all the questions is the whole. */
  lemma SuffixIsWhole(h: seq<Message>, t: seq<Message>)
    requires IsSuffix(h, t) && Questions(h) == Questions(t) && (t != [] ==> t[0].role == User)
    ensures h == t
  {
    if |h| < |t| { SuffixMissesQuestion(h, t); }
  }

  // ---------- damage ----------

  /** The two differ at d, or one ends there and the other goes on with a reply. */
  predicate SplitAt(h: seq<Message>, s: seq<Message>, d: nat)
  {
    && d <= |h| && d <= |s|
    && (|| (d < |h| && d < |s| && h[d] != s[d])
        || (d == |h| && d < |s| && s[d].role == Assistant)
        || (d == |s| && d < |h| && h[d].role == Assistant))
  }

  /** A history and a transcript that differ at d, where no cut to come can reach. */
  predicate Damaged(c: Chat, soFar: seq<Message>, newest: bool, d: nat)
  {
    SplitAt(c.history, soFar, d) && (c.pending ==> |c.history| >= d + 2) && (newest ==> |soFar| >= d + 2)
  }

  lemma PrefixKeepsDamage(c: Chat, soFar: seq<Message>, newest: bool, t: Turn, d: nat, max: nat)
    requires Damaged(c, soFar, newest, d) && |c.history| < max
    ensures Damaged(ApplyPrefix(c, t.playedPrefix, max), Next(soFar, newest, t), newest && t.playedPrefix.None?, d)
  {
    var h, s := ApplyPrefix(c, t.playedPrefix, max).history, Next(soFar, newest, t);
    if c.pending { assert |h| >= d + 1 && h[..d + 1] == c.history[..d + 1] && h[d] == c.history[d]; }
    if newest { assert |s| >= d + 1 && s[d] == soFar[d]; }
  }

  lemma WriteBackKeepsDamage(c: Chat, soFar: seq<Message>, newest: bool, t: Turn, d: nat, max: nat)
    requires Damaged(c, soFar, newest, d) && |c.history| + 2 <= max && t.completed
    ensures Damaged(WriteBack(c, t, max), soFar + Exchange(t, []), Interrupted(t), d)
  {
    var user, reply := Message(User, t.userText, None), Message(Assistant, Reply(t), Some(t.reasoning));
    var h, s := WriteBack(c, t, max).history, soFar + Exchange(t, []);
    assert h == c.history + if Reply(t) == "" then [user] else [user, reply];
    assert s[|soFar|] == user;
  }

  lemma TurnKeepsDamage(c: Chat, soFar: seq<Message>, newest: bool, t: Turn, d: nat, max: nat)
    requires Damaged(c, soFar, newest, d) && |c.history| + 3 <= max
    ensures Damaged(TakeTurn(c, t, max), After(soFar, newest, t), NewestAfter(newest, t), d)
  {
    PrefixKeepsDamage(c, soFar, newest, t, d, max);
    if t.completed {
      PrefixKeepsQuestions(c, t.playedPrefix, max);
      WriteBackKeepsDamage(ApplyPrefix(c, t.playedPrefix, max), Next(soFar, newest, t),
                           newest && t.playedPrefix.None?, t, d, max);
    }
  }

  /** No later turn repairs it. */
  lemma {:induction false} DamageStays(c: Chat, soFar: seq<Message>, newest: bool, turns: seq<Turn>, d: nat, max: nat)
    requires Damaged(c, soFar, newest, d) && |c.history| + 3 * |turns| <= max
    ensures TakeTurns(c, turns, max).history != Settled(soFar, newest, turns) + Transcript(turns)
    decreases |turns|
  {
    if turns == [] {
      assert soFar + [] == soFar;
    } else {
      var t, rest := turns[0], turns[1..];
      assert turns == [t] + rest;
      TurnKeepsDamage(c, soFar, newest, t, d, max);
      TurnAddsQuestion(c, t, max);
      DamageStays(TakeTurn(c, t, max), After(soFar, newest, t), NewestAfter(newest, t), rest, d, max);
      TurnSettles(soFar, newest, t, rest);
    }
  }

  /** A prefix that is not harmless does damage. */
  lemma HarmDamages(c: Chat, soFar: seq<Message>, k: Known, t: Turn, max: nat)
    requires Tracks(c, soFar, k) && c.history == soFar && !Harmless(k, t) && |soFar| < max
    ensures var d := if k.question then |soFar| else |soFar| - 1;
            Damaged(ApplyPrefix(c, t.playedPrefix, max), soFar, false, d)
  {
    var h := ApplyPrefix(c, t.playedPrefix, max).history;
    var heard := Heard(t.playedPrefix.value);
    if k.question {
      assert h == soFar + [heard];
    } else {
      assert h == soFar[..|soFar| - 1] + if Trim(t.playedPrefix.value) == "" then [] else [heard];
    }
  }

  // ---------- before the first harm the history is the whole transcript ----------

  lemma PrefixAgrees(c: Chat, soFar: seq<Message>, k: Known, t: Turn, max: nat)
    requires Tracks(c, soFar, k) && c.history == soFar && Harmless(k, t) && |soFar| < max
    ensures ApplyPrefix(c, t.playedPrefix, max).history == Next(soFar, k.newest, t)
  {
    if k.marked && t.playedPrefix.Some? && !k.newest {
      BlankLeavesQuestion(c, soFar, t.playedPrefix.value, max);
    }
  }

  lemma WriteBackAgrees(c: Chat, soFar: seq<Message>, t: Turn, max: nat)
    requires c.history == soFar && |soFar| + 2 <= max && t.completed
    ensures WriteBack(c, t, max).history == soFar + Exchange(t, [])
  {
    var user, reply := Message(User, t.userText, None), Message(Assistant, Reply(t), Some(t.reasoning));
    assert Exchange(t, []) == if Reply(t) == "" then [user] else [user, reply];
    assert soFar + [user] + [reply] == soFar + [user, reply];
  }

  lemma TurnAgrees(c: Chat, soFar: seq<Message>, k: Known, t: Turn, max: nat)
    requires Tracks(c, soFar, k) && c.history == soFar && Harmless(k, t) && |soFar| + 3 <= max
    ensures TakeTurn(c, t, max).history == After(soFar, k.newest, t)
  {
    PrefixAgrees(c, soFar, k, t, max);
    PrefixKeepsQuestions(c, t.playedPrefix, max);
    if t.completed {
      WriteBackAgrees(ApplyPrefix(c, t.playedPrefix, max), Next(soFar, k.newest, t), t, max);
    }
  }

  lemma HarmfulTurnDamages(c: Chat, soFar: seq<Message>, k: Known, t: Turn, max: nat)
    requires Tracks(c, soFar, k) && c.history == soFar && !Harmless(k, t) && |soFar| + 3 <= max
    ensures var d := if k.question then |soFar| else |soFar| - 1;
            Damaged(TakeTurn(c, t, max), After(soFar, k.newest, t), NewestAfter(k.newest, t), d)
  {
    HarmDamages(c, soFar, k, t, max);
    PrefixKeepsQuestions(c, t.playedPrefix, max);
    if t.completed {
      WriteBackKeepsDamage(ApplyPrefix(c, t.playedPrefix, max), soFar, false, t,
                           if k.question then |soFar| else |soFar| - 1, max);
    }
  }

  lemma {:induction false} HarmShows(c: Chat, soFar: seq<Message>, k: Known, turns: seq<Turn>, max: nat)
    requires Tracks(c, soFar, k) && c.history == soFar && !Attributable(turns, k)
    requires |soFar| + 3 * |turns| <= max
    ensures TakeTurns(c, turns, max).history != Settled(soFar, k.newest, turns) + Transcript(turns)
    decreases |turns|
  {
    var t, rest := turns[0], turns[1..];
    assert turns == [t] + rest;
    TurnAddsQuestion(c, t, max);
    if Harmless(k, t) {
      TurnTracks(c, soFar, k, t, max);
      TurnAgrees(c, soFar, k, t, max);
      HarmShows(TakeTurn(c, t, max), After(soFar, k.newest, t), KnownAfter(k, t), rest, max);
    } else {
      HarmfulTurnDamages(c, soFar, k, t, max);
      DamageStays(TakeTurn(c, t, max), After(soFar, k.newest, t), NewestAfter(k.newest, t), rest,
                  if k.question then |soFar| else |soFar| - 1, max);
    }
    TurnSettles(soFar, k.newest, t, rest);
  }

  // ---------- the result ----------

  ghost predicate RemembersWithin(turns: seq<Turn>, max: nat)
  {
    Remembers(TakeTurns(NEW_CHAT, turns, max).history, turns, max)
  }

  lemma HarmForgets(turns: seq<Turn>)
    requires !Attributable(turns, NOTHING_KNOWN)
    ensures !IsSuffix(TakeTurns(NEW_CHAT, turns, 3 * |turns|).history, Transcript(turns))
  {
    var h := TakeTurns(NEW_CHAT, turns, 3 * |turns|).history;
    HarmShows(NEW_CHAT, [], NOTHING_KNOWN, turns, 3 * |turns|);
    NothingSettled(turns);
    QuestionsInHistory(NEW_CHAT, turns, 3 * |turns|);
    QuestionsInTranscript(turns);
    if IsSuffix(h, Transcript(turns)) { SuffixIsWhole(h, Transcript(turns)); }
  }

  /** For every run of turns: the history is the newest part of the transcript, within every bound, if and
      only if each prefix that arrives while a reply is marked belongs to the newest entry, or is blank
      and finds a question there. */
  lemma HistoryRemembersIff(turns: seq<Turn>)
    ensures (forall max: nat :: RemembersWithin(turns, max)) <==> Attributable(turns, NOTHING_KNOWN)
  {
    if Attributable(turns, NOTHING_KNOWN) {
      forall max: nat ensures RemembersWithin(turns, max) { HistoryIsSuffixOfTranscript(turns, max); }
    } else {
      HarmForgets(turns);
      assert !RemembersWithin(turns, 3 * |turns|);
    }
  }

  // ---------- one bound at a time ----------

  /** A marked reply that is not the newest entry, or whose successor is, follows its question. */
  predicate Paired(soFar: seq<Message>, k: Known)
  {
    k.marked && !k.question ==> |soFar| >= 2 && soFar[|soFar| - 2].role == User
  }

  lemma TurnKeepsPaired(soFar: seq<Message>, k: Known, t: Turn)
    requires Paired(soFar, k) && EndsAsKnown(soFar, k)
    ensures Paired(After(soFar, k.newest, t), KnownAfter(k, t))
  {
    var user, reply := Message(User, t.userText, None), Message(Assistant, Reply(t), Some(t.reasoning));
    if t.completed { assert Exchange(t, []) == if Reply(t) == "" then [user] else [user, reply]; }
  }

  /** A suffix shares its entries with the whole, counted from the end. */
  lemma SuffixFromTheEnd(h: seq<Message>, t: seq<Message>, n: nat)
    requires IsSuffix(h, t) && n < |h|
    ensures h[|h| - 1 - n] == t[|t| - 1 - n]
  {
  }

  lemma DifferentEntry(h: seq<Message>, t: seq<Message>, n: nat)
    requires n < |h| && n < |t| && h[|h| - 1 - n] != t[|t| - 1 - n]
    ensures !IsSuffix(h, t)
  {
  }

  /** A prefix that finds a question goes after it, */
  lemma HarmAppends(c: Chat, soFar: seq<Message>, prefix: string, max: nat)
    requires c.pending && IsSuffix(c.history, soFar) && soFar != [] && soFar[|soFar| - 1].role == User
    requires Trim(prefix) != "" && max >= 3
    ensures var h := ApplyPrefix(c, Some(prefix), max).history; h != [] && h[|h| - 1] != soFar[|soFar| - 1]
  {
  }

  /** and one that finds a reply takes its place, or leaves the question before it. */
  lemma HarmCuts(c: Chat, soFar: seq<Message>, prefix: string, max: nat)
    requires c.pending && IsSuffix(c.history, soFar) && |c.history| >= 2
    requires soFar[|soFar| - 1].role == Assistant && soFar[|soFar| - 1].reasoning.Some?
    requires soFar[|soFar| - 2].role == User && max >= 3
    ensures var h := ApplyPrefix(c, Some(prefix), max).history; h != [] && h[|h| - 1] != soFar[|soFar| - 1]
  {
    SuffixFromTheEnd(c.history, soFar, 0);
    SuffixFromTheEnd(c.history, soFar, 1);
    var kept := Popped(c.history);
    assert kept == c.history[..|c.history| - 1] && kept[|kept| - 1] == soFar[|soFar| - 2];
  }

  /** A harmful prefix puts something else where the newest entry was. */
  lemma HarmReplacesNewest(c: Chat, soFar: seq<Message>, k: Known, t: Turn, cut: bool, max: nat)
    requires Tracks(c, soFar, k) && Paired(soFar, k) && Filled(c, soFar, max, cut) && max >= 3 && !Harmless(k, t)
    ensures var h := ApplyPrefix(c, t.playedPrefix, max).history;
            h != [] && soFar != [] && h[|h| - 1] != soFar[|soFar| - 1]
  {
    if k.question {
      HarmAppends(c, soFar, t.playedPrefix.value, max);
    } else {
      HarmCuts(c, soFar, t.playedPrefix.value, max);
    }
  }

  /** Two appended messages leave the newest entry in third place, if there are three places. */
  lemma AppendedBehind(g: seq<Message>, m: Message, n: Message, max: nat)
    requires g != [] && max >= 3
    ensures var one := Append(g, m, max); |one| >= 2 && one[|one| - 2] == g[|g| - 1]
    ensures var two := Append(Append(g, m, max), n, max); |two| >= 3 && two[|two| - 3] == g[|g| - 1]
  {
  }

  /** A harmful prefix belongs to no reply, so the transcript stays as it was before the exchange. */
  lemma HarmLeavesTranscript(soFar: seq<Message>, k: Known, t: Turn)
    requires !Harmless(k, t)
    ensures After(soFar, k.newest, t) == if t.completed then soFar + Exchange(t, []) else soFar
  {
  }

  lemma NewestStaysDifferent(g: Chat, soFar: seq<Message>, t: Turn, max: nat)
    requires g.history != [] && soFar != [] && g.history[|g.history| - 1] != soFar[|soFar| - 1] && max >= 3
    ensures !IsSuffix(Finished(g, t, max).history, if t.completed then soFar + Exchange(t, []) else soFar)
  {
    if t.completed {
      ExchangeHidesNothing(g, soFar, t, max);
    } else {
      DifferentEntry(g.history, soFar, 0);
    }
  }

  /** Any bound of three or more shows it at once, the turn's own exchange included. */
  lemma HarmIsSeen(c: Chat, soFar: seq<Message>, k: Known, t: Turn, cut: bool, max: nat)
    requires Tracks(c, soFar, k) && Paired(soFar, k) && Filled(c, soFar, max, cut) && max >= 3 && !Harmless(k, t)
    ensures !IsSuffix(TakeTurn(c, t, max).history, After(soFar, k.newest, t))
  {
    HarmReplacesNewest(c, soFar, k, t, cut, max);
    HarmLeavesTranscript(soFar, k, t);
    NewestStaysDifferent(ApplyPrefix(c, t.playedPrefix, max), soFar, t, max);
  }

  lemma OneBehind(g: seq<Message>, soFar: seq<Message>, m: Message, max: nat)
    requires g != [] && soFar != [] && g[|g| - 1] != soFar[|soFar| - 1] && max >= 3
    ensures !IsSuffix(Append(g, m, max), soFar + [m])
  {
    AppendedBehind(g, m, m, max);
    DifferentEntry(Append(g, m, max), soFar + [m], 1);
  }

  lemma TwoBehind(g: seq<Message>, soFar: seq<Message>, m: Message, n: Message, max: nat)
    requires g != [] && soFar != [] && g[|g| - 1] != soFar[|soFar| - 1] && max >= 3
    ensures !IsSuffix(Append(Append(g, m, max), n, max), soFar + [m, n])
  {
    AppendedBehind(g, m, n, max);
    DifferentEntry(Append(Append(g, m, max), n, max), soFar + [m, n], 2);
  }

  lemma ExchangeHidesNothing(g: Chat, soFar: seq<Message>, t: Turn, max: nat)
    requires t.completed && g.history != [] && soFar != [] && max >= 3
    requires g.history[|g.history| - 1] != soFar[|soFar| - 1]
    ensures !IsSuffix(WriteBack(g, t, max).history, soFar + Exchange(t, []))
  {
    var user, reply := Message(User, t.userText, None), Message(Assistant, Reply(t), Some(t.reasoning));
    assert Exchange(t, []) == if Reply(t) == "" then [user] else [user, reply];
    OneBehind(g.history, soFar, user, max);
    TwoBehind(g.history, soFar, user, reply, max);
  }

  lemma TakeTurnsCons(c: Chat, t: Turn, rest: seq<Turn>, max: nat)
    ensures TakeTurns(c, [t] + rest, max) == TakeTurns(TakeTurn(c, t, max), rest, max)
  {
    assert ([t] + rest)[1..] == rest;
  }

  /** After these turns the history is no part of the transcript's end. */
  ghost predicate Off(c: Chat, soFar: seq<Message>, newest: bool, turns: seq<Turn>, max: nat)
  {
    !IsSuffix(TakeTurns(c, turns, max).history, Settled(soFar, newest, turns) + Transcript(turns))
  }

  lemma OffNow(c: Chat, soFar: seq<Message>, newest: bool, max: nat)
    requires !IsSuffix(c.history, soFar)
    ensures Off(c, soFar, newest, [], max)
  {
    assert soFar + [] == soFar;
  }

  lemma OffLater(c: Chat, soFar: seq<Message>, newest: bool, t: Turn, rest: seq<Turn>, max: nat)
    requires Off(TakeTurn(c, t, max), After(soFar, newest, t), NewestAfter(newest, t), rest, max)
    ensures Off(c, soFar, newest, [t] + rest, max)
  {
    TakeTurnsCons(c, t, rest, max);
    TurnSettles(soFar, newest, t, rest);
  }

  lemma {:induction false} HarmShowsAtOnce(c: Chat, soFar: seq<Message>, k: Known, turns: seq<Turn>, cut: bool,
                                           max: nat)
    returns (j: nat)
    requires Tracks(c, soFar, k) && Paired(soFar, k) && max >= 3 && !Attributable(turns, k)
    requires Filled(c, soFar, max, cut) && (k.newest ==> !cut)
    ensures j <= |turns| && Off(c, soFar, k.newest, turns[..j], max)
    decreases |turns|
  {
    var t, rest := turns[0], turns[1..];
    var c', soFar', newest' := TakeTurn(c, t, max), After(soFar, k.newest, t), NewestAfter(k.newest, t);
    if Harmless(k, t) {
      TurnTracks(c, soFar, k, t, max);
      TurnFills(c, soFar, k, cut, t, max);
      TurnKeepsPaired(soFar, k, t);
      j := HarmShowsAtOnce(c', soFar', KnownAfter(k, t), rest, !t.completed && CutByPrefix(k.newest, cut, t), max);
    } else {
      HarmIsSeen(c, soFar, k, t, cut, max);
      OffNow(c', soFar', newest', max);
      j := 0;
      assert rest[..0] == [];
    }
    OffLater(c, soFar, k.newest, t, rest[..j], max);
    j := j + 1;
    assert turns[..j] == [t] + rest[..j - 1];
  }

  /** The history was right after every turn so far. */
  ghost predicate AlwaysRemembered(turns: seq<Turn>, max: nat)
  {
    forall j | 0 <= j <= |turns| :: RemembersWithin(turns[..j], max)
  }

  lemma {:induction false} PrefixIsAttributable(turns: seq<Turn>, k: Known, j: nat)
    requires Attributable(turns, k) && j <= |turns|
    ensures Attributable(turns[..j], k)
    decreases j
  {
    if j > 0 {
      assert turns[..j][1..] == turns[1..][..j - 1];
      PrefixIsAttributable(turns[1..], KnownAfter(k, turns[0]), j - 1);
    }
  }

  lemma AlwaysRememberedIff(turns: seq<Turn>, max: nat)
    requires max >= 3
    ensures AlwaysRemembered(turns, max) <==> Attributable(turns, NOTHING_KNOWN)
  {
    if Attributable(turns, NOTHING_KNOWN) {
      forall j | 0 <= j <= |turns| ensures RemembersWithin(turns[..j], max) {
        PrefixIsAttributable(turns, NOTHING_KNOWN, j);
        HistoryIsSuffixOfTranscript(turns[..j], max);
      }
    } else {
      var j := HarmShowsAtOnce(NEW_CHAT, [], NOTHING_KNOWN, turns, false, max);
      NothingSettled(turns[..j]);
      assert !RemembersWithin(turns[..j], max);
    }
  }

  predicate IsAnswered(t: Turn) { t.completed && Reply(t) != "" }

  function Exchanged(t: Turn): seq<Message>
  {
    [Message(User, t.userText, None), Message(Assistant, Reply(t), Some(t.reasoning))]
  }

  /** What two places or fewer hold after a turn with a reply: only what that turn wrote. */
  function Kept(t: Turn, max: nat): seq<Message>
    requires max <= 2
  {
    Exchanged(t)[2 - max..]
  }

  lemma TwoInFewPlaces(g: seq<Message>, m: Message, n: Message, max: nat)
    requires |g| <= max <= 2
    ensures Append(Append(g, m, max), n, max) == [m, n][2 - max..]
  {
    var one := Append(g, m, max);
    assert max > 0 ==> one[|one| - 1] == m;
  }

  lemma OneExchangeFills(c: Chat, t: Turn, max: nat)
    requires IsAnswered(t) && max <= 2 && |c.history| <= max
    ensures TakeTurn(c, t, max).history == Kept(t, max)
  {
    var g := ApplyPrefix(c, t.playedPrefix, max);
    assert |g.history| <= max;
    TwoInFewPlaces(g.history, Exchanged(t)[0], Exchanged(t)[1], max);
  }

  /** The transcript ends with the exchange of its last turn. */
  lemma {:induction false} LastExchange(turns: seq<Turn>, t: Turn)
    requires IsAnswered(t)
    ensures var s := Transcript(turns + [t]); |s| >= 2 && s[|s| - 2..] == Exchanged(t)
    decreases |turns|
  {
    if turns == [] {
      assert turns + [t] == [t] + [];
      TranscriptCons(t, []);
      assert Exchange(t, []) + [] == Exchange(t, []);
    } else {
      LastExchange(turns[1..], t);
      assert turns + [t] == [turns[0]] + (turns[1..] + [t]);
      TranscriptCons(turns[0], turns[1..] + [t]);
    }
  }

  lemma KeptIsRemembered(turns: seq<Turn>, t: Turn, max: nat)
    requires IsAnswered(t) && max <= 2
    ensures Remembers(Kept(t, max), turns + [t], max)
  {
    LastExchange(turns, t);
    EndIsSuffix(Exchanged(t), Transcript(turns + [t]), max);
  }

  lemma EndIsSuffix(end: seq<Message>, s: seq<Message>, max: nat)
    requires |end| == 2 && |s| >= 2 && s[|s| - 2..] == end && max <= 2
    ensures IsSuffix(end[2 - max..], s) && |end[2 - max..]| == max
  {
    assert end[2 - max..] == s[|s| - max..];
  }

  lemma {:induction false} TurnsStayBounded(c: Chat, turns: seq<Turn>, max: nat)
    requires |c.history| <= max
    ensures |TakeTurns(c, turns, max).history| <= max
    decreases |turns|
  {
    if turns != [] { TurnsStayBounded(TakeTurn(c, turns[0], max), turns[1..], max); }
  }

  lemma {:induction false} TakeTurnsSnoc(c: Chat, turns: seq<Turn>, t: Turn, max: nat)
    ensures TakeTurns(c, turns + [t], max) == TakeTurn(TakeTurns(c, turns, max), t, max)
    decreases |turns|
  {
    if turns == [] {
      assert [] + [t] == [t] + [];
      TakeTurnsCons(c, t, [], max);
    } else {
      TakeTurnsSnoc(TakeTurn(c, turns[0], max), turns[1..], t, max);
      assert turns + [t] == [turns[0]] + (turns[1..] + [t]);
      TakeTurnsCons(c, turns[0], turns[1..] + [t], max);
    }
  }

  lemma FewPlaces(turns: seq<Turn>, t: Turn, c: Chat, max: nat)
    requires max <= 2 && |c.history| <= max && IsAnswered(t)
    ensures TakeTurns(c, turns + [t], max).history == Kept(t, max)
  {
    TurnsStayBounded(c, turns, max);
    TakeTurnsSnoc(c, turns, t, max);
    OneExchangeFills(TakeTurns(c, turns, max), t, max);
  }

  /** In two places or fewer every run of answered turns is remembered, whatever its prefixes do. */
  lemma NothingSaidYet(max: nat)
    ensures RemembersWithin([], max)
  {
    assert TakeTurns(NEW_CHAT, [], max) == NEW_CHAT;
  }

  lemma AnsweredIsRemembered(all: seq<Turn>, turns: seq<Turn>, t: Turn, max: nat)
    requires max <= 2 && IsAnswered(t) && all == turns + [t]
    ensures RemembersWithin(all, max)
  {
    FewPlaces(turns, t, NEW_CHAT, max);
    KeptIsRemembered(turns, t, max);
  }

  lemma FewPlacesHideHarm(turns: seq<Turn>, max: nat)
    requires max <= 2 && forall i | 0 <= i < |turns| :: IsAnswered(turns[i])
    ensures AlwaysRemembered(turns, max)
  {
    forall j | 0 <= j <= |turns| ensures RemembersWithin(turns[..j], max) {
      PartIsRemembered(turns, j, max);
    }
  }

  lemma PartIsRemembered(turns: seq<Turn>, j: nat, max: nat)
    requires max <= 2 && j <= |turns| && (j > 0 ==> IsAnswered(turns[j - 1]))
    ensures RemembersWithin(turns[..j], max)
  {
    if j == 0 {
      NothingSaidYet(max);
      assert turns[..j] == [];
    } else {
      AnsweredIsRemembered(turns[..j], turns[..j - 1], turns[j - 1], max);
    }
  }

  /** Three turns with a reply each: the first is interrupted, and its prefix comes with the third. */
  function Answered(prefix: Option<string>, cancelled: bool): Turn { Turn("q", prefix, ["a"], "", cancelled, true) }

  lemma LatePrefixHarms() returns (turns: seq<Turn>)
    ensures !Attributable(turns, NOTHING_KNOWN) && forall i | 0 <= i < |turns| :: IsAnswered(turns[i])
  {
    assert ["a"][..0] == [] && Joined(["a"]) == Joined([]) + "a" == "a" && Trim("a") == "a";
    var t1, t2, t3 := Answered(None, true), Answered(None, false), Answered(Some("a"), false);
    turns := [t1, t2, t3];
    assert Reply(t1) == Reply(t2) == Reply(t3) == "a";
    var k := KnownAfter(KnownAfter(NOTHING_KNOWN, t1), t2);
    assert turns[1..] == [t2, t3] && turns[1..][1..] == [t3];
    assert !Harmless(k, t3) && !Attributable([t3], k);
  }

  /** For the bound actually configured: that the history was right after every turn tells exactly that every
      prefix was harmless, for every run, if and only if the bound is at least three. */
  lemma BoundTellsHarmIff(max: nat)
    ensures (forall turns :: AlwaysRemembered(turns, max) <==> Attributable(turns, NOTHING_KNOWN)) <==> max >= 3
  {
    if max >= 3 {
      forall turns ensures AlwaysRemembered(turns, max) <==> Attributable(turns, NOTHING_KNOWN) {
        AlwaysRememberedIff(turns, max);
      }
    } else {
      var turns := LatePrefixHarms();
      FewPlacesHideHarm(turns, max);
    }
  }
}
