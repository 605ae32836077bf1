/** The text that ends up in a history is the text that was generated: its parts one after the other,
    without the white space at either end, however it was cut into parts. */
module ReplyText {
  import opened Prelude
  import opened ChatHistory

  // ---------- parts ----------

  lemma JoinedOne(part: string)
    ensures Joined([part]) == part
  {
    assert [part][..0] == [];
  }

  lemma {:induction false} JoinedConcatenates(a: seq<string>, b: seq<string>)
    ensures Joined(a + b) == Joined(a) + Joined(b)
    decreases |b|
  {
    if b == [] {
      assert a + b == a;
    } else {
      var n := |b| - 1;
      assert (a + b)[..|a + b| - 1] == a + b[..n];
      JoinedConcatenates(a, b[..n]);
    }
  }

  /** Character by character: the k-th part stands after those before it. */
  lemma JoinedAt(parts: seq<string>, k: nat, i: nat)
    requires k < |parts| && i < |parts[k]|
    ensures |Joined(parts[..k])| + i < |Joined(parts)|
    ensures Joined(parts)[|Joined(parts[..k])| + i] == parts[k][i]
  {
    JoinedConcatenates(parts[..k], parts[k..]);
    JoinedConcatenates([parts[k]], parts[k + 1..]);
    JoinedOne(parts[k]);
    assert parts == parts[..k] + parts[k..] && parts[k..] == [parts[k]] + parts[k + 1..];
  }

  function Cut(parts: seq<string>, k: nat, head: string, tail: string): seq<string>
    requires k < |parts|
  {
    parts[..k] + [head, tail] + parts[k + 1..]
  }

  lemma CutKeepsText(parts: seq<string>, k: nat, head: string, tail: string)
    requires k < |parts| && parts[k] == head + tail
    ensures Joined(Cut(parts, k, head, tail)) == Joined(parts)
  {
    var before, after := parts[..k], parts[k + 1..];
    assert parts == before + [parts[k]] + after && [head, tail] == [head] + [tail];
    JoinedConcatenates(before + [parts[k]], after);
    JoinedConcatenates(before, [parts[k]]);
    JoinedConcatenates(before + [head, tail], after);
    JoinedConcatenates(before, [head, tail]);
    JoinedConcatenates([head], [tail]);
    JoinedOne(parts[k]);
    JoinedOne(head);
    JoinedOne(tail);
  }

  /** Where the reply is cut into parts makes no difference to the conversation. */
  lemma PartsAreInvisible(c: Chat, t: Turn, k: nat, head: string, tail: string, max: nat)
    requires k < |t.parts| && t.parts[k] == head + tail
    ensures TakeTurn(c, t.(parts := Cut(t.parts, k, head, tail)), max) == TakeTurn(c, t, max)
  {
    CutKeepsText(t.parts, k, head, tail);
  }

  // ---------- white space ----------

  predicate Blank(s: string) { forall i | 0 <= i < |s| :: IsSpace(s[i]) }

  /** `core` is what is left of the text without the white space at its ends. */
  ghost predicate Core(text: string, core: string)
  {
    && (core != "" ==> !IsSpace(core[0]) && !IsSpace(core[|core| - 1]))
    && exists left, right :: Blank(left) && Blank(right) && text == left + core + right
  }

  lemma {:induction false} TrimLeftDropsBlank(s: string) returns (left: string)
    ensures Blank(left) && s == left + TrimLeft(s)
  {
    if s != [] && IsSpace(s[0]) {
      var rest := TrimLeftDropsBlank(s[1..]);
      left := [s[0]] + rest;
    } else {
      left := "";
    }
  }

  lemma {:induction false} TrimRightDropsBlank(s: string) returns (right: string)
    ensures Blank(right) && s == TrimRight(s) + right
  {
    if s != [] && IsSpace(s[|s| - 1]) {
      var rest := TrimRightDropsBlank(s[..|s| - 1]);
      right := rest + [s[|s| - 1]];
      assert s == s[..|s| - 1] + [s[|s| - 1]];
    } else {
      right := "";
    }
  }

  lemma TrimIsCore(text: string)
    ensures Core(text, Trim(text))
  {
    TrimHasCleanEnds(text);
    var left := TrimLeftDropsBlank(text);
    var right := TrimRightDropsBlank(TrimLeft(text));
    assert text == left + Trim(text) + right;
  }

  lemma BlankHasNoCore(text: string, core: string)
    requires Core(text, core)
    ensures Blank(text) <==> core == ""
  {
    var left, right :| Blank(left) && Blank(right) && text == left + core + right;
    if core != "" { assert text[|left|] == core[0]; }
  }

  /** There is one such core. */
  lemma CoreIsUnique(text: string, a: string, b: string)
    requires Core(text, a) && Core(text, b)
    ensures a == b
  {
    var l, r :| Blank(l) && Blank(r) && text == l + a + r;
    var m, s :| Blank(m) && Blank(s) && text == m + b + s;
    BlankHasNoCore(text, a);
    BlankHasNoCore(text, b);
    if a != "" {
      if |l| < |m| { StartsBlank(l, a, r, m, b, s); }
      if |m| < |l| { StartsBlank(m, b, s, l, a, r); }
      if |r| < |s| { EndsBlank(l, a, r, m, b, s); }
      if |s| < |r| { EndsBlank(m, b, s, l, a, r); }
      assert a == text[|l|..|text| - |r|] && b == text[|m|..|text| - |s|];
    }
  }

  lemma StartsBlank(l: string, a: string, r: string, m: string, b: string, s: string)
    requires l + a + r == m + b + s && |l| < |m| && Blank(m) && a != ""
    ensures IsSpace(a[0])
  {
    assert (l + a + r)[|l|] == a[0] && (m + b + s)[|l|] == m[|l|];
  }

  lemma EndsBlank(l: string, a: string, r: string, m: string, b: string, s: string)
    requires l + a + r == m + b + s && |r| < |s| && Blank(s) && a != ""
    ensures IsSpace(a[|a| - 1])
  {
    var n := |l + a + r|;
    assert (l + a + r)[n - 1 - |r|] == a[|a| - 1] && (m + b + s)[n - 1 - |r|] == s[|s| - 1 - |r|];
  }

  // ---------- what is stored ----------

  /** A completed turn leaves the question as it was asked and, unless it was blank, the generated text
      without the white space at its ends. */
  lemma StoredTextIsWhatWasSaid(c: Chat, t: Turn, max: nat, said: string)
    requires t.completed && max >= 2 && Core(Joined(t.parts), said)
    ensures var h := TakeTurn(c, t, max).history;
            var question, reply := Message(User, t.userText, None), Message(Assistant, said, Some(t.reasoning));
      if Blank(Joined(t.parts)) then h != [] && h[|h| - 1] == question
      else |h| >= 2 && h[|h| - 1] == reply && h[|h| - 2] == question
  {
    TrimIsTheCore(Joined(t.parts), said);
    WriteBackEnds(ApplyPrefix(c, t.playedPrefix, max), t, max);
  }

  lemma WriteBackEnds(c: Chat, t: Turn, max: nat)
    requires max >= 2
    ensures var h := WriteBack(c, t, max).history;
            var question, reply := Message(User, t.userText, None), Message(Assistant, Reply(t), Some(t.reasoning));
      if Reply(t) == "" then h != [] && h[|h| - 1] == question
      else |h| >= 2 && h[|h| - 1] == reply && h[|h| - 2] == question
  {
  }

  lemma AppendEnds(h: seq<Message>, m: Message, max: nat)
    requires max >= 1 && |h| <= max
    ensures var all := Append(h, m, max);
      all != [] && all[|all| - 1] == m && |all| <= |h| + 1 && all[..|all| - 1] == h[|h| + 1 - |all|..]
  {
  }

  lemma PrefixReplaces(c: Chat, prefix: string, max: nat)
    requires c.pending
    ensures ApplyPrefix(c, Some(prefix), max).history
         == if Trim(prefix) == "" then Before(c)
            else Append(Before(c), Message(Assistant, Trim(prefix), None), max)
  {
  }

  /** The history without the reply it ends with, if it ends with one. */
  function Before(c: Chat): seq<Message>
  {
    if c.history != [] && c.history[|c.history| - 1].role == Assistant then c.history[..|c.history| - 1] else c.history
  }

  lemma TrimIsTheCore(text: string, core: string)
    requires Core(text, core)
    ensures Trim(text) == core && (Blank(text) <==> core == "")
  {
    TrimIsCore(text);
    CoreIsUnique(text, core, Trim(text));
    BlankHasNoCore(text, core);
  }

  /** A prefix that is applied leaves what was heard, in the same way, and the reply it replaces is gone. */
  lemma HeardTextIsThePrefix(c: Chat, prefix: string, max: nat, heard: string)
    requires c.pending && max >= 1 && |c.history| <= max && Core(prefix, heard)
    ensures var h := ApplyPrefix(c, Some(prefix), max).history;
      if Blank(prefix) then h == Before(c)
      else h != [] && h[|h| - 1] == Message(Assistant, heard, None) && |h| <= |Before(c)| + 1
           && h[..|h| - 1] == Before(c)[|Before(c)| + 1 - |h|..]
  {
    TrimIsTheCore(prefix, heard);
    PrefixReplaces(c, prefix, max);
    AppendEnds(Before(c), Message(Assistant, heard, None), max);
  }
}
