/** What a conversation sees of the pool. Other conversations touch it only by having it dropped, at
    moments given exactly, also while a reply is generated; and being dropped and fetched again costs it
    the mark on an interrupted reply, unless turns overlap on two copies of it. */
module SessionContinuity {
  import opened Prelude
  import opened ChatHistory
  import opened Tags
  import opened SessionPool

  /** Everything that happens in the pool between two points where a coroutine gives way. */
  datatype Op =
    | Look(id: string, now: int, faults: Faults)
    | Sweep(now: int, unsaved: set<string>)
    | BeginTurn(k: nat, prefix: Option<string>)
    | FinishTurn(k: nat, turn: Turn)
    | Save(k: nat, saves: bool)
    | Remove(id: string)
    | SaveRemoved(k: nat, saves: bool)

  function Step(s: State, lim: Limits, op: Op): State
  {
    match op
    case Look(id, now, faults) => GetOrCreate(s, lim, id, now, faults).0
    case Sweep(now, unsaved) => Evict(s, lim, now, unsaved)
    case BeginTurn(k, prefix) => Begin(s, lim, k, prefix)
    case FinishTurn(k, turn) => Finish(s, lim, k, turn)
    case Save(k, saves) => Store(s, k, saves)
    case Remove(id) => TakeOut(s, id)
    case SaveRemoved(k, saves) => Keep(s, k, saves)
  }

  function Run(s: State, lim: Limits, ops: seq<Op>): State
    decreases |ops|
  {
    if ops == [] then s else Run(Step(s, lim, ops[0]), lim, ops[1..])
  }

  lemma RunCons(s: State, lim: Limits, op: Op, rest: seq<Op>)
    ensures Run(s, lim, [op] + rest) == Run(Step(s, lim, op), lim, rest)
  {
    assert ([op] + rest)[1..] == rest;
  }

  /** The steps of a message once its session is found, with nothing in between. */
  function TurnOps(k: nat, t: Turn, later: int, unsaved: set<string>, saves: bool): seq<Op>
  {
    [Sweep(later, unsaved)] + ([BeginTurn(k, t.playedPrefix)] + ([FinishTurn(k, t)] + [Save(k, t.completed && saves)]))
  }

  /** A message served with nobody in between is one of the runs. */
  lemma ServeIsARun(s: State, lim: Limits, id: string, t: Turn, now: int, later: int, faults: Faults)
    requires GetOrCreate(s, lim, id, now, faults).1.Some?
    ensures var k := GetOrCreate(s, lim, id, now, faults).1.value;
      Serve(s, lim, id, t, now, later, faults).0
        == Run(s, lim, [Look(id, now, faults)] + TurnOps(k, t, later, faults.unsaved, id !in faults.unsaved))
  {
    var (found, k) := GetOrCreate(s, lim, id, now, faults);
    RunCons(s, lim, Look(id, now, faults), TurnOps(k.value, t, later, faults.unsaved, id !in faults.unsaved));
    TurnOpsRun(found, lim, k.value, t, later, faults.unsaved, id !in faults.unsaved);
  }

  lemma TurnOpsRun(s: State, lim: Limits, k: nat, t: Turn, later: int, unsaved: set<string>, saves: bool)
    ensures Run(s, lim, TurnOps(k, t, later, unsaved, saves))
         == Store(Finish(Begin(Evict(s, lim, later, unsaved), lim, k, t.playedPrefix), lim, k, t), k,
                  t.completed && saves)
  {
    var save := [Save(k, t.completed && saves)];
    var swept := Evict(s, lim, later, unsaved);
    var begun := Begin(swept, lim, k, t.playedPrefix);
    RunCons(s, lim, Sweep(later, unsaved), [BeginTurn(k, t.playedPrefix)] + ([FinishTurn(k, t)] + save));
    RunCons(swept, lim, BeginTurn(k, t.playedPrefix), [FinishTurn(k, t)] + save);
    RunCons(begun, lim, FinishTurn(k, t), save);
    LastOp(Finish(begun, lim, k, t), lim, Save(k, t.completed && saves));
  }

  // ---------- one conversation by itself ----------

  /** Every session object it ever had, oldest first; which of them is in the pool; what is saved of it. */
  datatype Mine = Mine(chats: seq<Chat>, live: Option<nat>, saved: Option<seq<Message>>)

  /** What can happen to it. A number says which of its session objects is meant. */
  datatype Seen =
    | Dropped(saves: bool)
    | TakenOut
    | Fetched(loads: bool)
    | Began(j: nat, prefix: Option<string>)
    | Ended(j: nat, turn: Turn)
    | Stored(j: nat, saves: bool)
    | Kept(j: nat, saves: bool)

  function Restored(saved: Option<seq<Message>>, max: nat): seq<Message>
  {
    if saved.Some? then Restore(saved.value, max) else []
  }

  function ChatAt(o: Mine, j: nat): Chat { if j < |o.chats| then o.chats[j] else NEW_CHAT }

  function WithChat(o: Mine, j: nat, c: Chat): Mine
  {
    if j < |o.chats| then o.(chats := o.chats[j := c]) else o
  }

  function KeptOf(o: Mine, j: nat, saves: bool): Option<seq<Message>>
  {
    if saves && ChatAt(o, j).history != [] then Some(ChatAt(o, j).history) else o.saved
  }

  function After(o: Mine, e: Seen, max: nat): Mine
  {
    match e
    case Dropped(saves) => if o.live.None? then o else Mine(o.chats, None, KeptOf(o, o.live.value, saves))
    case TakenOut => o.(live := None)
    case Fetched(loads) =>
      if o.live.Some? then o
      else Mine(o.chats + [Chat(if loads then Restored(o.saved, max) else [], false)], Some(|o.chats|), o.saved)
    case Began(j, prefix) => WithChat(o, j, ApplyPrefix(ChatAt(o, j), prefix, max))
    case Ended(j, t) => WithChat(o, j, Finished(ChatAt(o, j), t, max))
    case Stored(j, saves) => if saves && j < |o.chats| then o.(saved := Some(o.chats[j].history)) else o
    case Kept(j, saves) => o.(saved := KeptOf(o, j, saves))
  }

  function Follow(o: Mine, seen: seq<Seen>, max: nat): Mine
    decreases |seen|
  {
    if seen == [] then o else Follow(After(o, seen[0], max), seen[1..], max)
  }

  // ---------- what an operation of the pool means for one conversation ----------

  /** Each session of the pool is an object of its own conversation. */
  ghost predicate StateOk(s: State)
  {
    forall id | id in s.sessions :: s.sessions[id].slot < |s.objects| && s.objects[s.sessions[id].slot].id == id
  }

  function Project(s: State, id: string): Mine
    requires StateOk(s)
  {
    Mine(Own(s.objects, id),
         if id in s.sessions then Some(Rank(s.objects, s.sessions[id].slot)) else None,
         if id in s.memory then Some(s.memory[id]) else None)
  }

  function IfDropped(s: State, ids: set<string>, id: string, failing: set<string>): seq<Seen>
  {
    if id in s.sessions && id in ids then [Dropped(id !in failing)] else []
  }

  predicate Owns(s: State, k: nat, id: string) { k < |s.objects| && s.objects[k].id == id }

  /** A drop exactly when it is live and among the sessions that are swept, a turn's parts and savings
      exactly when they are on one of its own session objects. */
  function SeenBy(s: State, lim: Limits, op: Op, id: string): seq<Seen>
  {
    match op
    case Look(other, now, faults) =>
      SeenOfRoom(s, lim, op, id) +
      (if id == other && GetOrCreate(s, lim, id, now, faults).1.Some? then [Fetched(id !in faults.unreadable)] else [])
    case Sweep(now, unsaved) => IfDropped(s, ExpiredIds(s, lim, now), id, unsaved)
    case BeginTurn(k, prefix) => if Owns(s, k, id) then [Began(Rank(s.objects, k), prefix)] else []
    case FinishTurn(k, turn) => if Owns(s, k, id) then [Ended(Rank(s.objects, k), turn)] else []
    case Save(k, saves) => if Owns(s, k, id) then [Stored(Rank(s.objects, k), saves)] else []
    case Remove(other) => if id == other && id in s.sessions then [TakenOut] else []
    case SaveRemoved(k, saves) => if Owns(s, k, id) then [Kept(Rank(s.objects, k), saves)] else []
  }

  /** The drops of a lookup that has to make room. */
  function SeenOfRoom(s: State, lim: Limits, op: Op, id: string): seq<Seen>
    requires op.Look?
  {
    if op.id !in s.sessions && |s.sessions| >= lim.maxSessions
    then IfDropped(s, ExpiredIds(s, lim, op.now), id, op.faults.unsaved) else []
  }

  function SeenIn(s: State, lim: Limits, ops: seq<Op>, id: string): seq<Seen>
    decreases |ops|
  {
    if ops == [] then [] else SeenBy(s, lim, ops[0], id) + SeenIn(Step(s, lim, ops[0]), lim, ops[1..], id)
  }

  lemma {:induction false} FollowSplit(o: Mine, a: seq<Seen>, b: seq<Seen>, max: nat)
    ensures Follow(o, a + b, max) == Follow(Follow(o, a, max), b, max)
    decreases |a|
  {
    if a == [] {
      assert a + b == b;
    } else {
      assert (a + b)[0] == a[0] && (a + b)[1..] == a[1..] + b;
      FollowSplit(After(o, a[0], max), a[1..], b, max);
    }
  }

  lemma FollowOne(o: Mine, e: Seen, max: nat)
    ensures Follow(o, [e], max) == After(o, e, max)
  {
    assert [e][1..] == [];
  }

  lemma ProjectChat(s: State, id: string, k: nat)
    requires StateOk(s) && Owns(s, k, id)
    ensures ChatAt(Project(s, id), Rank(s.objects, k)) == ChatOf(s, k)
    ensures Rank(s.objects, k) < |Project(s, id).chats|
  {
    OwnAt(s.objects, k);
  }

  lemma DropExplained(s: State, ids: set<string>, failing: set<string>, id: string, max: nat)
    requires StateOk(s)
    ensures StateOk(DropAll(s, ids, failing))
    ensures Project(DropAll(s, ids, failing), id) == Follow(Project(s, id), IfDropped(s, ids, id, failing), max)
  {
    DropMemory(s, ids, failing, id);
    if id in s.sessions && id in ids {
      ProjectChat(s, id, s.sessions[id].slot);
      FollowOne(Project(s, id), Dropped(id !in failing), max);
    }
  }

  lemma CreateExplained(s: State, id: string, c: Chat, now: int, other: string)
    requires StateOk(s) && id !in s.sessions
    ensures StateOk(Created(s, id, c, now))
    ensures var o := Project(s, other);
      Project(Created(s, id, c, now), other)
        == if other == id then Mine(o.chats + [c], Some(|o.chats|), o.saved) else o
  {
    var all := s.objects + [Tagged(id, c)];
    OwnSnoc(s.objects, Tagged(id, c), other);
    assert all[..|s.objects|] == s.objects;
    if other in s.sessions {
      var k := s.sessions[other].slot;
      assert all[..k] == s.objects[..k];
    }
  }

  lemma RoomExplained(s: State, lim: Limits, op: Op, id: string)
    requires StateOk(s) && op.Look? && op.id !in s.sessions
    ensures var room := MadeRoom(s, lim, op.now, op.faults.unsaved);
      StateOk(room) && Project(room, id) == Follow(Project(s, id), SeenOfRoom(s, lim, op, id), lim.maxHistory)
  {
    DropExplained(s, ExpiredIds(s, lim, op.now), op.faults.unsaved, id, lim.maxHistory);
  }

  lemma FetchExplained(room: State, lim: Limits, op: Op, id: string)
    requires StateOk(room) && op.Look? && op.id !in room.sessions
    ensures var history := if op.id in op.faults.unreadable then [] else Saved(room, lim, op.id);
            var made := Created(room, op.id, Chat(history, false), op.now);
      && StateOk(made)
      && Project(made, id)
         == if id == op.id then After(Project(room, id), Fetched(id !in op.faults.unreadable), lim.maxHistory)
            else Project(room, id)
  {
    var history := if op.id in op.faults.unreadable then [] else Saved(room, lim, op.id);
    CreateExplained(room, op.id, Chat(history, false), op.now, id);
  }

  lemma TouchExplained(s: State, lim: Limits, op: Op, id: string)
    requires StateOk(s) && op.Look? && op.id in s.sessions
    ensures StateOk(Step(s, lim, op)) && Project(Step(s, lim, op), id) == Project(s, id)
  {
  }

  lemma MissExplained(s: State, lim: Limits, op: Op, id: string)
    requires StateOk(s) && op.Look? && op.id !in s.sessions
    ensures StateOk(Step(s, lim, op))
    ensures var before := Follow(Project(s, id), SeenOfRoom(s, lim, op, id), lim.maxHistory);
            Project(Step(s, lim, op), id)
              == if id == op.id && GetOrCreate(s, lim, id, op.now, op.faults).1.Some?
                 then After(before, Fetched(id !in op.faults.unreadable), lim.maxHistory) else before
  {
    RoomExplained(s, lim, op, id);
    FetchExplained(MadeRoom(s, lim, op.now, op.faults.unsaved), lim, op, id);
  }

  lemma LookExplained(s: State, lim: Limits, op: Op, id: string)
    requires StateOk(s) && op.Look?
    ensures StateOk(Step(s, lim, op))
    ensures Project(Step(s, lim, op), id) == Follow(Project(s, id), SeenBy(s, lim, op, id), lim.maxHistory)
  {
    var max, seen := lim.maxHistory, SeenOfRoom(s, lim, op, id);
    var fetched := Fetched(id !in op.faults.unreadable);
    assert seen + [] == seen;
    if op.id in s.sessions { TouchExplained(s, lim, op, id); } else { MissExplained(s, lim, op, id); }
    FollowSplit(Project(s, id), seen, [fetched], max);
    FollowOne(Follow(Project(s, id), seen, max), fetched, max);
  }

  lemma WriteExplained(s: State, k: nat, c: Chat, id: string)
    requires StateOk(s)
    ensures StateOk(SetChat(s, k, c))
    ensures Project(SetChat(s, k, c), id)
         == if Owns(s, k, id) then WithChat(Project(s, id), Rank(s.objects, k), c) else Project(s, id)
  {
    if k < |s.objects| {
      OwnAfterUpdate(s.objects, k, c, id);
      if id in s.sessions { SameIdsSameRank(s.objects, SetChat(s, k, c).objects, s.sessions[id].slot); }
    }
  }

  lemma StepExplained(s: State, lim: Limits, op: Op, id: string)
    requires StateOk(s)
    ensures StateOk(Step(s, lim, op))
    ensures Project(Step(s, lim, op), id) == Follow(Project(s, id), SeenBy(s, lim, op, id), lim.maxHistory)
  {
    var max, seen := lim.maxHistory, SeenBy(s, lim, op, id);
    if |seen| == 1 { FollowOne(Project(s, id), seen[0], max); }
    match op
    case Look(_, _, _) => LookExplained(s, lim, op, id);
    case Sweep(now, unsaved) => DropExplained(s, ExpiredIds(s, lim, now), unsaved, id, max);
    case BeginTurn(k, prefix) =>
      WriteExplained(s, k, ApplyPrefix(ChatOf(s, k), prefix, max), id);
      if Owns(s, k, id) { ProjectChat(s, id, k); }
    case FinishTurn(k, turn) =>
      WriteExplained(s, k, Finished(ChatOf(s, k), turn, max), id);
      if Owns(s, k, id) { ProjectChat(s, id, k); }
    case Save(k, _) => if Owns(s, k, id) { ProjectChat(s, id, k); }
    case Remove(_) =>
    case SaveRemoved(k, _) => if Owns(s, k, id) { ProjectChat(s, id, k); }
  }

  /** Over any run, with any saves and loads failing and turns under way anywhere: a conversation is what
      its own turns, fetches and drops make of it, each at the exact moment the pool has it. */
  lemma {:induction false} PoolIsTransparent(s: State, lim: Limits, ops: seq<Op>, id: string)
    requires StateOk(s)
    ensures StateOk(Run(s, lim, ops))
    ensures Project(Run(s, lim, ops), id) == Follow(Project(s, id), SeenIn(s, lim, ops, id), lim.maxHistory)
    decreases |ops|
  {
    if ops != [] {
      StepExplained(s, lim, ops[0], id);
      PoolIsTransparent(Step(s, lim, ops[0]), lim, ops[1..], id);
      FollowSplit(Project(s, id), SeenBy(s, lim, ops[0], id), SeenIn(Step(s, lim, ops[0]), lim, ops[1..], id),
                  lim.maxHistory);
    }
  }

  // ---------- well-formed histories ----------

  /** Every reply but a truncated one follows a question, and a history of one message is a question. */
  ghost predicate Shaped(h: seq<Message>)
  {
    && (forall k | 0 < k < |h| && h[k].role == Assistant :: h[k - 1].role == User)
    && (|h| == 1 ==> h[0].role == User)
  }

  ghost predicate ChatOk(c: Chat, max: nat)
  {
    |c.history| <= max && (max >= 2 ==> Shaped(c.history) && (c.pending ==> c.history != []))
  }

  lemma AppendKeepsShape(h: seq<Message>, m: Message, max: nat)
    requires Shaped(h) && |h| <= max && max >= 2
    requires m.role == Assistant ==> h != [] && h[|h| - 1].role == User
    ensures Shaped(Append(h, m, max)) && |Append(h, m, max)| <= max && Append(h, m, max) != []
    ensures var a := Append(h, m, max); a[|a| - 1] == m
  {
  }

  /** With room for two messages a cut never empties a history. */
  lemma PrefixKeepsOk(c: Chat, prefix: Option<string>, max: nat)
    requires ChatOk(c, max) && max != 1
    ensures ChatOk(ApplyPrefix(c, prefix, max), max)
    ensures ApplyPrefix(c, prefix, max).history == [] ==> c.history == []
  {
    if max >= 2 && c.pending && prefix.Some? {
      var kept := Popped(c.history);
      assert kept != [] && kept[|kept| - 1].role == User && Shaped(kept);
      if Trim(prefix.value) != "" {
        AppendKeepsShape(kept, Heard(prefix.value), max);
      }
    }
  }

  lemma FinishKeepsOk(c: Chat, t: Turn, max: nat)
    requires ChatOk(c, max) && max != 1
    ensures ChatOk(Finished(c, t, max), max)
    ensures Finished(c, t, max).history == [] ==> c.history == []
  {
    if max >= 2 && t.completed {
      var user := Message(User, t.userText, None);
      AppendKeepsShape(c.history, user, max);
      if Reply(t) != "" {
        AppendKeepsShape(Append(c.history, user, max), Message(Assistant, Reply(t), Some(t.reasoning)), max);
      }
    }
  }

  lemma {:induction false} RestoreShort(h: seq<Message>, max: nat)
    requires |h| <= max
    ensures Restore(h, max) == h
    decreases |h|
  {
    if h != [] {
      RestoreShort(h[..|h| - 1], max);
    }
  }

  /** A longer history comes back as its newest part. */
  lemma {:induction false} RestoreNewest(h: seq<Message>, max: nat)
    requires |h| >= max
    ensures Restore(h, max) == h[|h| - max..]
    decreases |h|
  {
    if |h| == max {
      RestoreShort(h, max);
    } else {
      RestoreNewest(h[..|h| - 1], max);
      assert h[..|h| - 1][|h| - 1 - max..] + [h[|h| - 1]] == h[|h| - 1 - max..];
    }
  }

  lemma {:induction false} RestoreNothing(h: seq<Message>)
    ensures Restore(h, 0) == []
  {
  }

  // ---------- what a drop costs ----------

  /** The conversation as the next lookup will find it. */
  function View(o: Mine, max: nat): Chat
  {
    if o.live.Some? then ChatAt(o, o.live.value) else Chat(Restored(o.saved, max), false)
  }

  function Forgotten(c: Chat): Chat { c.(pending := false) }

  /** A store that drops nothing, only forgets the mark: the chat that turns work on and, while it is out
      of the pool, the chat that will be found. */
  datatype Ref = Ref(chat: Chat, left: Option<Chat>)

  function Leave(r: Ref): Ref { r.(left := Some(Forgotten(r.chat))) }

  function Remembered(r: Ref, e: Seen, max: nat): Ref
  {
    match e
    case Dropped(_) => if r.left.None? then Leave(r) else r
    case TakenOut => Leave(r)
    case Fetched(_) => if r.left.Some? then Ref(r.left.value, None) else r
    case Began(_, prefix) => r.(chat := ApplyPrefix(r.chat, prefix, max))
    case Ended(_, t) => r.(chat := Finished(r.chat, t, max))
    case Stored(_, _) => if r.left.Some? then Leave(r) else r
    case Kept(_, _) => if r.left.Some? then Leave(r) else r
  }

  function RememberedAll(r: Ref, seen: seq<Seen>, max: nat): Ref
    decreases |seen|
  {
    if seen == [] then r else RememberedAll(Remembered(r, seen[0], max), seen[1..], max)
  }

  function RefView(r: Ref): Chat { if r.left.Some? then r.left.value else r.chat }

  /** How a conversation stands with the pool: how many session objects it had, whether it is live, how
      many turns and savings are under way on it, and whether a removal has still to save it. */
  datatype Phase = Phase(made: nat, live: bool, turns: nat, savings: nat, owed: bool)

  /** Saves and loads succeed, and while turns or savings are under way on a session that has been
      dropped no other session takes its place. */
  predicate Works(p: Phase, e: Seen)
  {
    match e
    case Dropped(saves) => saves
    case TakenOut => p.live
    case Fetched(loads) => loads && (p.live || (p.turns == p.savings == 0 && !p.owed))
    case Began(j, _) => p.turns > 0 && j + 1 == p.made
    case Ended(j, _) => p.turns > 0 && j + 1 == p.made
    case Stored(j, saves) => p.savings > 0 && j + 1 == p.made && saves
    case Kept(j, saves) => p.owed && j + 1 == p.made && saves
  }

  function PhaseAfter(p: Phase, e: Seen): Phase
    requires Works(p, e)
  {
    match e
    case Dropped(_) => p.(live := false)
    case TakenOut => p.(live := false, owed := true)
    case Fetched(_) => if p.live then p.(turns := p.turns + 1) else Phase(p.made + 1, true, 1, 0, false)
    case Began(_, _) => p
    case Ended(_, t) => p.(turns := p.turns - 1, savings := p.savings + if t.completed then 1 else 0)
    case Stored(_, _) => p.(savings := p.savings - 1)
    case Kept(_, _) => p.(owed := false)
  }

  predicate WellServed(seen: seq<Seen>, p: Phase)
  {
    if seen == [] then !p.owed else Works(p, seen[0]) && WellServed(seen[1..], PhaseAfter(p, seen[0]))
  }

  const NEVER_SEEN: Mine := Mine([], None, None)
  const UNUSED: Phase := Phase(0, false, 0, 0, false)
  const NO_CHAT: Ref := Ref(NEW_CHAT, Some(NEW_CHAT))

  /** What the next lookup finds is what a store without drops would, the mark apart. */
  ghost predicate ForgetsOnlyMarks(seen: seq<Seen>, max: nat)
  {
    View(Follow(NEVER_SEEN, seen, max), max) == RefView(RememberedAll(NO_CHAT, seen, max))
  }

  ghost predicate PhaseOk(o: Mine, p: Phase)
  {
    && p.made == |o.chats| && p.live == o.live.Some?
    && (p.live ==> o.live.value + 1 == p.made)
    && (p.turns > 0 || p.savings > 0 || p.owed ==> p.made > 0)
  }

  ghost predicate SavedOk(saved: Option<seq<Message>>, max: nat)
  {
    saved.Some? ==> |saved.value| <= max && (max >= 2 ==> Shaped(saved.value))
  }

  function Text(saved: Option<seq<Message>>): seq<Message> { if saved.Some? then saved.value else [] }

  ghost predicate Agrees(o: Mine, p: Phase, r: Ref, max: nat)
  {
    && PhaseOk(o, p) && SavedOk(o.saved, max) && ChatOk(r.chat, max)
    && p.live == r.left.None?
    && (p.made > 0 ==> r.chat == o.chats[p.made - 1])
    && (!p.live && !p.owed ==> r.left.value == Chat(Text(o.saved), false))
    && (r.chat.history == [] ==> Text(o.saved) == [])
  }

  lemma TextRestored(saved: Option<seq<Message>>, max: nat)
    requires SavedOk(saved, max)
    ensures Restored(saved, max) == Text(saved)
  {
    if saved.Some? { RestoreShort(saved.value, max); }
  }

  lemma TurnAgrees(o: Mine, p: Phase, r: Ref, e: Seen, max: nat)
    requires max != 1 && Agrees(o, p, r, max) && Works(p, e) && (e.Began? || e.Ended?)
    ensures Agrees(After(o, e, max), PhaseAfter(p, e), Remembered(r, e, max), max)
  {
    if e.Began? { PrefixKeepsOk(r.chat, e.prefix, max); } else { FinishKeepsOk(r.chat, e.turn, max); }
  }

  lemma EventAgrees(o: Mine, p: Phase, r: Ref, e: Seen, max: nat)
    requires max != 1 && Agrees(o, p, r, max) && Works(p, e)
    ensures Agrees(After(o, e, max), PhaseAfter(p, e), Remembered(r, e, max), max)
  {
    if e.Began? || e.Ended? { TurnAgrees(o, p, r, e, max); }
    if e.Fetched? { TextRestored(o.saved, max); }
  }

  lemma {:induction false} CourseAgrees(o: Mine, p: Phase, r: Ref, seen: seq<Seen>, max: nat)
    requires max != 1 && Agrees(o, p, r, max) && WellServed(seen, p)
    ensures View(Follow(o, seen, max), max) == RefView(RememberedAll(r, seen, max))
    decreases |seen|
  {
    if seen == [] {
      TextRestored(o.saved, max);
    } else {
      EventAgrees(o, p, r, seen[0], max);
      CourseAgrees(After(o, seen[0], max), PhaseAfter(p, seen[0]), Remembered(r, seen[0], max), seen[1..], max);
    }
  }

  /** An interrupted reply, a turn that says nothing of it was heard, and a drop before that turn ends. */
  const SAID: Turn := Turn("q", None, ["r"], "", true, true)
  const REPLY: Message := Message(Assistant, "r", Some(""))

  lemma SaidInOne()
    ensures Finished(NEW_CHAT, SAID, 1) == Chat([REPLY], true)
  {
    assert SAID.parts[..0] == [] && Joined(SAID.parts[..0]) == "";
    assert Joined(SAID.parts) == "" + "r" == "r" && Trim("r") == "r";
  }

  lemma CutInOne()
    ensures ApplyPrefix(Chat([REPLY], true), Some(""), 1) == Chat([], false)
  {
    assert Trim("") == "";
  }

  /** Some course from here costs more than a mark. */
  ghost predicate CostsMore(o: Mine, p: Phase, r: Ref, max: nat)
  {
    exists seen :: WellServed(seen, p) && View(Follow(o, seen, max), max) != RefView(RememberedAll(r, seen, max))
  }

  ghost predicate Goes(o: Mine, p: Phase, r: Ref, e: Seen, max: nat, o': Mine, p': Phase, r': Ref)
  {
    Works(p, e) && After(o, e, max) == o' && PhaseAfter(p, e) == p' && Remembered(r, e, max) == r'
  }

  lemma CostsMoreEarlier(o: Mine, p: Phase, r: Ref, e: Seen, max: nat, o': Mine, p': Phase, r': Ref)
    requires Goes(o, p, r, e, max, o', p', r') && CostsMore(o', p', r', max)
    ensures CostsMore(o, p, r, max)
  {
    var rest :| WellServed(rest, p') && View(Follow(o', rest, max), max) != RefView(RememberedAll(r', rest, max));
    assert ([e] + rest)[1..] == rest;
    assert WellServed([e] + rest, p);
  }

  lemma CostsMoreNow(o: Mine, p: Phase, r: Ref, max: nat)
    requires !p.owed && View(o, max) != RefView(r)
    ensures CostsMore(o, p, r, max)
  {
    assert WellServed([], p) && Follow(o, [], max) == o && RememberedAll(r, [], max) == r;
  }

  const QUIET: Phase := Phase(1, true, 0, 0, false)
  const ASKED: Phase := Phase(1, true, 1, 0, false)
  const MARKED: Chat := Chat([REPLY], true)

  lemma GoneYetSaved()
    ensures CostsMore(Mine([NEW_CHAT], None, Some([REPLY])), ASKED.(live := false), NO_CHAT, 1)
  {
    RestoreShort([REPLY], 1);
    CostsMoreNow(Mine([NEW_CHAT], None, Some([REPLY])), ASKED.(live := false), NO_CHAT, 1);
  }

  /** Once the reply was cut away a drop brings it back, */
  lemma DropBringsBack()
    ensures CostsMore(Mine([NEW_CHAT], Some(0), Some([REPLY])), ASKED, Ref(NEW_CHAT, None), 1)
  {
    var gone, saved := Mine([NEW_CHAT], None, Some([REPLY])), Mine([NEW_CHAT], Some(0), Some([REPLY]));
    GoneYetSaved();
    CostsMoreEarlier(saved, ASKED, Ref(NEW_CHAT, None), Dropped(true), 1, gone, ASKED.(live := false), NO_CHAT);
  }

  /** and it is cut away when nothing of it was heard, */
  lemma CutBringsBack()
    ensures CostsMore(Mine([MARKED], Some(0), Some([REPLY])), ASKED, Ref(MARKED, None), 1)
  {
    CutInOne();
    DropBringsBack();
    assert [MARKED][0 := NEW_CHAT] == [NEW_CHAT];
    CostsMoreEarlier(Mine([MARKED], Some(0), Some([REPLY])), ASKED, Ref(MARKED, None), Began(0, Some("")), 1,
                     Mine([NEW_CHAT], Some(0), Some([REPLY])), ASKED, Ref(NEW_CHAT, None));
  }

  /** in the next turn, */
  lemma NextTurnBringsBack()
    ensures CostsMore(Mine([MARKED], Some(0), Some([REPLY])), QUIET, Ref(MARKED, None), 1)
  {
    CutBringsBack();
    var o := Mine([MARKED], Some(0), Some([REPLY]));
    CostsMoreEarlier(o, QUIET, Ref(MARKED, None), Fetched(true), 1, o, ASKED, Ref(MARKED, None));
  }

  /** after it was saved, */
  lemma SavedReplyComesBack()
    ensures CostsMore(Mine([MARKED], Some(0), None), QUIET.(savings := 1), Ref(MARKED, None), 1)
  {
    NextTurnBringsBack();
    CostsMoreEarlier(Mine([MARKED], Some(0), None), QUIET.(savings := 1), Ref(MARKED, None), Stored(0, true), 1,
                     Mine([MARKED], Some(0), Some([REPLY])), QUIET, Ref(MARKED, None));
  }

  /** at the end of the turn that was interrupted. */
  lemma InterruptedReplyComesBack()
    ensures CostsMore(Mine([NEW_CHAT], Some(0), None), ASKED, Ref(NEW_CHAT, None), 1)
  {
    SaidInOne();
    SavedReplyComesBack();
    assert [NEW_CHAT][0 := MARKED] == [MARKED];
    CostsMoreEarlier(Mine([NEW_CHAT], Some(0), None), ASKED, Ref(NEW_CHAT, None), Ended(0, SAID), 1,
                     Mine([MARKED], Some(0), None), QUIET.(savings := 1), Ref(MARKED, None));
  }

  /** With room for a single message a reply that was cut away comes back from the store. */
  lemma SingleMessageComesBack()
    ensures CostsMore(NEVER_SEEN, UNUSED, NO_CHAT, 1)
  {
    InterruptedReplyComesBack();
    CostsMoreEarlier(NEVER_SEEN, UNUSED, NO_CHAT, Fetched(true), 1,
                     Mine([NEW_CHAT], Some(0), None), ASKED, Ref(NEW_CHAT, None));
  }

  /** While the store works and turns do not overlap a change of sessions, being dropped and fetched again
      costs a conversation its mark and nothing else, over every course of events, if and only if the
      history's bound is not one. */
  lemma DropsOnlyForgetIff(max: nat)
    ensures (forall seen | WellServed(seen, UNUSED) :: ForgetsOnlyMarks(seen, max)) <==> max != 1
  {
    if max == 1 {
      SingleMessageComesBack();
      var seen :| WellServed(seen, UNUSED) &&
        View(Follow(NEVER_SEEN, seen, max), max) != RefView(RememberedAll(NO_CHAT, seen, max));
      assert !ForgetsOnlyMarks(seen, max);
    } else {
      forall seen | WellServed(seen, UNUSED) ensures ForgetsOnlyMarks(seen, max) {
        CourseAgrees(NEVER_SEEN, UNUSED, NO_CHAT, seen, max);
      }
    }
  }

  /** One chat that turns work on throughout; a fetch of a dropped session clears the mark. */
  function Straight(c: Chat, live: bool, seen: seq<Seen>, max: nat): Chat
    decreases |seen|
  {
    if seen == [] then (if live then c else Forgotten(c))
    else
      var rest := seen[1..];
      match seen[0]
      case Dropped(_) => Straight(c, false, rest, max)
      case TakenOut => Straight(c, false, rest, max)
      case Fetched(_) => Straight(if live then c else Forgotten(c), true, rest, max)
      case Began(_, prefix) => Straight(ApplyPrefix(c, prefix, max), live, rest, max)
      case Ended(_, t) => Straight(Finished(c, t, max), live, rest, max)
      case Stored(_, _) => Straight(c, live, rest, max)
      case Kept(_, _) => Straight(c, live, rest, max)
  }

  /** Every turn completes and is saved by the end. */
  predicate AllSettled(seen: seq<Seen>, p: Phase)
  {
    if seen == [] then p.turns == p.savings == 0
    else
      && Works(p, seen[0]) && (seen[0].Ended? ==> seen[0].turn.completed)
      && AllSettled(seen[1..], PhaseAfter(p, seen[0]))
  }

  lemma {:induction false} NothingIsLeftBehind(p: Phase, r: Ref, seen: seq<Seen>, max: nat)
    requires AllSettled(seen, p) && p.live == r.left.None?
    requires r.left.Some? && p.turns == p.savings == 0 ==> r.left.value == Forgotten(r.chat)
    ensures RefView(RememberedAll(r, seen, max)) == Straight(r.chat, p.live, seen, max)
    decreases |seen|
  {
    if seen != [] {
      NothingIsLeftBehind(PhaseAfter(p, seen[0]), Remembered(r, seen[0], max), seen[1..], max);
    }
  }

  /** When moreover every turn completes, the next lookup finds the history that all of them have left on
      one chat, whatever drops fell between or during them. */
  lemma CompletedTurnsSurvive(seen: seq<Seen>, max: nat)
    requires max != 1 && WellServed(seen, UNUSED) && AllSettled(seen, UNUSED)
    ensures View(Follow(NEVER_SEEN, seen, max), max) == Straight(NEW_CHAT, false, seen, max)
  {
    CourseAgrees(NEVER_SEEN, UNUSED, NO_CHAT, seen, max);
    NothingIsLeftBehind(UNUSED, NO_CHAT, seen, max);
  }

  // ---------- when turns overlap a change of sessions ----------

  /** A sweep of a pool that holds one expired session with a history. */
  lemma SweepOfOne(objects: seq<Tagged<Chat>>, id: string, l: Live, memory: map<string, seq<Message>>, lim: Limits,
                   now: int)
    requires l.slot < |objects| && objects[l.slot].item.history != [] && Expired(l, lim, now)
    ensures Evict(State(objects, map[id := l], memory), lim, now, {})
         == State(objects, map[], memory[id := objects[l.slot].item.history])
  {
    var s := State(objects, map[id := l], memory);
    assert ExpiredIds(s, lim, now) == {id};
    forall k ensures var m := DropAll(s, {id}, {}).memory; k in m <==> k in memory || k == id {
      DropMemory(s, {id}, {}, k);
    }
    assert DropAll(s, {id}, {}).memory == memory[id := objects[l.slot].item.history];
  }

  const NO_FAULTS: Faults := Faults({}, {})

  /** Such a run of the pool: two sweeps, a lookup after the first, the turn's end and saving before the second. */
  function Overlap(id: string, t: Turn, now: int, later: int): seq<Op>
  {
    [Sweep(now, {})] + ([Look(id, now, NO_FAULTS)] + ([FinishTurn(0, t)] + ([Save(0, true)] + [Sweep(later, {})])))
  }

  lemma LookAfterSweep(c: Chat, id: string, memory: map<string, seq<Message>>, lim: Limits, now: int)
    requires |c.history| <= lim.maxHistory && lim.maxSessions > 0 && id in memory && memory[id] == c.history
    ensures Step(State([Tagged(id, c)], map[], memory), lim, Look(id, now, NO_FAULTS))
         == State([Tagged(id, c), Tagged(id, Forgotten(c))], map[id := Live(1, now)], memory)
  {
    RestoreShort(c.history, lim.maxHistory);
  }

  /** The session is swept and looked up again, */
  lemma SweptAndBack(c: Chat, id: string, memory: map<string, seq<Message>>, lim: Limits, last: int, now: int,
                     rest: seq<Op>)
    requires 0 < |c.history| <= lim.maxHistory && lim.maxSessions > 0 && now - last > lim.ttl
    ensures Run(State([Tagged(id, c)], map[id := Live(0, last)], memory), lim,
                [Sweep(now, {})] + ([Look(id, now, NO_FAULTS)] + rest))
         == Run(State([Tagged(id, c), Tagged(id, Forgotten(c))], map[id := Live(1, now)], memory[id := c.history]), lim,
                rest)
  {
    var objects, saved := [Tagged(id, c)], memory[id := c.history];
    SweepOfOne(objects, id, Live(0, last), memory, lim, now);
    RunCons(State(objects, map[id := Live(0, last)], memory), lim, Sweep(now, {}), [Look(id, now, NO_FAULTS)] + rest);
    LookAfterSweep(c, id, saved, lim, now);
    RunCons(State(objects, map[], saved), lim, Look(id, now, NO_FAULTS), rest);
  }

  /** the turn ends and is saved, */
  lemma EndedAndSaved(c: Chat, copy: Chat, id: string, l: Live, memory: map<string, seq<Message>>, t: Turn, lim: Limits,
                      rest: seq<Op>)
    ensures var done := Finished(c, t, lim.maxHistory);
      Run(State([Tagged(id, c), Tagged(id, copy)], map[id := l], memory), lim,
          [FinishTurn(0, t)] + ([Save(0, true)] + rest))
        == Run(State([Tagged(id, done), Tagged(id, copy)], map[id := l], memory[id := done.history]), lim, rest)
  {
    var s, done := State([Tagged(id, c), Tagged(id, copy)], map[id := l], memory), Finished(c, t, lim.maxHistory);
    var both := [Tagged(id, done), Tagged(id, copy)];
    assert s.objects[0 := Tagged(id, done)] == both;
    RunCons(s, lim, FinishTurn(0, t), [Save(0, true)] + rest);
    RunCons(State(both, s.sessions, memory), lim, Save(0, true), rest);
  }

  /** and the second sweep saves the other copy over it. */
  lemma SweptOver(objects: seq<Tagged<Chat>>, id: string, l: Live, memory: map<string, seq<Message>>, lim: Limits,
                  now: int)
    requires l.slot < |objects| && objects[l.slot].item.history != [] && Expired(l, lim, now)
    ensures Run(State(objects, map[id := l], memory), lim, [Sweep(now, {})])
         == State(objects, map[], memory[id := objects[l.slot].item.history])
  {
    SweepOfOne(objects, id, l, memory, lim, now);
    LastOp(State(objects, map[id := l], memory), lim, Sweep(now, {}));
  }

  lemma EndedSavedAndSweptOver(c: Chat, copy: Chat, id: string, now: int, memory: map<string, seq<Message>>, t: Turn,
                               lim: Limits, later: int)
    requires copy.history != [] && later - now > lim.ttl && id in memory && memory[id] == copy.history
    ensures Run(State([Tagged(id, c), Tagged(id, copy)], map[id := Live(1, now)], memory), lim,
                [FinishTurn(0, t)] + ([Save(0, true)] + [Sweep(later, {})]))
         == State([Tagged(id, Finished(c, t, lim.maxHistory)), Tagged(id, copy)], map[], memory)
  {
    var done := Finished(c, t, lim.maxHistory);
    EndedAndSaved(c, copy, id, Live(1, now), memory, t, lim, [Sweep(later, {})]);
    SweptOver([Tagged(id, done), Tagged(id, copy)], id, Live(1, now), memory[id := done.history], lim, later);
    assert memory[id := done.history][id := copy.history] == memory;
  }

  /** So the turn is lost, whatever it was, though it completed and was saved: its session was dropped while
      the reply was generated and fetched again, and the drop of the other copy saved over it. */
  lemma OverlappingTurnsLose(c: Chat, id: string, memory: map<string, seq<Message>>, t: Turn, lim: Limits, last: int,
                             now: int, later: int)
    requires 0 < |c.history| <= lim.maxHistory && lim.maxSessions > 0
    requires now - last > lim.ttl && later - now > lim.ttl
    ensures var s := State([Tagged(id, c)], map[id := Live(0, last)], memory);
            var after := Run(s, lim, Overlap(id, t, now, later));
      after.sessions == map[] && after.memory == memory[id := c.history]
  {
    SweptAndBack(c, id, memory, lim, last, now, [FinishTurn(0, t)] + ([Save(0, true)] + [Sweep(later, {})]));
    EndedSavedAndSweptOver(c, Forgotten(c), id, now, memory[id := c.history], t, lim, later);
  }

  lemma LastOp(s: State, lim: Limits, op: Op)
    ensures Run(s, lim, [op]) == Step(s, lim, op)
  {
    assert [op][1..] == [];
  }

  // ---------- when the lost mark matters ----------

  ghost predicate SameHistory(c: Chat, d: Chat, turns: seq<Turn>, max: nat)
  {
    TakeTurns(c, turns, max).history == TakeTurns(d, turns, max).history
  }

  lemma {:induction false} NothingKept(c: Chat, turns: seq<Turn>)
    requires c.history == []
    ensures TakeTurns(c, turns, 0).history == []
    decreases |turns|
  {
    if turns != [] { NothingKept(TakeTurn(c, turns[0], 0), turns[1..]); }
  }

  /** A prefix tells a marked chat from one that is not. */
  lemma PrefixTells(marked: Chat, other: Chat, max: nat)
    requires marked.pending && !other.pending && max > 0
    ensures exists turns :: !SameHistory(other, marked, turns, max)
  {
    assert Trim("a") == "a" && Trim("b") == "b";
    var prefix := if other.history != [] && other.history[|other.history| - 1] == Heard("a") then "b" else "a";
    var t := Turn("", Some(prefix), [], "", false, false);
    HeardIsLast(marked, t, max);
    assert TakeTurns(marked, [t], max) == TakeTurns(TakeTurn(marked, t, max), [], max) == TakeTurn(marked, t, max);
    assert TakeTurns(other, [t], max) == TakeTurns(TakeTurn(other, t, max), [], max) == other;
    assert !SameHistory(other, marked, [t], max);
  }

  /** A drop whose save succeeds is invisible to every later course of a conversation if and only if there
      is no room for history at all, or no reply was marked and no emptied history hides a saved one. */
  lemma EvictionInvisibleIff(c: Chat, saved: Option<seq<Message>>, max: nat)
    requires |c.history| <= max
    ensures var back := View(After(Mine([c], Some(0), saved), Dropped(true), max), max);
      (forall turns :: SameHistory(back, c, turns, max))
        <==> max == 0 || (!c.pending && (c.history != [] || Restored(saved, max) == []))
  {
    var back := View(After(Mine([c], Some(0), saved), Dropped(true), max), max);
    RestoreShort(c.history, max);
    if max == 0 {
      if saved.Some? { RestoreNothing(saved.value); }
      forall turns ensures SameHistory(back, c, turns, max) {
        NothingKept(back, turns);
        NothingKept(c, turns);
      }
    } else if c.pending {
      PrefixTells(c, back, max);
    } else if c.history != [] || Restored(saved, max) == [] {
      assert back == c;
    } else {
      assert !SameHistory(back, c, [], max);
    }
  }
}
