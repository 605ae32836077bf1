/** The pool of conversations: a bounded number live in memory, idle ones are saved and dropped, and a
    dropped one is restored when its id comes back. A turn holds on to the session it looked up; while its
    reply is generated that session may leave the pool, and another may take its id. */
module SessionPool {
  import opened Prelude
  import opened ChatHistory
  import opened Tags

  /** A pool entry: which session object, and when it was last active. */
  datatype Live = Live(slot: nat, lastActive: int)

  /** Every session object ever made, tagged with its id; the pool; the store. */
  datatype State = State(objects: seq<Tagged<Chat>>, sessions: map<string, Live>, memory: map<string, seq<Message>>)

  datatype Limits = Limits(maxSessions: int, maxHistory: nat, ttl: int)

  /** What the memory store refuses to do: saving some conversations, loading some. */
  datatype Faults = Faults(unsaved: set<string>, unreadable: set<string>)

  predicate Expired(l: Live, lim: Limits, now: int) { now - l.lastActive > lim.ttl }

  /** Saved messages put back one by one into a bounded history. */
  function Restore(messages: seq<Message>, max: nat): seq<Message>
  {
    if messages == [] then []
    else Append(Restore(messages[..|messages| - 1], max), messages[|messages| - 1], max)
  }

  function Saved(s: State, lim: Limits, id: string): seq<Message>
  {
    if id in s.memory then Restore(s.memory[id], lim.maxHistory) else []
  }

  function ChatOf(s: State, k: nat): Chat { if k < |s.objects| then s.objects[k].item else NEW_CHAT }

  function SetChat(s: State, k: nat, c: Chat): State
  {
    if k < |s.objects| then s.(objects := s.objects[k := s.objects[k].(item := c)]) else s
  }

  /** Whether a session is saved when it is dropped. */
  predicate Savable(s: State, id: string, failing: set<string>)
  {
    id in s.sessions && id !in failing && ChatOf(s, s.sessions[id].slot).history != []
  }

  /** Drops these sessions, saving those with a history unless saving fails. */
  function DropAll(s: State, ids: set<string>, failing: set<string>): State
  {
    State(s.objects, s.sessions - ids,
          map id | id in s.memory.Keys + ids && (id in s.memory || Savable(s, id, failing)) ::
            if id in ids && Savable(s, id, failing) then ChatOf(s, s.sessions[id].slot).history else s.memory[id])
  }

  function ExpiredIds(s: State, lim: Limits, now: int): set<string>
  {
    set id | id in s.sessions && Expired(s.sessions[id], lim, now)
  }

  function Evict(s: State, lim: Limits, now: int, failing: set<string>): State
  {
    DropAll(s, ExpiredIds(s, lim, now), failing)
  }

  function MadeRoom(s: State, lim: Limits, now: int, failing: set<string>): State
  {
    if |s.sessions| >= lim.maxSessions then Evict(s, lim, now, failing) else s
  }

  function Touched(s: State, id: string, now: int): State
    requires id in s.sessions
  {
    s.(sessions := s.sessions[id := s.sessions[id].(lastActive := now)])
  }

  /** A new session in the pool. */
  function Created(s: State, id: string, c: Chat, now: int): State
  {
    s.(objects := s.objects + [Tagged(id, c)], sessions := s.sessions[id := Live(|s.objects|, now)])
  }

  /** The pool after a lookup, and the session it answers with. A history that cannot be loaded is given up. */
  function GetOrCreate(s: State, lim: Limits, id: string, now: int, faults: Faults): (State, Option<nat>)
  {
    if id in s.sessions then
      (Touched(s, id, now), Some(s.sessions[id].slot))
    else
      var room := MadeRoom(s, lim, now, faults.unsaved);
      if |room.sessions| >= lim.maxSessions then (room, None)
      else
        var history := if id in faults.unreadable then [] else Saved(room, lim, id);
        (Created(room, id, Chat(history, false), now), Some(|room.objects|))
  }

  /** Closing a session takes it out of the pool; */
  function TakeOut(s: State, id: string): State { s.(sessions := s.sessions - {id}) }

  /** its history, if it has one, is saved afterwards. */
  function Keep(s: State, k: nat, saves: bool): State
  {
    if saves && ChatOf(s, k).history != [] then Store(s, k, saves) else s
  }

  // ---------- the parts of a turn ----------

  function Begin(s: State, lim: Limits, k: nat, prefix: Option<string>): State
  {
    SetChat(s, k, ApplyPrefix(ChatOf(s, k), prefix, lim.maxHistory))
  }

  function Finish(s: State, lim: Limits, k: nat, t: Turn): State
  {
    SetChat(s, k, Finished(ChatOf(s, k), t, lim.maxHistory))
  }

  /** The saving of a history, scheduled when a turn has completed. */
  function Store(s: State, k: nat, saves: bool): State
  {
    if saves && k < |s.objects| then s.(memory := s.memory[s.objects[k].id := s.objects[k].item.history]) else s
  }

  /** A message with nobody in between: look the session up, sweep the pool, take the turn, save. */
  function Serve(s: State, lim: Limits, id: string, t: Turn, now: int, later: int, faults: Faults): (State, bool)
  {
    var (found, k) := GetOrCreate(s, lim, id, now, faults);
    if k.None? then (found, false)
    else
      var swept := Evict(found, lim, later, faults.unsaved);
      var done := Finish(Begin(swept, lim, k.value, t.playedPrefix), lim, k.value, t);
      (Store(done, k.value, t.completed && id !in faults.unsaved), true)
  }

  lemma SameSize<K, V, W>(m: map<K, V>, n: map<K, W>)
    requires m.Keys == n.Keys
    ensures |m| == |n|
  {
    assert |m| == |m.Keys| && |n| == |n.Keys|;
  }

  lemma DropNone(s: State, failing: set<string>)
    ensures DropAll(s, {}, failing) == s
  {
    assert DropAll(s, {}, failing).memory == s.memory;
  }

  lemma DropMemory(s: State, ids: set<string>, failing: set<string>, k: string)
    ensures var m := DropAll(s, ids, failing).memory;
      && (k in m <==> k in s.memory || (k in ids && Savable(s, k, failing)))
      && (k in m ==> m[k] == if k in ids && Savable(s, k, failing) then ChatOf(s, s.sessions[k].slot).history
                             else s.memory[k])
  {
  }

  /** Dropping one session is taking it out and keeping its history. */
  lemma DropIsTakeAndKeep(s: State, id: string, fails: bool)
    requires id in s.sessions && s.sessions[id].slot < |s.objects| && s.objects[s.sessions[id].slot].id == id
    ensures DropAll(s, {id}, if fails then {id} else {}) == Keep(TakeOut(s, id), s.sessions[id].slot, !fails)
  {
    var failing: set<string> := if fails then {id} else {};
    var a, b := DropAll(s, {id}, failing).memory, Keep(TakeOut(s, id), s.sessions[id].slot, !fails).memory;
    forall k ensures (k in a <==> k in b) && (k in a ==> a[k] == b[k]) {
      DropMemory(s, {id}, failing, k);
    }
    assert a == b;
  }

  lemma DropOneMore(s: State, ids: set<string>, id: string, failing: set<string>)
    requires id in s.sessions && id !in ids
    ensures id in DropAll(s, ids, failing).sessions
    ensures DropAll(DropAll(s, ids, failing), {id}, if id in failing then {id} else {})
         == DropAll(s, ids + {id}, failing)
  {
    var fails: set<string> := if id in failing then {id} else {};
    var some, all := DropAll(s, ids, failing), DropAll(s, ids + {id}, failing);
    var one := DropAll(some, {id}, fails);
    assert one.sessions == all.sessions;
    forall k ensures (k in one.memory <==> k in all.memory) && (k in one.memory ==> one.memory[k] == all.memory[k]) {
      DropMemory(s, ids, failing, k);
      DropMemory(s, ids + {id}, failing, k);
      DropMemory(some, {id}, fails, k);
    }
    assert one.memory == all.memory;
  }

  // ---------- the pool as an object ----------

  class Pool {
    const limits: Limits
    var sessions: map<string, Session>
    var memory: map<string, seq<Message>>
    ghost var objects: seq<Session>       // every session ever made here
    ghost var model: State                // what all of it amounts to

    ghost predicate Valid()
      reads this, objects
    {
      && |model.objects| == |objects|
      && (forall i, j | 0 <= i < j < |objects| :: objects[i] != objects[j])
      && (forall k | 0 <= k < |objects| ::
            && model.objects[k] == Tagged(objects[k].id, objects[k].Model())
            && objects[k].maxHistory == limits.maxHistory)
      && model.sessions.Keys == sessions.Keys
      && (forall id | id in sessions ::
            && model.sessions[id].slot < |objects| && objects[model.sessions[id].slot] == sessions[id]
            && sessions[id].id == id && sessions[id].lastActive == model.sessions[id].lastActive)
      && model.memory == memory
    }

    constructor (limits: Limits, memory: map<string, seq<Message>>)
      ensures Valid() && this.limits == limits && model == State([], map[], memory)
    {
      this.limits, sessions, this.memory, objects := limits, map[], memory, [];
      model := State([], map[], memory);
    }

    method FindExpired(now: int) returns (ids: set<string>)
      requires Valid()
      ensures ids == ExpiredIds(model, limits, now)
    {
      ids := set id | id in sessions && now - sessions[id].lastActive > limits.ttl;
    }

    /** One more of the sessions a sweep drops; start and done say how far it has come. */
    method DropNext(ghost start: State, ghost done: set<string>, id: string, failing: set<string>)
      requires Valid() && model == DropAll(start, done, failing) && id in start.sessions && id !in done
      modifies this`sessions, this`memory, this`model
      ensures Valid() && model == DropAll(start, done + {id}, failing)
    {
      DropOneMore(start, done, id, failing);
      Drop(id, id in failing);
    }

    method EvictExpired(now: int, failing: set<string>)
      requires Valid()
      modifies this`sessions, this`memory, this`model
      ensures Valid() && model == Evict(old(model), limits, now, failing)
    {
      ghost var start, done: set<string> := model, {};
      var rest := FindExpired(now);
      DropNone(start, failing);
      while rest != {}
        invariant Valid() && done !! rest && done + rest == ExpiredIds(start, limits, now)
        invariant model == DropAll(start, done, failing)
        decreases rest
      {
        var id :| id in rest;
        DropNext(start, done, id, failing);
        rest, done := rest - {id}, done + {id};
      }
      assert done == done + rest;
    }

    method TakeSession(id: string) returns (session: Session)
      requires Valid() && id in sessions
      modifies this`sessions, this`model
      ensures Valid() && model == TakeOut(old(model), id) && session == old(sessions[id])
    {
      session := sessions[id];
      sessions, model := sessions - {id}, TakeOut(model, id);
    }

    /** Saves a session's history if it has one. */
    method KeepSession(session: Session, ghost k: nat, fails: bool)
      requires Valid() && k < |objects| && objects[k] == session
      modifies this`memory, this`model
      ensures Valid() && model == Keep(old(model), k, !fails)
    {
      if session.history != [] && !fails {
        memory := memory[session.id := session.history];
      }
      model := Keep(model, k, !fails);
    }

    /** Takes one session out of the pool, saving its history if it has one. */
    method Drop(id: string, fails: bool)
      requires Valid() && id in sessions
      modifies this`sessions, this`memory, this`model
      ensures Valid() && model == DropAll(old(model), {id}, if fails then {id} else {})
    {
      ghost var k := model.sessions[id].slot;
      DropIsTakeAndKeep(model, id, fails);
      var session := TakeSession(id);
      KeepSession(session, k, fails);
    }

    /** A session of its own, with whatever could be restored of its history. */
    method Restored(id: string, now: int, readable: bool) returns (session: Session)
      requires Valid()
      ensures Valid() && fresh(session) && session.id == id && session.maxHistory == limits.maxHistory
      ensures session.lastActive == now
      ensures session.Model() == Chat(if readable then Saved(model, limits, id) else [], false)
    {
      session := new Session(id, limits.maxHistory, now);
      if readable && id in memory {
        var saved := memory[id];
        for k := 0 to |saved|
          invariant session.history == Restore(saved[..k], limits.maxHistory)
          invariant !session.pendingPlayedPrefix && session.lastActive == now
          invariant Valid()
        {
          assert saved[..k + 1][..k] == saved[..k];
          session.AddMessage(saved[k]);
        }
        assert saved[..|saved|] == saved;
      }
    }

    method Register(session: Session)
      requires Valid() && session.id !in sessions && session !in objects && session.maxHistory == limits.maxHistory
      modifies this`sessions, this`model, this`objects
      ensures Valid() && objects == old(objects) + [session] && sessions == old(sessions)[session.id := session]
      ensures model == Created(old(model), session.id, session.Model(), session.lastActive)
    {
      model := Created(model, session.id, session.Model(), session.lastActive);
      sessions, objects := sessions[session.id := session], objects + [session];
    }

    /** Sweeps the pool if it is full; is there room now? */
    method MakeRoom(now: int, failing: set<string>) returns (ok: bool)
      requires Valid()
      modifies this`sessions, this`memory, this`model
      ensures Valid() && model == MadeRoom(old(model), limits, now, failing)
      ensures ok == (|model.sessions| < limits.maxSessions)
    {
      SameSize(model.sessions, sessions);
      if |sessions| >= limits.maxSessions {
        EvictExpired(now, failing);
      }
      SameSize(model.sessions, sessions);
      ok := |sessions| < limits.maxSessions;
    }

    method Touch(id: string, session: Session, now: int)
      requires Valid() && id in sessions && sessions[id] == session
      modifies session`lastActive, this`model
      ensures Valid() && model == Touched(old(model), id, now)
    {
      session.Touch(now);
      model := Touched(model, id, now);
    }

    /** The session of this id, if the pool has it or has room for it. */
    method Lookup(id: string, now: int, faults: Faults) returns (session: Session?)
      requires Valid()
      modifies this`sessions, this`memory, this`model, this`objects, objects
      ensures Valid() && (session != null ==> id in sessions && sessions[id] == session)
      ensures (model, if session == null then None else Some(model.sessions[id].slot))
           == GetOrCreate(old(model), limits, id, now, faults)
      ensures session != null ==> session in old(objects) || fresh(session)
    {
      if id in sessions {
        assert objects[model.sessions[id].slot] in objects;
        Touch(id, sessions[id], now);
        return sessions[id];
      }
      var ok := MakeRoom(now, faults.unsaved);
      if !ok {
        return null;
      }
      session := Restored(id, now, id !in faults.unreadable);
      Register(session);
    }

    method CloseSession(id: string, fails: bool) returns (closed: bool)
      requires Valid()
      modifies this`sessions, this`memory, this`model
      ensures Valid() && closed == (id in old(sessions))
      ensures model == if closed then Keep(TakeOut(old(model), id), old(model).sessions[id].slot, !fails)
                       else old(model)
    {
      if id !in sessions {
        return false;
      }
      ghost var k := model.sessions[id].slot;
      var session := TakeSession(id);
      KeepSession(session, k, fails);
      return true;
    }

    // The parts of a turn on a session looked up before; k says where it stands.

    method BeginTurn(session: Session, ghost k: nat, prefix: Option<string>)
      requires Valid() && k < |objects| && objects[k] == session
      modifies session`history, session`pendingPlayedPrefix, this`model
      ensures Valid() && model == Begin(old(model), limits, k, prefix)
    {
      session.ApplyPlayedPrefix(prefix);
      model := Begin(model, limits, k, prefix);
    }

    method FinishTurn(session: Session, ghost k: nat, t: Turn)
      requires Valid() && k < |objects| && objects[k] == session
      modifies session`history, session`pendingPlayedPrefix, this`model
      ensures Valid() && model == Finish(old(model), limits, k, t)
    {
      session.WriteExchange(t);
      model := Finish(model, limits, k, t);
    }

    method SaveMemory(session: Session, ghost k: nat, fails: bool)
      requires Valid() && k < |objects| && objects[k] == session
      modifies this`memory, this`model
      ensures Valid() && model == Store(old(model), k, !fails)
    {
      if !fails {
        memory := memory[session.id := session.history];
      }
      model := Store(model, k, !fails);
    }

    method HandleMessage(id: string, t: Turn, now: int, later: int, faults: Faults) returns (ok: bool)
      requires Valid()
      modifies this`sessions, this`memory, this`model, this`objects, objects
      ensures Valid() && (model, ok) == Serve(old(model), limits, id, t, now, later, faults)
    {
      var session := Lookup(id, now, faults);
      if session == null {
        return false;
      }
      ghost var k := model.sessions[id].slot;
      EvictExpired(later, faults.unsaved);
      BeginTurn(session, k, t.playedPrefix);
      FinishTurn(session, k, t);
      if t.completed {
        SaveMemory(session, k, id in faults.unsaved);
      }
      return true;
    }
  }

  // ---------- bounds and answers ----------

  lemma DropAllShrinks(s: State, ids: set<string>, failing: set<string>)
    ensures |DropAll(s, ids, failing).sessions| <= |s.sessions|
  {
    var left := s.sessions - ids;
    assert left.Keys <= s.sessions.Keys;
    SubsetSize(left.Keys, s.sessions.Keys);
  }

  lemma {:induction false} SubsetSize<T>(a: set<T>, b: set<T>)
    requires a <= b
    ensures |a| <= |b|
  {
    assert b == a + (b - a);
  }

  /** No lookup takes the pool beyond its bound. */
  lemma PoolStaysBounded(s: State, lim: Limits, id: string, now: int, faults: Faults)
    requires |s.sessions| <= lim.maxSessions
    ensures |GetOrCreate(s, lim, id, now, faults).0.sessions| <= lim.maxSessions
  {
    if id in s.sessions {
      assert GetOrCreate(s, lim, id, now, faults).0.sessions.Keys == s.sessions.Keys;
    } else {
      DropAllShrinks(s, ExpiredIds(s, lim, now), faults.unsaved);
    }
  }

  /** A message is turned away exactly when its session is not live and the sessions that are not yet
      expired fill the pool. */
  lemma ServedIff(s: State, lim: Limits, id: string, now: int, faults: Faults)
    requires |s.sessions| <= lim.maxSessions
    ensures GetOrCreate(s, lim, id, now, faults).1.Some? <==>
            id in s.sessions || |s.sessions.Keys - ExpiredIds(s, lim, now)| < lim.maxSessions
  {
    var left := s.sessions - ExpiredIds(s, lim, now);
    assert left.Keys == s.sessions.Keys - ExpiredIds(s, lim, now);
    SubsetSize(left.Keys, s.sessions.Keys);
  }
}
