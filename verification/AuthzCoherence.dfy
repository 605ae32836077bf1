/** When a cached decision is the decision. */
module AuthzCoherence {
  import opened Prelude
  import opened RoomAuthz

  datatype Op =
    | AskCan(permission: string, room: string, user: string, now: int, evicted: set<string>)
    | DoAssign(role: string, room: string, user: string)
    | DoRemove(role: string, room: string, user: string)
    | DoTransfer(room: string, from: string, to: string)

  function Step(w: World, ttl: int, op: Op): World
  {
    match op
    case AskCan(permission, room, user, now, evicted) => Can(w, ttl, permission, room, user, now, evicted).0
    case DoAssign(role, room, user) => Assign(w, role, room, user)
    case DoRemove(role, room, user) => Remove(w, role, room, user)
    case DoTransfer(room, from, to) => TransferHost(w, room, from, to)
  }

  function Run(w: World, ttl: int, ops: seq<Op>): World
    decreases |ops|
  {
    if ops == [] then w else Run(Step(w, ttl, ops[0]), ttl, ops[1..])
  }

  /** Questions are asked about known permissions and rooms of the set; writes may be about any. */
  predicate Within(rooms: set<string>, ops: seq<Op>)
  {
    forall k | 0 <= k < |ops| :: ops[k].AskCan? ==> ops[k].permission in PERMISSIONS && ops[k].room in rooms
  }

  /** No room of the set, followed by the separator, begins another. */
  predicate SeparatorFree(rooms: set<string>)
  {
    forall a, b | a in rooms && b in rooms :: !(a + "|" <= b)
  }

  // ---------- keys ----------

  lemma PrefixCarriesSeparator(a: string, b: string)
    requires a + "|" <= b
    ensures '|' in b
  {
    assert b[|a|] == (a + "|")[|a|];
  }

  lemma PermissionsHaveNoSeparator(p: string)
    requires p in PERMISSIONS
    ensures '|' !in p
  {
  }

  lemma KnownPermissionsDoNotClash(p: string, q: string)
    requires p in PERMISSIONS && q in PERMISSIONS
    ensures !(p + "|" <= q)
  {
    PermissionsHaveNoSeparator(q);
    if p + "|" <= q { PrefixCarriesSeparator(p, q); }
  }

  lemma EarlierSeparator(a: string, x: string, b: string, y: string)
    requires a + "|" + x == b + "|" + y && |a| < |b|
    ensures a + "|" <= b
  {
    var s := a + "|" + x;
    assert s[..|a| + 1] == a + "|";
    assert s[..|b|] == b;
  }

  /** Two names without a clash are told apart by what follows them. */
  lemma SplitAtSeparator(a: string, x: string, b: string, y: string)
    requires a + "|" + x == b + "|" + y
    requires !(a + "|" <= b) && !(b + "|" <= a)
    ensures a == b && x == y
  {
    var s := a + "|" + x;
    assert s[..|a|] == a && s[|a| + 1..] == x;
    assert s[..|b|] == b && s[|b| + 1..] == y;
    if |a| < |b| {
      EarlierSeparator(a, x, b, y);
    } else if |b| < |a| {
      EarlierSeparator(b, y, a, x);
    }
  }

  lemma KeysInjective(rooms: set<string>, p: string, r: string, u: string, p': string, r': string, u': string)
    requires SeparatorFree(rooms) && r in rooms && r' in rooms && p in PERMISSIONS && p' in PERMISSIONS
    requires Key(p, r, u) == Key(p', r', u')
    ensures p == p' && r == r' && u == u'
  {
    KnownPermissionsDoNotClash(p, p');
    KnownPermissionsDoNotClash(p', p);
    assert Key(p, r, u) == p + "|" + (r + "|" + u) && Key(p', r', u') == p' + "|" + (r' + "|" + u');
    SplitAtSeparator(p, r + "|" + u, p', r' + "|" + u');
    SplitAtSeparator(r, u, r', u');
  }

  // ---------- coherence ----------

  /** Every cached decision, expired or not, is what a direct check would answer now, and its room's
      index knows its key. */
  ghost predicate Coherent(rooms: set<string>, w: World)
  {
    forall p, r, u | p in PERMISSIONS && r in rooms && Key(p, r, u) in w.cache.lru ::
      && w.cache.lru[Key(p, r, u)].allowed == Check(w.tuples, p, r, u)
      && r in w.cache.idx && Key(p, r, u) in w.cache.idx[r]
  }

  lemma CanKeepsCoherent(rooms: set<string>, w: World, ttl: int, p: string, r: string, u: string, now: int,
                         evicted: set<string>)
    requires SeparatorFree(rooms) && Coherent(rooms, w) && p in PERMISSIONS && r in rooms
    ensures Coherent(rooms, Can(w, ttl, p, r, u, now, evicted).0)
    ensures Can(w, ttl, p, r, u, now, evicted).1 == Ok(Check(w.tuples, p, r, u))
  {
    var w' := Can(w, ttl, p, r, u, now, evicted).0;
    forall p', r', u' | p' in PERMISSIONS && r' in rooms && Key(p', r', u') in w'.cache.lru
      ensures w'.cache.lru[Key(p', r', u')].allowed == Check(w'.tuples, p', r', u')
      ensures r' in w'.cache.idx && Key(p', r', u') in w'.cache.idx[r']
    {
      if Key(p', r', u') == Key(p, r, u) {
        KeysInjective(rooms, p', r', u', p, r, u);
      }
    }
  }

  /** A write to one room, with that room's decisions forgotten, leaves the others right. */
  lemma WriteKeepsCoherent(rooms: set<string>, w: World, tuples: set<Tuple>, room: string)
    requires Coherent(rooms, w)
    requires forall t: Tuple | t.1 != room :: t in tuples <==> t in w.tuples
    ensures Coherent(rooms, World(tuples, InvalidateRoom(w.cache, room)))
  {
    var w' := World(tuples, InvalidateRoom(w.cache, room));
    forall p, r, u | p in PERMISSIONS && r in rooms && Key(p, r, u) in w'.cache.lru
      ensures w'.cache.lru[Key(p, r, u)].allowed == Check(w'.tuples, p, r, u)
      ensures r in w'.cache.idx && Key(p, r, u) in w'.cache.idx[r]
    {
      assert r != room;
      assert forall role: string :: Has(tuples, role, r, u) == Has(w.tuples, role, r, u);
    }
  }

  lemma StepKeepsCoherent(rooms: set<string>, w: World, ttl: int, op: Op)
    requires SeparatorFree(rooms) && Coherent(rooms, w) && Within(rooms, [op])
    ensures Coherent(rooms, Step(w, ttl, op))
  {
    match op
    case AskCan(permission, room, user, now, evicted) =>
      assert [op][0] == op;
      CanKeepsCoherent(rooms, w, ttl, permission, room, user, now, evicted);
    case DoAssign(role, room, user) => WriteKeepsCoherent(rooms, w, w.tuples + {(role, room, user)}, room);
    case DoRemove(role, room, user) => WriteKeepsCoherent(rooms, w, w.tuples - {(role, room, user)}, room);
    case DoTransfer(room, from, to) => WriteKeepsCoherent(rooms, w, TransferHost(w, room, from, to).tuples, room);
  }

  lemma {:induction false} RunKeepsCoherent(rooms: set<string>, w: World, ttl: int, ops: seq<Op>)
    requires SeparatorFree(rooms) && Coherent(rooms, w) && Within(rooms, ops)
    ensures Coherent(rooms, Run(w, ttl, ops))
    decreases |ops|
  {
    if ops != [] {
      assert Within(rooms, [ops[0]]) by { assert [ops[0]][0] == ops[0]; }
      StepKeepsCoherent(rooms, w, ttl, ops[0]);
      assert Within(rooms, ops[1..]) by {
        assert forall k | 0 <= k < |ops[1..]| :: ops[1..][k] == ops[k + 1];
      }
      RunKeepsCoherent(rooms, Step(w, ttl, ops[0]), ttl, ops[1..]);
    }
  }

  /** After the operations, the client answers every question as a direct check would. */
  ghost predicate AnswersRight(rooms: set<string>, ttl: int, ops: seq<Op>)
  {
    forall p, r, u, now, evicted | p in PERMISSIONS && r in rooms ::
      Can(Run(EMPTY, ttl, ops), ttl, p, r, u, now, evicted).1 == Ok(Check(Run(EMPTY, ttl, ops).tuples, p, r, u))
  }

  lemma CoherentRunsAnswerRight(rooms: set<string>, ttl: int, ops: seq<Op>)
    requires SeparatorFree(rooms) && Within(rooms, ops)
    ensures AnswersRight(rooms, ttl, ops)
  {
    RunKeepsCoherent(rooms, EMPTY, ttl, ops);
    var w := Run(EMPTY, ttl, ops);
    forall p, r, u, now, evicted | p in PERMISSIONS && r in rooms
      ensures Can(w, ttl, p, r, u, now, evicted).1 == Ok(Check(w.tuples, p, r, u))
    {
      CanKeepsCoherent(rooms, w, ttl, p, r, u, now, evicted);
    }
  }

  /** Make v a host of the longer room and ask whether v may kick there. */
  function ClashingRun(longer: string, v: string): seq<Op>
  {
    [DoAssign("host", longer, v), AskCan("kick", longer, v, 0, {})]
  }

  /** The same key then answers for another user of the shorter room, who has no role at all: the client
      grants what a direct check denies. */
  lemma ClashMisleads(rooms: set<string>, ttl: int, a: string, b: string, v: string)
    requires a in rooms && b in rooms && a + "|" <= b && ttl >= 0
    ensures Within(rooms, ClashingRun(b, v)) && !AnswersRight(rooms, ttl, ClashingRun(b, v))
    ensures var w := Run(EMPTY, ttl, ClashingRun(b, v)); var u := b[|a| + 1..] + "|" + v;
      && Can(w, ttl, "kick", a, u, 0, {}).1 == Ok(true)
      && !Check(w.tuples, "kick", a, u) && forall role: string :: !Has(w.tuples, role, a, u)
  {
    var ops := ClashingRun(b, v);
    var w1 := Step(EMPTY, ttl, ops[0]);
    var w2 := Step(w1, ttl, ops[1]);
    assert ops[1..] == [ops[1]] && ops[1..][1..] == [];
    assert Run(EMPTY, ttl, ops) == Run(w1, ttl, ops[1..]) == Run(w2, ttl, []) == w2;
    var rest := b[|a| + 1..];
    var u := rest + "|" + v;
    assert b == a + "|" + rest;
    assert Key("kick", a, u) == Key("kick", b, v);
    assert w2.cache.lru[Key("kick", b, v)] == Decision(true, ttl);
    assert Can(w2, ttl, "kick", a, u, 0, {}).1 == Ok(true);
    assert a != b;
    assert !Check(w2.tuples, "kick", a, u);
  }

  /** Whatever the operations, evictions and expiries, the client answers exactly like a direct check
      if and only if no room in use, followed by '|', begins another. Rooms without '|' qualify. */
  lemma CacheCoherentIffSeparatorFree(rooms: set<string>, ttl: int)
    requires ttl >= 0
    ensures (forall ops: seq<Op> | Within(rooms, ops) :: AnswersRight(rooms, ttl, ops)) <==> SeparatorFree(rooms)
  {
    if SeparatorFree(rooms) {
      forall ops: seq<Op> | Within(rooms, ops)
        ensures AnswersRight(rooms, ttl, ops)
      {
        CoherentRunsAnswerRight(rooms, ttl, ops);
      }
    } else {
      var a, b :| a in rooms && b in rooms && a + "|" <= b;
      ClashMisleads(rooms, ttl, a, b, "v");
    }
  }

  lemma PlainRoomsQualify(rooms: set<string>)
    requires forall r | r in rooms :: '|' !in r
    ensures SeparatorFree(rooms)
  {
    forall a, b | a in rooms && b in rooms
      ensures !(a + "|" <= b)
    {
      if a + "|" <= b { PrefixCarriesSeparator(a, b); }
    }
  }

  // ---------- the host ----------

  ghost predicate SoleHost(tuples: set<Tuple>, room: string, h: string)
  {
    forall u: string :: Has(tuples, "host", room, u) <==> u == h
  }

  /** A hand-over keeps a room's host unique exactly when it starts from the host, or goes to the
      host; from anybody else it leaves two. */
  lemma TransferKeepsOneHostIff(w: World, room: string, from: string, to: string, h: string)
    requires SoleHost(w.tuples, room, h)
    ensures (exists k: string :: SoleHost(TransferHost(w, room, from, to).tuples, room, k)) <==> (from == h || to == h)
    ensures from == h ==> SoleHost(TransferHost(w, room, from, to).tuples, room, to)
  {
    var after := TransferHost(w, room, from, to).tuples;
    assert Has(after, "host", room, to);
    assert forall u: string :: Has(after, "host", room, u) <==>
      u == to || (Has(w.tuples, "host", room, u) && (from == to || u != from));
    if from == h || to == h {
      assert SoleHost(after, room, to);
    } else {
      assert Has(after, "host", room, h) by { assert Has(w.tuples, "host", room, h); }
    }
  }
}
