/** Room permissions: the relation tuples, the permissions derived from them, and the decision cache
    with its per-room index. */
module RoomAuthz {
  import opened Prelude

  /** A relation tuple: role, room, user. */
  type Tuple = (string, string, string)

  const ROLES: set<string> := {"host", "cohost", "speaker", "listener", "muted"}

  const PERMISSIONS: set<string> :=
    {"member", "edit_room", "transfer_host", "manage_ai", "kick", "mod_mic", "speak", "hand_raise", "listen", "invite"}

  predicate Has(tuples: set<Tuple>, role: string, room: string, user: string) { (role, room, user) in tuples }

  predicate Member(tuples: set<Tuple>, room: string, user: string)
  {
    Has(tuples, "host", room, user) || Has(tuples, "cohost", room, user)
    || Has(tuples, "speaker", room, user) || Has(tuples, "listener", room, user)
  }

  /** The permission expressions of the schema. */
  predicate Check(tuples: set<Tuple>, permission: string, room: string, user: string)
  {
    if permission in {"edit_room", "transfer_host"} then Has(tuples, "host", room, user)
    else if permission in {"manage_ai", "kick", "mod_mic"} then
      Has(tuples, "host", room, user) || Has(tuples, "cohost", room, user)
    else if permission == "speak" then
      && (Has(tuples, "host", room, user) || Has(tuples, "cohost", room, user) || Has(tuples, "speaker", room, user))
      && !Has(tuples, "muted", room, user)
    else permission in PERMISSIONS && Member(tuples, room, user)
  }

  // ---------- the cache ----------

  datatype Decision = Decision(allowed: bool, expires: int)

  datatype Cache = Cache(lru: map<string, Decision>, idx: map<string, set<string>>)

  function Key(permission: string, room: string, user: string): string { permission + "|" + room + "|" + user }

  function Get(c: Cache, key: string, now: int): Option<bool>
  {
    if key in c.lru && !(now > c.lru[key].expires) then Some(c.lru[key].allowed) else None
  }

  /** Adds a decision; whatever else the cache evicts to make room is up to it. */
  function Put(c: Cache, key: string, room: string, allowed: bool, expires: int, evicted: set<string>): Cache
  {
    Cache((c.lru - evicted)[key := Decision(allowed, expires)],
          c.idx[room := (if room in c.idx then c.idx[room] else {}) + {key}])
  }

  function InvalidateRoom(c: Cache, room: string): Cache
  {
    Cache(c.lru - (if room in c.idx then c.idx[room] else {}), c.idx - {room})
  }

  class CheckCache {
    const ttl: int
    var lru: map<string, Decision>
    var idx: map<string, set<string>>

    function Model(): Cache
      reads this
    {
      Cache(lru, idx)
    }

    constructor (ttl: int)
      ensures this.ttl == ttl && Model() == Cache(map[], map[])
    {
      this.ttl, lru, idx := ttl, map[], map[];
    }

    method Fetch(key: string, now: int) returns (r: Option<bool>)
      ensures r == Get(Model(), key, now)
    {
      if key !in lru {
        return None;
      }
      var e := lru[key];
      if now > e.expires {
        return None;
      }
      r := Some(e.allowed);
    }

    method Store(key: string, room: string, allowed: bool, now: int, evicted: set<string>)
      modifies this
      ensures Model() == Put(old(Model()), key, room, allowed, now + ttl, evicted)
    {
      lru := (lru - evicted)[key := Decision(allowed, now + ttl)];
      var keys := {};
      if room in idx {
        keys := idx[room];
      }
      idx := idx[room := keys + {key}];
    }

    /** Takes the room's keys out of the index, then each of them out of the cache. */
    method Invalidate(room: string)
      modifies this
      ensures Model() == InvalidateRoom(old(Model()), room)
    {
      var keys := if room in idx then idx[room] else {};
      idx := idx - {room};
      var rest := keys;
      while rest != {}
        invariant rest <= keys && idx == old(idx) - {room}
        invariant lru == old(lru) - (keys - rest)
        decreases |rest|
      {
        var key :| key in rest;
        lru := lru - {key};
        rest := rest - {key};
      }
    }
  }

  // ---------- the client ----------

  datatype World = World(tuples: set<Tuple>, cache: Cache)

  const EMPTY: World := World({}, Cache(map[], map[]))

  datatype Refused = Refused

  /** Consults the cache first; asks the authority, and remembers its answer, only on a miss. */
  function Can(w: World, ttl: int, permission: string, room: string, user: string, now: int, evicted: set<string>)
    : (World, Result<bool, Refused>)
  {
    var key := Key(permission, room, user);
    match Get(w.cache, key, now)
    case Some(allowed) => (w, Ok(allowed))
    case None =>
      if permission !in PERMISSIONS then (w, Err(Refused))
      else
        var allowed := Check(w.tuples, permission, room, user);
        (w.(cache := Put(w.cache, key, room, allowed, now + ttl, evicted)), Ok(allowed))
  }

  function Assign(w: World, role: string, room: string, user: string): World
  {
    if role !in ROLES then w
    else World(w.tuples + {(role, room, user)}, InvalidateRoom(w.cache, room))
  }

  function Remove(w: World, role: string, room: string, user: string): World
  {
    if role !in ROLES then w
    else World(w.tuples - {(role, room, user)}, InvalidateRoom(w.cache, room))
  }

  /** One request deletes the old host and writes the new; a hand-over to oneself only writes. */
  function TransferHost(w: World, room: string, from: string, to: string): World
  {
    var kept := if from == to then w.tuples else w.tuples - {("host", room, from)};
    World(kept + {("host", room, to)}, InvalidateRoom(w.cache, room))
  }

  class Client {
    const cache: CheckCache
    var tuples: set<Tuple>  // what the authority stores

    function Model(): World
      reads this, cache
    {
      World(tuples, cache.Model())
    }

    constructor (ttl: int)
      ensures Model() == EMPTY && fresh(cache) && cache.ttl == ttl
    {
      cache := new CheckCache(ttl);
      tuples := {};
    }

    method MayDo(permission: string, room: string, user: string, now: int, evicted: set<string>)
      returns (answer: Result<bool, Refused>)
      modifies cache
      ensures (Model(), answer) == Can(old(Model()), cache.ttl, permission, room, user, now, evicted)
    {
      var key := permission + "|" + room + "|" + user;
      var hit := cache.Fetch(key, now);
      if hit.Some? {
        return Ok(hit.value);
      }
      if permission !in PERMISSIONS {
        return Err(Refused);
      }
      var allowed := Check(tuples, permission, room, user);
      cache.Store(key, room, allowed, now, evicted);
      answer := Ok(allowed);
    }

    method AssignRoomRole(role: string, room: string, user: string)
      modifies this, cache
      ensures Model() == Assign(old(Model()), role, room, user)
    {
      if role in ROLES {
        tuples := tuples + {(role, room, user)};
        cache.Invalidate(room);
      }
    }

    method RemoveRoomRole(role: string, room: string, user: string)
      modifies this, cache
      ensures Model() == Remove(old(Model()), role, room, user)
    {
      if role in ROLES {
        tuples := tuples - {(role, room, user)};
        cache.Invalidate(room);
      }
    }

    method Transfer(room: string, from: string, to: string)
      modifies this, cache
      ensures Model() == TransferHost(old(Model()), room, from, to)
    {
      var updates := [(false, from), (true, to)];
      if from == to {
        updates := updates[1..];
      }
      var k := 0;
      while k < |updates|
        invariant 0 <= k <= |updates|
        invariant cache.Model() == old(cache.Model())
        invariant tuples == if k == 0 then old(tuples)
                            else if k < |updates| then old(tuples) - {("host", room, from)}
                            else TransferHost(old(Model()), room, from, to).tuples
      {
        var t := ("host", room, updates[k].1);
        tuples := if updates[k].0 then tuples + {t} else tuples - {t};
        k := k + 1;
      }
      cache.Invalidate(room);
    }
  }
}
