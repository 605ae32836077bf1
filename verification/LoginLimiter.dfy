/** The login-failure limiter and its two implementations: an atomic script over a shared key
    space, and an in-process map that stands in for it. Instants are real numbers; `inclusive`
    says whether the shared store still sees a key at the very instant its lifetime ends. */
module LoginLimiter {
  import opened Prelude

  datatype Conf = Conf(maxFailures: int, window: real, lockTtl: real)

  // ---------- the in-process map ----------

  /** None stands for the zero time, which lies before every window and every call. */
  datatype Entry = Entry(failures: int, firstSeen: Option<real>, unlockedAt: Option<real>)

  const BLANK: Entry := Entry(0, None, None)

  predicate HeldBack(e: Entry, now: real) { e.unlockedAt.Some? && now < e.unlockedAt.value }

  predicate WindowOver(conf: Conf, e: Entry, now: real)
  {
    e.firstSeen.None? || now - e.firstSeen.value > conf.window
  }

  function MemFailed(conf: Conf, e: Entry, now: real): (Entry, bool)
  {
    if HeldBack(e, now) then (e, true)
    else
      var f := if WindowOver(conf, e, now) then Some(now) else e.firstSeen;
      var c := if WindowOver(conf, e, now) then 1 else e.failures + 1;
      if c >= conf.maxFailures then (Entry(0, f, Some(now + conf.lockTtl)), true)
      else (Entry(c, f, e.unlockedAt), false)
  }

  function EntryOf(state: map<string, Entry>, key: string): Entry
  {
    if key in state then state[key] else BLANK
  }

  class MemLoginLimiter {
    const conf: Conf
    var state: map<string, Entry>

    constructor (conf: Conf)
      ensures this.conf == conf && state == map[]
    {
      this.conf, state := conf, map[];
    }

    method Failed(key: string, now: real) returns (locked: bool)
      modifies this
      ensures state == old(state)[key := MemFailed(conf, EntryOf(old(state), key), now).0]
      ensures locked == MemFailed(conf, EntryOf(old(state), key), now).1
    {
      if key !in state {
        state := state[key := BLANK];
      }
      var e := state[key];
      if HeldBack(e, now) {
        return true;
      }
      if WindowOver(conf, e, now) {
        e := e.(failures := 0, firstSeen := Some(now));
      }
      e := e.(failures := e.failures + 1);
      if e.failures >= conf.maxFailures {
        // counting starts afresh once the lock has run out
        state := state[key := e.(unlockedAt := Some(now + conf.lockTtl), failures := 0)];
        return true;
      }
      state := state[key := e];
      return false;
    }

    method Locked(key: string, now: real) returns (locked: bool)
      ensures locked == HeldBack(EntryOf(state, key), now)
    {
      if key !in state {
        return false;
      }
      var e := state[key];
      return e.unlockedAt.Some? && now < e.unlockedAt.value;
    }

    method Reset(key: string)
      modifies this
      ensures state == old(state) - {key}
    {
      state := state - {key};
    }
  }

  // ---------- the shared key space ----------

  datatype Cell = Cell(value: int, deadline: Option<real>)

  type Store = map<string, Cell>

  function FailKey(key: string): string { "authn:limit:fail:" + key }

  function LockKey(key: string): string { "authn:limit:lock:" + key }

  /** No counter key is ever a lock key, and keys of different subjects never meet. */
  lemma KeysApart(a: string, b: string)
    ensures FailKey(a) != LockKey(b)
    ensures FailKey(a) == FailKey(b) ==> a == b
    ensures LockKey(a) == LockKey(b) ==> a == b
  {
    assert FailKey(a)[12] == 'f' && LockKey(b)[12] == 'l';
    assert FailKey(a)[17..] == a && FailKey(b)[17..] == b;
    assert LockKey(a)[17..] == a && LockKey(b)[17..] == b;
  }

  function CellOf(store: Store, key: string): Option<Cell>
  {
    if key in store then Some(store[key]) else None
  }

  predicate Alive(c: Option<Cell>, now: real, inclusive: bool)
  {
    && c.Some?
    && (|| c.value.deadline.None?
        || now < c.value.deadline.value
        || (inclusive && now == c.value.deadline.value))
  }

  /** The script, for one subject: its counter and lock cells before and after, and its answer. */
  function ScriptCells(conf: Conf, fail: Option<Cell>, lock: Option<Cell>, now: real, inclusive: bool)
    : (Option<Cell>, Option<Cell>, bool)
  {
    if Alive(lock, now, inclusive) then (fail, lock, true)
    else
      var c := if Alive(fail, now, inclusive) then fail.value.value + 1 else 1;
      var deadline := if c == 1 then Some(now + conf.window) else fail.value.deadline;
      if c >= conf.maxFailures then (None, Some(Cell(1, Some(now + conf.lockTtl))), true)
      else (Some(Cell(c, deadline)), lock, false)
  }

  function PutCell(store: Store, key: string, c: Option<Cell>): Store
  {
    if c.Some? then store[key := c.value] else store - {key}
  }

  class RedisLoginLimiter {
    const conf: Conf
    const inclusive: bool
    var store: Store

    constructor (conf: Conf, inclusive: bool)
      ensures this.conf == conf && this.inclusive == inclusive && store == map[]
    {
      this.conf, this.inclusive, store := conf, inclusive, map[];
    }

    /** The atomic script: EXISTS, INCR, PEXPIRE on the first failure, SET and DEL at the limit. */
    method Failed(key: string, now: real) returns (locked: bool)
      requires forall k | k in store :: store[k].value >= 1
      modifies this
      ensures var fail, lock := CellOf(old(store), FailKey(key)), CellOf(old(store), LockKey(key));
              var r := ScriptCells(conf, fail, lock, now, inclusive);
              store == PutCell(PutCell(old(store), FailKey(key), r.0), LockKey(key), r.1) && locked == r.2
      ensures forall k | k in store :: store[k].value >= 1
    {
      KeysApart(key, key);
      if Alive(CellOf(store, LockKey(key)), now, inclusive) {
        return true;
      }
      var c := 1;
      if Alive(CellOf(store, FailKey(key)), now, inclusive) {
        c := store[FailKey(key)].value + 1;
        store := store[FailKey(key) := store[FailKey(key)].(value := c)];
      } else {
        store := store[FailKey(key) := Cell(1, None)];
      }
      if c == 1 {
        store := store[FailKey(key) := store[FailKey(key)].(deadline := Some(now + conf.window))];
      }
      ghost var fail, counted := store[FailKey(key)], PutCell(old(store), FailKey(key), Some(store[FailKey(key)]));
      assert store == counted && fail.value == c;
      if c >= conf.maxFailures {
        store := store[LockKey(key) := Cell(1, Some(now + conf.lockTtl))];
        store := store - {FailKey(key)};
        return true;
      }
      return false;
    }

    method Locked(key: string, now: real) returns (locked: bool)
      ensures locked == Alive(CellOf(store, LockKey(key)), now, inclusive)
    {
      locked := Alive(CellOf(store, LockKey(key)), now, inclusive);
    }

    method Reset(key: string)
      modifies this
      ensures store == PutCell(PutCell(old(store), FailKey(key), None), LockKey(key), None)
    {
      store := store - {FailKey(key), LockKey(key)};
    }
  }

  /** A recorded failure answers what the very next question would: whether the subject is locked. */
  lemma FailureTellsTheLock(conf: Conf, e: Entry, fail: Option<Cell>, lock: Option<Cell>, now: real, inclusive: bool)
    requires conf.lockTtl > 0.0
    ensures MemFailed(conf, e, now).1 <==> HeldBack(MemFailed(conf, e, now).0, now)
    ensures var r := ScriptCells(conf, fail, lock, now, inclusive); r.2 <==> Alive(r.1, now, inclusive)
  {
  }

  /** A failure that locks does so for the lock's lifetime, on either side: whoever asks later is told the
      subject is locked exactly until it ends. */
  lemma LockLasts(conf: Conf, e: Entry, fail: Option<Cell>, lock: Option<Cell>, inclusive: bool, now: real, later: real)
    requires now <= later
    ensures var m := MemFailed(conf, e, now);
            !HeldBack(e, now) && m.1 ==> (HeldBack(m.0, later) <==> later < now + conf.lockTtl)
    ensures var r := ScriptCells(conf, fail, lock, now, inclusive);
            !Alive(lock, now, inclusive) && r.2 ==>
              (Alive(r.1, later, inclusive) <==>
                 later < now + conf.lockTtl || (inclusive && later == now + conf.lockTtl))
  {
  }
}
