/** When the in-process limiter may stand in for the shared one: on every trace of calls that avoids
    the exact expiry instants, both give the same answers, if and only if the window is no longer
    than the lock (or a single failure locks). */
module LimiterEquivalence {
  import opened Prelude
  import opened LoginLimiter

  datatype Call = Failed(key: string) | Locked(key: string) | Reset(key: string)

  /** A call and the instant it is made at. */
  type Trace = seq<(Call, real)>

  type MemState = map<string, Entry>

  function MemStep(conf: Conf, state: MemState, c: Call, now: real): (MemState, bool)
  {
    match c
    case Failed(key) => var r := MemFailed(conf, EntryOf(state, key), now); (state[key := r.0], r.1)
    case Locked(key) => (state, HeldBack(EntryOf(state, key), now))
    case Reset(key) => (state - {key}, false)
  }

  function RedisStep(conf: Conf, inclusive: bool, store: Store, c: Call, now: real): (Store, bool)
  {
    match c
    case Failed(key) =>
      var r := ScriptCells(conf, CellOf(store, FailKey(key)), CellOf(store, LockKey(key)), now, inclusive);
      (PutCell(PutCell(store, FailKey(key), r.0), LockKey(key), r.1), r.2)
    case Locked(key) => (store, Alive(CellOf(store, LockKey(key)), now, inclusive))
    case Reset(key) => (PutCell(PutCell(store, FailKey(key), None), LockKey(key), None), false)
  }

  function MemAnswers(conf: Conf, state: MemState, trace: Trace): seq<bool>
    decreases |trace|
  {
    if trace == [] then []
    else var r := MemStep(conf, state, trace[0].0, trace[0].1); [r.1] + MemAnswers(conf, r.0, trace[1..])
  }

  function RedisAnswers(conf: Conf, inclusive: bool, store: Store, trace: Trace): seq<bool>
    decreases |trace|
  {
    if trace == [] then []
    else
      var r := RedisStep(conf, inclusive, store, trace[0].0, trace[0].1);
      [r.1] + RedisAnswers(conf, inclusive, r.0, trace[1..])
  }

  /** No call at an instant at which the two sides disagree on whether a lifetime has ended. The
      process compares the counting window inclusively and the lock exclusively, so it is the
      counter's end that matters when the store is exclusive, and the lock's when it is inclusive. */
  predicate OffTheEdge(conf: Conf, inclusive: bool, e: Entry, c: Call, now: real)
  {
    && (!inclusive && c.Failed? && e.firstSeen.Some? ==> now - e.firstSeen.value != conf.window)
    && (inclusive && !c.Reset? ==> e.unlockedAt != Some(now))
  }

  /** Calls at nondecreasing instants, none on an edge. */
  predicate SafeTrace(conf: Conf, inclusive: bool, state: MemState, trace: Trace, since: real)
    decreases |trace|
  {
    trace == [] ||
    (var (c, now) := trace[0];
     && since <= now
     && OffTheEdge(conf, inclusive, EntryOf(state, c.key), c, now)
     && SafeTrace(conf, inclusive, MemStep(conf, state, c, now).0, trace[1..], now))
  }

  predicate Positive(conf: Conf) { conf.window > 0.0 && conf.lockTtl > 0.0 }

  predicate WindowFits(conf: Conf) { conf.window <= conf.lockTtl || conf.maxFailures <= 1 }

  // ---------- one subject ----------

  /** How one subject's entry and its two cells correspond between calls. After a lock the entry
      keeps the start of a window whose counter the store has deleted: harmless exactly because
      that window ends no later than the lock. */
  ghost predicate Matches(conf: Conf, e: Entry, fail: Option<Cell>, lock: Option<Cell>, since: real)
  {
    && e.failures >= 0
    && (e.firstSeen.Some? ==> e.firstSeen.value <= since)
    && lock == (if e.unlockedAt.Some? then Some(Cell(1, e.unlockedAt)) else None)
    && (if e.failures > 0
        then e.firstSeen.Some? && fail == Some(Cell(e.failures, Some(e.firstSeen.value + conf.window)))
        else fail == None)
    && (e.failures == 0 && e.firstSeen.Some? && conf.maxFailures > 1 ==>
          e.unlockedAt.Some? && e.firstSeen.value + conf.window <= e.unlockedAt.value)
    && (conf.maxFailures <= 1 ==> e.failures == 0)
  }

  lemma FailedAgrees(conf: Conf, inclusive: bool, e: Entry, fail: Option<Cell>, lock: Option<Cell>,
                     since: real, key: string, now: real)
    requires Positive(conf) && WindowFits(conf)
    requires Matches(conf, e, fail, lock, since) && since <= now
    requires OffTheEdge(conf, inclusive, e, Failed(key), now)
    ensures var m := MemFailed(conf, e, now); var r := ScriptCells(conf, fail, lock, now, inclusive);
            m.1 == r.2 && Matches(conf, m.0, r.0, r.1, now)
  {
  }

  // ---------- all subjects ----------

  ghost predicate AllMatch(conf: Conf, state: MemState, store: Store, since: real)
  {
    forall key: string ::
      Matches(conf, EntryOf(state, key), CellOf(store, FailKey(key)), CellOf(store, LockKey(key)), since)
  }

  lemma PutCellsOnly(store: Store, key: string, fail: Option<Cell>, lock: Option<Cell>)
    ensures var s := PutCell(PutCell(store, FailKey(key), fail), LockKey(key), lock);
      && CellOf(s, FailKey(key)) == fail && CellOf(s, LockKey(key)) == lock
      && forall k: string | k != key ::
           CellOf(s, FailKey(k)) == CellOf(store, FailKey(k)) && CellOf(s, LockKey(k)) == CellOf(store, LockKey(k))
  {
    KeysApart(key, key);
    forall k: string | k != key
      ensures FailKey(k) != FailKey(key) && FailKey(k) != LockKey(key)
      ensures LockKey(k) != LockKey(key) && LockKey(k) != FailKey(key)
    {
      KeysApart(k, key);
      KeysApart(key, k);
    }
  }

  lemma StepAgrees(conf: Conf, inclusive: bool, state: MemState, store: Store, since: real, c: Call, now: real)
    requires Positive(conf) && WindowFits(conf)
    requires AllMatch(conf, state, store, since) && since <= now
    requires OffTheEdge(conf, inclusive, EntryOf(state, c.key), c, now)
    ensures var m := MemStep(conf, state, c, now); var r := RedisStep(conf, inclusive, store, c, now);
            m.1 == r.1 && AllMatch(conf, m.0, r.0, now)
  {
    var m := MemStep(conf, state, c, now);
    var r := RedisStep(conf, inclusive, store, c, now);
    var fail, lock := CellOf(store, FailKey(c.key)), CellOf(store, LockKey(c.key));
    assert Matches(conf, EntryOf(state, c.key), fail, lock, since);
    if c.Failed? {
      FailedAgrees(conf, inclusive, EntryOf(state, c.key), fail, lock, since, c.key, now);
      var s := ScriptCells(conf, fail, lock, now, inclusive);
      PutCellsOnly(store, c.key, s.0, s.1);
    } else if c.Reset? {
      PutCellsOnly(store, c.key, None, None);
    }
    forall key: string
      ensures Matches(conf, EntryOf(m.0, key), CellOf(r.0, FailKey(key)), CellOf(r.0, LockKey(key)), now)
    {
      assert Matches(conf, EntryOf(state, key), CellOf(store, FailKey(key)), CellOf(store, LockKey(key)), since);
    }
  }

  lemma {:induction false} AnswersAgree(conf: Conf, inclusive: bool, state: MemState, store: Store, trace: Trace,
                                        since: real)
    requires Positive(conf) && WindowFits(conf)
    requires AllMatch(conf, state, store, since)
    requires SafeTrace(conf, inclusive, state, trace, since)
    ensures MemAnswers(conf, state, trace) == RedisAnswers(conf, inclusive, store, trace)
    decreases |trace|
  {
    if trace != [] {
      var (c, now) := trace[0];
      StepAgrees(conf, inclusive, state, store, since, c, now);
      AnswersAgree(conf, inclusive, MemStep(conf, state, c, now).0, RedisStep(conf, inclusive, store, c, now).0,
                   trace[1..], now);
    }
  }

  // ---------- why the window must fit ----------

  function Repeat(n: nat, c: Call, now: real): (t: Trace)
    ensures |t| == n && forall i | 0 <= i < n :: t[i] == (c, now)
  {
    if n == 0 then [] else [(c, now)] + Repeat(n - 1, c, now)
  }

  function MemRun(conf: Conf, state: MemState, trace: Trace): MemState
    decreases |trace|
  {
    if trace == [] then state else MemRun(conf, MemStep(conf, state, trace[0].0, trace[0].1).0, trace[1..])
  }

  function RedisRun(conf: Conf, inclusive: bool, store: Store, trace: Trace): Store
    decreases |trace|
  {
    if trace == [] then store
    else RedisRun(conf, inclusive, RedisStep(conf, inclusive, store, trace[0].0, trace[0].1).0, trace[1..])
  }

  lemma {:induction false} MemRunSplit(conf: Conf, state: MemState, a: Trace, b: Trace)
    ensures MemRun(conf, state, a + b) == MemRun(conf, MemRun(conf, state, a), b)
    decreases |a|
  {
    if a == [] {
      assert a + b == b;
    } else {
      assert (a + b)[0] == a[0] && (a + b)[1..] == a[1..] + b;
      MemRunSplit(conf, MemStep(conf, state, a[0].0, a[0].1).0, a[1..], b);
    }
  }

  lemma {:induction false} MemAnswersSplit(conf: Conf, state: MemState, a: Trace, b: Trace)
    ensures MemAnswers(conf, state, a + b) == MemAnswers(conf, state, a) + MemAnswers(conf, MemRun(conf, state, a), b)
    ensures |MemAnswers(conf, state, a)| == |a|
    decreases |a|
  {
    if a == [] {
      assert a + b == b;
    } else {
      assert (a + b)[0] == a[0] && (a + b)[1..] == a[1..] + b;
      MemAnswersSplit(conf, MemStep(conf, state, a[0].0, a[0].1).0, a[1..], b);
    }
  }

  lemma {:induction false} RedisRunSplit(conf: Conf, inclusive: bool, store: Store, a: Trace, b: Trace)
    ensures RedisRun(conf, inclusive, store, a + b) == RedisRun(conf, inclusive, RedisRun(conf, inclusive, store, a), b)
    decreases |a|
  {
    if a == [] {
      assert a + b == b;
    } else {
      assert (a + b)[0] == a[0] && (a + b)[1..] == a[1..] + b;
      RedisRunSplit(conf, inclusive, RedisStep(conf, inclusive, store, a[0].0, a[0].1).0, a[1..], b);
    }
  }

  lemma {:induction false} RedisAnswersSplit(conf: Conf, inclusive: bool, store: Store, a: Trace, b: Trace)
    ensures RedisAnswers(conf, inclusive, store, a + b)
         == RedisAnswers(conf, inclusive, store, a)
            + RedisAnswers(conf, inclusive, RedisRun(conf, inclusive, store, a), b)
    ensures |RedisAnswers(conf, inclusive, store, a)| == |a|
    decreases |a|
  {
    if a == [] {
      assert a + b == b;
    } else {
      assert (a + b)[0] == a[0] && (a + b)[1..] == a[1..] + b;
      RedisAnswersSplit(conf, inclusive, RedisStep(conf, inclusive, store, a[0].0, a[0].1).0, a[1..], b);
    }
  }

  lemma {:induction false} SafeSplit(conf: Conf, inclusive: bool, state: MemState, a: Trace, b: Trace, since: real,
                                     mid: real)
    requires SafeTrace(conf, inclusive, state, a, since)
    requires since <= mid && forall i | 0 <= i < |a| :: a[i].1 <= mid
    requires SafeTrace(conf, inclusive, MemRun(conf, state, a), b, mid)
    ensures SafeTrace(conf, inclusive, state, a + b, since)
    decreases |a|
  {
    if a == [] {
      assert a + b == b;
    } else {
      var (c, now) := a[0];
      assert (a + b)[0] == a[0] && (a + b)[1..] == a[1..] + b;
      assert forall i | 0 <= i < |a[1..]| :: a[1..][i].1 <= mid;
      SafeSplit(conf, inclusive, MemStep(conf, state, c, now).0, a[1..], b, now, mid);
    }
  }

  /** Failures of one subject at one instant that do not reach the limit add up, on both sides. */
  lemma {:induction false} FailuresAddUp(conf: Conf, inclusive: bool, state: MemState, store: Store, key: string,
                                         now: real, k: nat, e: Entry, count: nat, deadline: real)
    requires Positive(conf)
    requires state == map[key := e] && e.failures >= 1 && e.firstSeen.Some? && e.firstSeen.value <= now
    requires now - e.firstSeen.value < conf.window && !HeldBack(e, now) && e.unlockedAt != Some(now)
    requires CellOf(store, FailKey(key)) == Some(Cell(count, Some(deadline))) && count >= 1 && now < deadline
    requires !Alive(CellOf(store, LockKey(key)), now, inclusive)
    ensures e.failures + k < conf.maxFailures ==>
              && MemRun(conf, state, Repeat(k, Failed(key), now)) == map[key := e.(failures := e.failures + k)]
              && SafeTrace(conf, inclusive, state, Repeat(k, Failed(key), now), now)
    ensures count + k < conf.maxFailures ==>
              var s := RedisRun(conf, inclusive, store, Repeat(k, Failed(key), now));
              && CellOf(s, FailKey(key)) == Some(Cell(count + k, Some(deadline)))
              && CellOf(s, LockKey(key)) == CellOf(store, LockKey(key))
    decreases k
  {
    if k > 0 {
      var t := Repeat(k, Failed(key), now);
      assert t[0] == (Failed(key), now) && t[1..] == Repeat(k - 1, Failed(key), now);
      if e.failures + k < conf.maxFailures || count + k < conf.maxFailures {
        KeysApart(key, key);
        var state' := MemStep(conf, state, Failed(key), now).0;
        var store' := RedisStep(conf, inclusive, store, Failed(key), now).0;
        var e' := if e.failures + k < conf.maxFailures then e.(failures := e.failures + 1) else e;
        var count' := if count + k < conf.maxFailures then count + 1 else count;
        PutCellsOnly(store, key, Some(Cell(count + 1, Some(deadline))), CellOf(store, LockKey(key)));
        FailuresAddUp(conf, inclusive, if e.failures + k < conf.maxFailures then state' else state,
                      if count + k < conf.maxFailures then store' else store, key, now, k - 1, e', count', deadline);
      }
    }
  }

  /** Lock a subject, let the lock (but not the window) run out, fail almost up to the limit, and
      once more when the stale window is over but the store's fresh one is not. */
  function DivergingTrace(conf: Conf, key: string): Trace
    requires conf.maxFailures >= 2
  {
    var f := Failed(key);
    var t1 := (conf.window + conf.lockTtl) / 2.0;
    var t2 := conf.window + conf.lockTtl / 2.0;
    var n := conf.maxFailures - 2;
    ((([(f, 0.0)] + Repeat(n, f, 0.0)) + [(f, 0.0)]) + ([(f, t1)] + Repeat(n, f, t1))) + [(f, t2)]
  }

  ghost predicate Both(conf: Conf, inclusive: bool, key: string, trace: Trace, upTo: real,
                       e: Entry, fail: Option<Cell>, lock: Option<Cell>)
  {
    && SafeTrace(conf, inclusive, map[], trace, 0.0)
    && (forall i | 0 <= i < |trace| :: trace[i].1 <= upTo)
    && MemRun(conf, map[], trace) == map[key := e]
    && CellOf(RedisRun(conf, inclusive, map[], trace), FailKey(key)) == fail
    && CellOf(RedisRun(conf, inclusive, map[], trace), LockKey(key)) == lock
  }

  lemma Append(conf: Conf, inclusive: bool, trace: Trace, more: Trace, upTo: real)
    requires 0.0 <= upTo && SafeTrace(conf, inclusive, map[], trace, 0.0)
    requires forall i | 0 <= i < |trace| :: trace[i].1 <= upTo
    requires SafeTrace(conf, inclusive, MemRun(conf, map[], trace), more, upTo)
    ensures SafeTrace(conf, inclusive, map[], trace + more, 0.0)
    ensures MemRun(conf, map[], trace + more) == MemRun(conf, MemRun(conf, map[], trace), more)
    ensures RedisRun(conf, inclusive, map[], trace + more)
         == RedisRun(conf, inclusive, RedisRun(conf, inclusive, map[], trace), more)
  {
    SafeSplit(conf, inclusive, map[], trace, more, 0.0, upTo);
    MemRunSplit(conf, map[], trace, more);
    MemAnswersSplit(conf, map[], trace, more);
    RedisRunSplit(conf, inclusive, map[], trace, more);
    RedisAnswersSplit(conf, inclusive, map[], trace, more);
  }

  lemma OneFailure(conf: Conf, inclusive: bool, key: string, trace: Trace, upTo: real, now: real,
                   e: Entry, fail: Option<Cell>, lock: Option<Cell>)
    requires || Both(conf, inclusive, key, trace, upTo, e, fail, lock)
             || (trace == [] && e == BLANK && fail == lock == None)
    requires 0.0 <= upTo <= now && OffTheEdge(conf, inclusive, e, Failed(key), now)
    ensures var m := MemFailed(conf, e, now).0; var r := ScriptCells(conf, fail, lock, now, inclusive);
            Both(conf, inclusive, key, trace + [(Failed(key), now)], now, m, r.0, r.1)
  {
    var more := [(Failed(key), now)];
    var state := MemRun(conf, map[], trace);
    var store := RedisRun(conf, inclusive, map[], trace);
    var r := ScriptCells(conf, fail, lock, now, inclusive);
    PutCellsOnly(store, key, r.0, r.1);
    assert EntryOf(state, key) == e && state[key := e] == map[key := e];
    var state' := MemStep(conf, state, Failed(key), now).0;
    assert state' == map[key := MemFailed(conf, e, now).0];
    assert more[1..] == [];
    assert MemRun(conf, state, more) == MemRun(conf, state', []) == state';
    var store' := RedisStep(conf, inclusive, store, Failed(key), now).0;
    assert RedisRun(conf, inclusive, store, more) == RedisRun(conf, inclusive, store', []) == store';
    assert SafeTrace(conf, inclusive, state, more, upTo);
    Append(conf, inclusive, trace, more, upTo);
  }

  lemma ManyFailures(conf: Conf, inclusive: bool, key: string, trace: Trace, now: real, k: nat,
                     e: Entry, count: nat, deadline: real, lock: Option<Cell>)
    requires Positive(conf) && 0.0 <= now
    requires Both(conf, inclusive, key, trace, now, e, Some(Cell(count, Some(deadline))), lock)
    requires e.failures >= 1 && e.firstSeen.Some? && e.firstSeen.value <= now
    requires now - e.firstSeen.value < conf.window && !HeldBack(e, now) && e.unlockedAt != Some(now)
    requires count >= 1 && now < deadline && !Alive(lock, now, inclusive)
    requires e.failures + k < conf.maxFailures && count + k < conf.maxFailures
    ensures Both(conf, inclusive, key, trace + Repeat(k, Failed(key), now), now,
                 e.(failures := e.failures + k), Some(Cell(count + k, Some(deadline))), lock)
  {
    FailuresAddUp(conf, inclusive, MemRun(conf, map[], trace), RedisRun(conf, inclusive, map[], trace), key, now, k,
                  e, count, deadline);
    Append(conf, inclusive, trace, Repeat(k, Failed(key), now), now);
  }

  /** The diverging trace up to the lock, and then up to its last call. */
  function UpToLock(conf: Conf, key: string): Trace
    requires conf.maxFailures >= 2
  {
    ([(Failed(key), 0.0)] + Repeat(conf.maxFailures - 2, Failed(key), 0.0)) + [(Failed(key), 0.0)]
  }

  function BeforeTheEnd(conf: Conf, key: string): Trace
    requires conf.maxFailures >= 2
  {
    var t1 := (conf.window + conf.lockTtl) / 2.0;
    UpToLock(conf, key) + ([(Failed(key), t1)] + Repeat(conf.maxFailures - 2, Failed(key), t1))
  }

  lemma BothLock(conf: Conf, inclusive: bool, key: string)
    requires Positive(conf) && conf.maxFailures >= 2
    ensures Both(conf, inclusive, key, UpToLock(conf, key), 0.0, Entry(0, Some(0.0), Some(conf.lockTtl)), None,
                 Some(Cell(1, Some(conf.lockTtl))))
  {
    var f, W, n := Failed(key), conf.window, conf.maxFailures - 2;
    OneFailure(conf, inclusive, key, [], 0.0, 0.0, BLANK, None, None);
    var a := [] + [(f, 0.0)];
    assert a == [(f, 0.0)];
    ManyFailures(conf, inclusive, key, a, 0.0, n, Entry(1, Some(0.0), None), 1, W, None);
    var b := a + Repeat(n, f, 0.0);
    OneFailure(conf, inclusive, key, b, 0.0, 0.0, Entry(n + 1, Some(0.0), None), Some(Cell(n + 1, Some(W))), None);
  }

  /** Up to there: one side holds a stale start of its window, the other a fresh deadline. */
  lemma FirstStale(conf: Conf, inclusive: bool, key: string, t1: real)
    requires Positive(conf) && !WindowFits(conf) && conf.lockTtl < t1 < conf.window
    ensures Both(conf, inclusive, key, UpToLock(conf, key) + [(Failed(key), t1)], t1,
                 Entry(1, Some(0.0), Some(conf.lockTtl)), Some(Cell(1, Some(t1 + conf.window))),
                 Some(Cell(1, Some(conf.lockTtl))))
  {
    var L := conf.lockTtl;
    BothLock(conf, inclusive, key);
    OneFailure(conf, inclusive, key, UpToLock(conf, key), 0.0, t1, Entry(0, Some(0.0), Some(L)), None,
               Some(Cell(1, Some(L))));
  }

  lemma StaleAgainstFresh(conf: Conf, inclusive: bool, key: string)
    requires Positive(conf) && !WindowFits(conf)
    ensures var W, L, n := conf.window, conf.lockTtl, conf.maxFailures - 2; var t1 := (W + L) / 2.0;
      Both(conf, inclusive, key, BeforeTheEnd(conf, key), t1, Entry(n + 1, Some(0.0), Some(L)),
           Some(Cell(n + 1, Some(t1 + W))), Some(Cell(1, Some(L))))
  {
    var f, W, L, n := Failed(key), conf.window, conf.lockTtl, conf.maxFailures - 2;
    var t1 := (W + L) / 2.0;
    var d := UpToLock(conf, key) + [(f, t1)];
    FirstStale(conf, inclusive, key, t1);
    ManyFailures(conf, inclusive, key, d, t1, n, Entry(1, Some(0.0), Some(L)), 1, t1 + W, Some(Cell(1, Some(L))));
    assert d + Repeat(n, f, t1) == BeforeTheEnd(conf, key);
  }

  /** With a window longer than the lock the two sides part ways on a safe trace, whatever the rest
      of the configuration. */
  lemma LongWindowDiverges(conf: Conf, inclusive: bool, key: string)
    requires Positive(conf) && !WindowFits(conf)
    ensures var t := DivergingTrace(conf, key);
      SafeTrace(conf, inclusive, map[], t, 0.0) && MemAnswers(conf, map[], t) != RedisAnswers(conf, inclusive, map[], t)
  {
    var W, L, n := conf.window, conf.lockTtl, conf.maxFailures - 2;
    var t1, t2 := (W + L) / 2.0, W + L / 2.0;
    var stale, counting := Entry(n + 1, Some(0.0), Some(L)), Some(Cell(n + 1, Some(t1 + W)));
    var e, last := BeforeTheEnd(conf, key), [(Failed(key), t2)];
    StaleAgainstFresh(conf, inclusive, key);
    OneFailure(conf, inclusive, key, e, t1, t2, stale, counting, Some(Cell(1, Some(L))));
    assert DivergingTrace(conf, key) == e + last;
    assert !MemFailed(conf, stale, t2).1 && ScriptCells(conf, counting, Some(Cell(1, Some(L))), t2, inclusive).2;
    MemAnswersSplit(conf, map[], e, last);
    RedisAnswersSplit(conf, inclusive, map[], e, last);
    assert MemAnswers(conf, map[], e + last)[|e|] == MemFailed(conf, stale, t2).1;
    assert RedisAnswers(conf, inclusive, map[], e + last)[|e|]
        == ScriptCells(conf, counting, Some(Cell(1, Some(L))), t2, inclusive).2;
  }

  // ---------- the result ----------

  ghost predicate AgreeOn(conf: Conf, inclusive: bool, trace: Trace)
  {
    MemAnswers(conf, map[], trace) == RedisAnswers(conf, inclusive, map[], trace)
  }

  ghost predicate Safe(conf: Conf, inclusive: bool, trace: Trace, since: real)
  {
    SafeTrace(conf, inclusive, map[], trace, since)
  }

  /** The in-process limiter simulates the script on all safe traces from a fresh start exactly when
      the window is no longer than the lock, or a single failure already locks. */
  lemma LimitersAgreeIffWindowFits(conf: Conf, inclusive: bool)
    requires Positive(conf)
    ensures (forall trace: Trace, since: real | Safe(conf, inclusive, trace, since) :: AgreeOn(conf, inclusive, trace))
       <==> WindowFits(conf)
  {
    if WindowFits(conf) {
      forall trace: Trace, since: real | Safe(conf, inclusive, trace, since)
        ensures AgreeOn(conf, inclusive, trace)
      {
        assert AllMatch(conf, map[], map[], since);
        AnswersAgree(conf, inclusive, map[], map[], trace, since);
      }
    } else {
      LongWindowDiverges(conf, inclusive, "user");
      var t := DivergingTrace(conf, "user");
      assert Safe(conf, inclusive, t, 0.0) && !AgreeOn(conf, inclusive, t);
    }
  }

  /** The shipped parameters: five failures, fifteen minutes each way, in milliseconds. */
  const DEFAULT_CONF: Conf := Conf(5, 900_000.0, 900_000.0)

  lemma DefaultsAgree(inclusive: bool, trace: Trace, since: real)
    requires Safe(DEFAULT_CONF, inclusive, trace, since)
    ensures AgreeOn(DEFAULT_CONF, inclusive, trace)
  {
    LimitersAgreeIffWindowFits(DEFAULT_CONF, inclusive);
  }

  /** The edges are real, in any state: at the instant an exclusive store drops a counter the answers to
      a failure part exactly when the old count was one short of the limit; at the instant an inclusive
      store still holds a lock, the answers always part. */
  lemma EdgesAreReal(conf: Conf, e: Entry, fail: Option<Cell>, lock: Option<Cell>, since: real, now: real)
    requires Positive(conf) && Matches(conf, e, fail, lock, since) && since <= now
    ensures e.failures > 0 && now - e.firstSeen.value == conf.window && !HeldBack(e, now) ==>
              (MemFailed(conf, e, now).1 == ScriptCells(conf, fail, lock, now, false).2
               <==> e.failures + 1 < conf.maxFailures)
    ensures e.unlockedAt == Some(now) ==> HeldBack(e, now) != Alive(lock, now, true)
  {
  }

  /** Fail until one short of the limit and once more as the counter ends; or fail until locked and ask as
      the lock ends. */
  function BeforeTheEdge(conf: Conf, inclusive: bool, key: string): Trace
    requires conf.maxFailures >= 2
  {
    if inclusive then UpToLock(conf, key) else [(Failed(key), 0.0)] + Repeat(conf.maxFailures - 2, Failed(key), 0.0)
  }

  function OnTheEdge(conf: Conf, inclusive: bool, key: string): (Call, real)
  {
    if inclusive then (Locked(key), conf.lockTtl) else (Failed(key), conf.window)
  }

  lemma LastAnswers(conf: Conf, inclusive: bool, key: string, trace: Trace, last: (Call, real), upTo: real,
                    e: Entry, fail: Option<Cell>, lock: Option<Cell>)
    requires Both(conf, inclusive, key, trace, upTo, e, fail, lock) && last.0.key == key && !last.0.Reset?
    ensures var a := MemAnswers(conf, map[], trace + [last]);
            |a| == |trace| + 1 &&
            a[|trace|] == if last.0.Failed? then MemFailed(conf, e, last.1).1 else HeldBack(e, last.1)
    ensures var a := RedisAnswers(conf, inclusive, map[], trace + [last]);
            |a| == |trace| + 1 &&
            a[|trace|] == if last.0.Failed? then ScriptCells(conf, fail, lock, last.1, inclusive).2
                          else Alive(lock, last.1, inclusive)
  {
    MemAnswersSplit(conf, map[], trace, [last]);
    RedisAnswersSplit(conf, inclusive, map[], trace, [last]);
    assert [last][1..] == [];
    assert EntryOf(MemRun(conf, map[], trace), key) == e;
  }

  /** And reached from a fresh start, whatever the configuration: a trace that is safe up to its last call,
      which falls on an edge and is answered differently. */
  lemma EdgeReachedAndDiverges(conf: Conf, inclusive: bool, key: string)
    requires Positive(conf) && conf.maxFailures >= 2
    ensures var t := BeforeTheEdge(conf, inclusive, key); var u := t + [OnTheEdge(conf, inclusive, key)];
      && Safe(conf, inclusive, t, 0.0) && !AgreeOn(conf, inclusive, u)
  {
    var t, last, W := BeforeTheEdge(conf, inclusive, key), OnTheEdge(conf, inclusive, key), conf.window;
    if inclusive {
      BothLock(conf, inclusive, key);
      var locked := Entry(0, Some(0.0), Some(conf.lockTtl));
      LastAnswers(conf, inclusive, key, t, last, 0.0, locked, None, Some(Cell(1, Some(conf.lockTtl))));
    } else {
      var n := conf.maxFailures - 2;
      OneFailure(conf, inclusive, key, [], 0.0, 0.0, BLANK, None, None);
      assert [] + [(Failed(key), 0.0)] == [(Failed(key), 0.0)];
      ManyFailures(conf, inclusive, key, [(Failed(key), 0.0)], 0.0, n, Entry(1, Some(0.0), None), 1, W, None);
      LastAnswers(conf, inclusive, key, t, last, 0.0, Entry(n + 1, Some(0.0), None), Some(Cell(n + 1, Some(W))), None);
    }
  }
}
