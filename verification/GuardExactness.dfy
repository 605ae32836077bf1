/** The most passwords that can be compared, exactly: from any record, for either limiter, any period no longer
    than window and lock, and any number of logins in flight. */
module GuardExactness {
  import opened Prelude
  import opened AuthnStore
  import opened LoginLimiter
  import opened LoginGuard

  // ---------- runs, piece by piece ----------

  /** An attack that compares n passwords, ends in t, and is over by `last`. */
  ghost predicate Leads(conf: Conf, user: UserId, g: Guard, actions: seq<Action>, c: nat, since: real, end: real,
                        n: nat, t: Guard, last: real)
  {
    && Attack(conf, user, g, actions, c, since, end, true)
    && Guesses(conf, user, g, actions) == n && Run(conf, user, g, actions) == t
    && since <= last && Last(actions, since) <= last
  }

  lemma {:induction false} RunsJoin(conf: Conf, user: UserId, g: Guard, a: seq<Action>, b: seq<Action>)
    ensures Run(conf, user, g, a + b) == Run(conf, user, Run(conf, user, g, a), b)
    ensures Guesses(conf, user, g, a + b)
         == Guesses(conf, user, g, a) + Guesses(conf, user, Run(conf, user, g, a), b)
    decreases |a|
  {
    if a == [] {
      assert a + b == b;
    } else {
      assert (a + b)[0] == a[0] && (a + b)[1..] == a[1..] + b;
      RunsJoin(conf, user, Step(conf, user, g, a[0]), a[1..], b);
    }
  }

  lemma {:induction false} AttacksJoin(conf: Conf, user: UserId, g: Guard, a: seq<Action>, b: seq<Action>, c: nat,
                                       since: real, mid: real, end: real)
    requires Attack(conf, user, g, a, c, since, end, true) && Last(a, since) <= mid
    requires Attack(conf, user, Run(conf, user, g, a), b, c, mid, end, true)
    ensures Attack(conf, user, g, a + b, c, since, end, true)
    decreases |a|
  {
    if a == [] {
      assert a + b == b;
    } else {
      assert (a + b)[0] == a[0] && (a + b)[1..] == a[1..] + b;
      assert Last(a[1..], a[0].now) == Last(a, since);
      AttacksJoin(conf, user, Step(conf, user, g, a[0]), a[1..], b, c, a[0].now, mid, end);
    }
  }

  lemma Chain(conf: Conf, user: UserId, g: Guard, a: seq<Action>, b: seq<Action>, c: nat,
              since: real, mid: real, last: real, end: real, n: nat, m: nat, sum: nat, t: Guard, u: Guard)
    requires Leads(conf, user, g, a, c, since, end, n, t, mid) && Leads(conf, user, t, b, c, mid, end, m, u, last)
    requires sum == n + m
    ensures Leads(conf, user, g, a + b, c, since, end, sum, u, last)
  {
    RunsJoin(conf, user, g, a, b);
    AttacksJoin(conf, user, g, a, b, c, since, mid, end);
    assert b == [] ==> a + b == a;
  }

  lemma OneStep(conf: Conf, user: UserId, g: Guard, a: Action, t: Guard, c: nat, since: real, end: real, n: nat)
    returns (step: seq<Action>)
    requires t == Step(conf, user, g, a) && n == if Compares(g, a, user) then 1 else 0
    requires InFlight(g) <= c && InFlight(t) <= c && since <= a.now < end && !Clears(g, a)
    ensures step == [a] && Leads(conf, user, g, step, c, since, end, n, t, a.now)
  {
    step := [a];
    assert [a][1..] == [];
  }

  // ---------- wrong guesses ----------

  /** Tables, a name and a password that is not the one the account has there. */
  datatype Guess = Guess(db: Db, identifier: string, password: string)

  predicate Wrong(w: Guess, user: UserId)
  {
    && Aims(w.db, w.identifier, w.password, user)
    && user in w.db.users && w.db.users[user].password != Digest(w.password)
  }

  function AskFor(w: Guess, k: nat, now: real): Action { Ask(k, w.db, w.identifier, w.password, false, now) }

  function FailedTimes(conf: Conf, l: Limiter, now: real, n: nat): Limiter
    decreases n
  {
    if n == 0 then l else FailedTimes(conf, Failed(conf, l, now), now, n - 1)
  }

  /** What logins 1 to m have given as their password. */
  function Waiting(w: Guess, m: nat): map<nat, string>
  {
    if m == 0 then map[] else Waiting(w, m - 1)[m := w.password]
  }

  function Idle(l: Limiter): Guard { Guard(l, map[], map[]) }

  lemma {:induction false} WaitingSize(w: Guess, m: nat)
    ensures |Waiting(w, m)| == m && forall k | k in Waiting(w, m) :: 1 <= k <= m
    ensures m > 0 ==> m in Waiting(w, m) && Waiting(w, m)[m] == w.password
    ensures m > 0 ==> Waiting(w, m) - {m} == Waiting(w, m - 1)
    decreases m
  {
    if m > 0 { WaitingSize(w, m - 1); }
  }

  /** Logins 1 to m ask at one instant. */
  lemma {:induction false} AsksRun(conf: Conf, user: UserId, l: Limiter, w: Guess, now: real, m: nat, c: nat,
                                   since: real, end: real)
    returns (asks: seq<Action>)
    requires Wrong(w, user) && !Held(l, now) && m <= c && since <= now < end
    ensures Leads(conf, user, Idle(l), asks, c, since, end, 0, Guard(l, Waiting(w, m), map[]), now)
    ensures |asks| == m && forall i | 0 <= i < m :: asks[i].Ask?
    decreases m
  {
    WaitingSize(w, m);
    if m == 0 {
      asks := [];
    } else {
      var before := AsksRun(conf, user, l, w, now, m - 1, c, since, end);
      WaitingSize(w, m - 1);
      var g, t := Guard(l, Waiting(w, m - 1), map[]), Guard(l, Waiting(w, m), map[]);
      var last := OneStep(conf, user, g, AskFor(w, m, now), t, c, now, end, 0);
      asks := before + last;
      Chain(conf, user, Idle(l), before, last, c, since, now, now, end, 0, 0, 0, g, t);
    }
  }

  /** A login that has asked is compared and reported, whatever the limiter has come to since. */
  lemma PairRuns(conf: Conf, user: UserId, l: Limiter, asked: map<nat, string>, rest: map<nat, string>, w: Guess,
                 k: nat, now: real, c: nat, since: real, end: real)
    returns (pair: seq<Action>)
    requires Wrong(w, user) && k in asked && asked[k] == w.password && rest == asked - {k}
    requires |asked| <= c && since <= now < end
    ensures Leads(conf, user, Guard(l, asked, map[]), pair, c, since, end, 1, Guard(Failed(conf, l, now), rest, map[]),
                  now)
  {
    var g := Guard(l, asked, map[]);
    var g1 := Guard(l, rest, map[k := false]);
    var g2 := Guard(Failed(conf, l, now), rest, map[]);
    SizeAfter(asked, k);
    assert g1.judged - {k} == map[];
    var first := OneStep(conf, user, g, Compare(k, w.db, now), g1, c, since, end, 1);
    var second := OneStep(conf, user, g1, Report(k, now), g2, c, now, end, 0);
    pair := first + second;
    Chain(conf, user, g, first, second, c, since, now, now, end, 1, 0, 1, g1, g2);
  }

  /** All that have asked are. */
  lemma {:induction false} DrainRuns(conf: Conf, user: UserId, l: Limiter, w: Guess, now: real, m: nat, c: nat,
                                     since: real, end: real)
    returns (drain: seq<Action>)
    requires Wrong(w, user) && m <= c && since <= now < end
    ensures Leads(conf, user, Guard(l, Waiting(w, m), map[]), drain, c, since, end, m,
                  Idle(FailedTimes(conf, l, now, m)), now)
    decreases m
  {
    WaitingSize(w, m);
    if m == 0 {
      drain := [];
    } else {
      var f := Failed(conf, l, now);
      var g, g' := Guard(l, Waiting(w, m), map[]), Guard(f, Waiting(w, m - 1), map[]);
      var pair := PairRuns(conf, user, l, Waiting(w, m), Waiting(w, m - 1), w, m, now, c, since, end);
      var rest := DrainRuns(conf, user, f, w, now, m - 1, c, now, end);
      drain := pair + rest;
      Chain(conf, user, g, pair, rest, c, since, now, now, end, 1, m - 1, m, g', Idle(FailedTimes(conf, l, now, m)));
    }
  }

  lemma {:induction false} HeldStays(conf: Conf, l: Limiter, now: real, n: nat)
    requires Held(l, now)
    ensures FailedTimes(conf, l, now, n) == l
    decreases n
  {
    if n > 0 {
      assert Failed(conf, l, now) == l;
      HeldStays(conf, l, now, n - 1);
    }
  }

  /** However many logins ask before the first failure is reported, they are all compared. */
  lemma OverlapsAreAllCompared(conf: Conf, user: UserId, l: Limiter, w: Guess, now: real, end: real, n: nat)
    returns (asks: seq<Action>, rest: seq<Action>)
    requires Wrong(w, user) && !Held(l, now) && now < end
    ensures |asks| == n && (forall i | 0 <= i < n :: asks[i].Ask?)
    ensures Attack(conf, user, Idle(l), asks + rest, n, now, end, true)
    ensures Guesses(conf, user, Idle(l), asks + rest) == n && InFlight(Run(conf, user, Idle(l), asks + rest)) == 0
  {
    var waiting, t := Guard(l, Waiting(w, n), map[]), Idle(FailedTimes(conf, l, now, n));
    asks := AsksRun(conf, user, l, w, now, n, n, now, end);
    rest := DrainRuns(conf, user, l, w, now, n, n, now, end);
    Chain(conf, user, Idle(l), asks, rest, n, now, now, now, end, 0, n, n, waiting, t);
  }

  // ---------- up to the next lock ----------

  /** Failures that lock at this instant. */
  function ToLock(conf: Conf, l: Limiter, now: real): int
  {
    if Counting(conf, l, now) then Limit(conf) - Count(l) else Limit(conf)
  }

  lemma {:induction false} FailuresCount(conf: Conf, l: Limiter, now: real, n: nat)
    requires Sane(conf, l, now) && !Held(l, now) && n <= ToLock(conf, l, now)
    requires conf.window > 0.0 && conf.lockTtl > 0.0
    ensures var f := FailedTimes(conf, l, now, n);
      if n == ToLock(conf, l, now) then
        && Held(f, now) && Until(f) == Some(now + conf.lockTtl) && Count(f) == 0
        && Opened(conf, f) == (if l.Shared? then None
                               else if Counting(conf, l, now) then Opened(conf, l) else Some(now))
      else Sane(conf, f, now) && !Held(f, now)
           && (n > 0 ==> ToLock(conf, f, now) == ToLock(conf, l, now) - n)
           && (Counting(conf, l, now) ==>
                 Counting(conf, f, now) && Count(f) == Count(l) + n && Opened(conf, f) == Opened(conf, l)
                 && Until(f) == Until(l))
    ensures FailedTimes(conf, l, now, n).Shared? == l.Shared?
    decreases n
  {
    if n > 0 {
      var f := Failed(conf, l, now);
      FailedCounts(conf, l, now, now);
      if n == 1 {
        assert FailedTimes(conf, f, now, 0) == f;
      } else {
        FailuresCount(conf, f, now, n - 1);
      }
    }
  }

  /** One login after the other, all at one instant. */
  lemma {:induction false} BurstRuns(conf: Conf, user: UserId, l: Limiter, asked: map<nat, string>, w: Guess,
                                     now: real, n: nat, c: nat, since: real, end: real)
    returns (burst: seq<Action>)
    requires Wrong(w, user) && 0 !in asked && |asked| + 1 <= c && since <= now < end
    requires Sane(conf, l, now) && !Held(l, now) && n <= ToLock(conf, l, now)
    requires conf.window > 0.0 && conf.lockTtl > 0.0
    ensures Leads(conf, user, Guard(l, asked, map[]), burst, c, since, end, n,
                  Guard(FailedTimes(conf, l, now, n), asked, map[]), now)
    decreases n
  {
    var g := Guard(l, asked, map[]);
    burst := [];
    if n > 0 {
      var one := LoginRuns(conf, user, l, asked, w, now, c, since, end);
      var f := Failed(conf, l, now);
      var g', t := Guard(f, asked, map[]), Guard(FailedTimes(conf, l, now, n), asked, map[]);
      var rest := [];
      if n > 1 {
        FailuresCount(conf, l, now, 1);
        assert FailedTimes(conf, l, now, 1) == FailedTimes(conf, f, now, 0) == f;
        rest := BurstRuns(conf, user, f, asked, w, now, n - 1, c, now, end);
      } else {
        assert FailedTimes(conf, l, now, 1) == FailedTimes(conf, f, now, 0) == f;
      }
      burst := one + rest;
      Chain(conf, user, g, one, rest, c, since, now, now, end, 1, n - 1, n, g', t);
    }
  }

  lemma LoginRuns(conf: Conf, user: UserId, l: Limiter, asked: map<nat, string>, w: Guess, now: real, c: nat,
                  since: real, end: real)
    returns (login: seq<Action>)
    requires Wrong(w, user) && 0 !in asked && |asked| + 1 <= c && since <= now < end && !Held(l, now)
    ensures Leads(conf, user, Guard(l, asked, map[]), login, c, since, end, 1,
                  Guard(Failed(conf, l, now), asked, map[]), now)
  {
    var g, more := Guard(l, asked, map[]), asked[0 := w.password];
    var g1, g2 := Guard(l, more, map[]), Guard(Failed(conf, l, now), asked, map[]);
    assert more - {0} == asked;
    var ask := OneStep(conf, user, g, AskFor(w, 0, now), g1, c, since, end, 0);
    var pair := PairRuns(conf, user, l, more, asked, w, 0, now, c, now, end);
    login := ask + pair;
    Chain(conf, user, g, ask, pair, c, since, now, now, end, 0, 1, 1, g1, g2);
  }

  /** m logins ask, others guess one after the other, and those m are compared all the same. */
  lemma LockingRuns(conf: Conf, user: UserId, l: Limiter, w: Guess, now: real, m: nat, n: nat, c: nat, since: real,
                    end: real, sum: nat)
    returns (actions: seq<Action>, t: Guard)
    requires Wrong(w, user) && m + 1 <= c && sum == m + n && since <= now < end
    requires Sane(conf, l, now) && !Held(l, now) && n <= ToLock(conf, l, now)
    requires conf.window > 0.0 && conf.lockTtl > 0.0
    ensures Leads(conf, user, Idle(l), actions, c, since, end, sum, t, now)
  {
    var f := FailedTimes(conf, l, now, n);
    var asked, failed := Guard(l, Waiting(w, m), map[]), Guard(f, Waiting(w, m), map[]);
    t := Idle(FailedTimes(conf, f, now, m));
    WaitingSize(w, m);
    var asks := AsksRun(conf, user, l, w, now, m, c, since, end);
    var burst := BurstRuns(conf, user, l, Waiting(w, m), w, now, n, c, now, end);
    var drain := DrainRuns(conf, user, f, w, now, m, c, now, end);
    Chain(conf, user, asked, burst, drain, c, now, now, now, end, n, m, sum, failed, t);
    actions := asks + (burst + drain);
    Chain(conf, user, Idle(l), asks, burst + drain, c, since, now, now, end, 0, sum, sum, asked, t);
  }

  // ---------- the most, exactly ----------

  function Most(conf: Conf, l: Limiter, c: nat, start: real, end: real): int
    requires Count(l) < Limit(conf)
  {
    Potential(conf, Idle(l), c, start, end, true)
  }

  ghost predicate Possible(conf: Conf, user: UserId, l: Limiter, c: nat, start: real, end: real, n: nat)
  {
    exists actions, t, last :: Leads(conf, user, Idle(l), actions, c, start, end, n, t, last)
  }

  lemma PossibleRun(conf: Conf, user: UserId, l: Limiter, c: nat, start: real, end: real, n: nat)
    returns (actions: seq<Action>, t: Guard, last: real)
    requires Possible(conf, user, l, c, start, end, n)
    ensures Leads(conf, user, Idle(l), actions, c, start, end, n, t, last)
  {
    actions, t, last :| Leads(conf, user, Idle(l), actions, c, start, end, n, t, last);
  }

  /** The old window closes before the end, and there is room in it for more than its last failure. */
  predicate TwoWindows(conf: Conf, l: Limiter, start: real, end: real)
  {
    && From(l, start) < end && Counting(conf, l, From(l, start)) && Opened(conf, l).Some?
    && Count(l) <= Limit(conf) - 2 && Opened(conf, l).value + conf.window < end
  }

  /** An instant before the end at which the next lock takes all the budget. */
  function Instant(conf: Conf, l: Limiter, start: real, end: real): real
  {
    var from := From(l, start);
    if Counting(conf, l, from) && Opened(conf, l).Some? && Opened(conf, l).value + conf.window < end then
      if from < Opened(conf, l).value + conf.window then (Opened(conf, l).value + conf.window + end) / 2.0
      else (from + end) / 2.0
    else if Held(l, from) then (from + end) / 2.0 else from
  }

  lemma InstantFits(conf: Conf, l: Limiter, start: real, end: real)
    requires Sane(conf, l, start) && Short(conf, start, end) && From(l, start) < end
    ensures var t := Instant(conf, l, start, end);
      && start <= t < end && From(l, start) <= t && !Held(l, t) && Sane(conf, l, t)
      && ToLock(conf, l, t) == if TwoWindows(conf, l, start, end) then Limit(conf)
                               else Budget(conf, l, start, end, true)
  {
  }

  /** The budget is met in one lock where there is but one window to use. */
  lemma OneWindowReached(conf: Conf, user: UserId, l: Limiter, w: Guess, c: nat, start: real, end: real)
    requires Wrong(w, user) && c >= 1 && Sane(conf, l, start) && Short(conf, start, end)
    requires From(l, start) < end && !TwoWindows(conf, l, start, end)
    ensures Most(conf, l, c, start, end) >= 0
    ensures Possible(conf, user, l, c, start, end, Most(conf, l, c, start, end))
  {
    var t := Instant(conf, l, start, end);
    InstantFits(conf, l, start, end);
    var n := ToLock(conf, l, t);
    var run, u := LockingRuns(conf, user, l, w, t, c - 1, n, c, start, end, n + c - 1);
    assert |Idle(l).asked| == |Idle(l).judged| == 0;
  }

  lemma TwoWindowsMost(conf: Conf, l: Limiter, c: nat, start: real, end: real)
    requires Sane(conf, l, start) && TwoWindows(conf, l, start, end)
    ensures Most(conf, l, c, start, end) == 2 * Limit(conf) - 1 - Count(l) + c - 1
  {
    assert |Idle(l).asked| == |Idle(l).judged| == 0;
  }

  /** All but the last failure of the old window leave it open, and no longer counting after its end. */
  lemma FirstWindow(conf: Conf, l: Limiter, start: real, end: real)
    requires Sane(conf, l, start) && Short(conf, start, end) && TwoWindows(conf, l, start, end)
    ensures var from, t := From(l, start), Instant(conf, l, start, end); var n := Limit(conf) - 1 - Count(l);
            var f := FailedTimes(conf, l, from, n);
      && start <= from <= t < end && Sane(conf, l, from) && !Held(l, from) && n < ToLock(conf, l, from)
      && Sane(conf, f, t) && !Held(f, t) && ToLock(conf, f, t) == Limit(conf)
  {
    InstantFits(conf, l, start, end);
    FailuresCount(conf, l, From(l, start), Limit(conf) - 1 - Count(l));
  }

  /** All but the last failure of the old window, and then, once it is over, a full one. */
  lemma TwoWindowsReached(conf: Conf, user: UserId, l: Limiter, w: Guess, c: nat, start: real, end: real)
    requires Wrong(w, user) && c >= 1 && Sane(conf, l, start) && Short(conf, start, end)
    requires TwoWindows(conf, l, start, end)
    ensures Possible(conf, user, l, c, start, end, 2 * Limit(conf) - 1 - Count(l) + c - 1)
  {
    var from, t, n := From(l, start), Instant(conf, l, start, end), Limit(conf) - 1 - Count(l);
    var f := FailedTimes(conf, l, from, n);
    FirstWindow(conf, l, start, end);
    TwoBursts(conf, user, l, f, w, c, start, from, t, end, n, 2 * Limit(conf) - 1 - Count(l) + c - 1);
  }

  lemma TwoBursts(conf: Conf, user: UserId, l: Limiter, f: Limiter, w: Guess, c: nat, start: real, from: real, t: real,
                  end: real, n: nat, sum: nat)
    requires Wrong(w, user) && c >= 1 && start <= from <= t < end && conf.window > 0.0 && conf.lockTtl > 0.0
    requires Sane(conf, l, from) && !Held(l, from) && n <= ToLock(conf, l, from) && f == FailedTimes(conf, l, from, n)
    requires Sane(conf, f, t) && !Held(f, t) && Limit(conf) <= ToLock(conf, f, t)
    requires sum == n + Limit(conf) + c - 1
    ensures Possible(conf, user, l, c, start, end, sum)
  {
    var m := Limit(conf) + c - 1;
    var burst := BurstRuns(conf, user, l, map[], w, from, n, c, start, end);
    var run, u := LockingRuns(conf, user, f, w, t, c - 1, Limit(conf), c, from, end, m);
    Chain(conf, user, Idle(l), burst, run, c, start, from, t, end, n, m, sum, Idle(f), u);
  }

  /** From any record, with nobody in flight: no attack compares more than this, and one compares as many. */
  lemma MostIsExact(conf: Conf, user: UserId, l: Limiter, w: Guess, c: nat, start: real, end: real)
    requires Wrong(w, user) && c >= 1 && Sane(conf, l, start) && Short(conf, start, end)
    ensures Most(conf, l, c, start, end) >= 0
    ensures Possible(conf, user, l, c, start, end, Most(conf, l, c, start, end))
    ensures forall n: nat | Possible(conf, user, l, c, start, end, n) :: n <= Most(conf, l, c, start, end)
  {
    if end <= From(l, start) {
      assert Leads(conf, user, Idle(l), [], c, start, end, 0, Idle(l), start);
    } else if TwoWindows(conf, l, start, end) {
      TwoWindowsMost(conf, l, c, start, end);
      TwoWindowsReached(conf, user, l, w, c, start, end);
    } else {
      OneWindowReached(conf, user, l, w, c, start, end);
    }
    forall n: nat | Possible(conf, user, l, c, start, end, n) ensures n <= Most(conf, l, c, start, end) {
      var actions, t, last :| Leads(conf, user, Idle(l), actions, c, start, end, n, t, last);
      GuessesWithinPotential(conf, user, Idle(l), actions, c, start, end, true);
    }
  }

  /** The configured maximum, and c - 1 more for the logins in flight, is exceeded exactly when an open window
      closes within the period after its next failure can fall, and lacks at least two. */
  lemma LimitExceededIff(conf: Conf, user: UserId, l: Limiter, w: Guess, c: nat, start: real, end: real)
    requires Wrong(w, user) && c >= 1 && Sane(conf, l, start) && Short(conf, start, end)
    ensures (exists n: nat :: Possible(conf, user, l, c, start, end, n) && n > Limit(conf) + c - 1)
       <==> TwoWindows(conf, l, start, end)
  {
    MostIsExact(conf, user, l, w, c, start, end);
    assert |Idle(l).asked| == |Idle(l).judged| == 0;
  }

  // ---------- the bounds are met ----------

  lemma {:induction false} AttackIsCourse(conf: Conf, user: UserId, g: Guard, actions: seq<Action>, c: nat, since: real,
                                          end: real)
    requires Attack(conf, user, g, actions, c, since, end, true)
    ensures Course(conf, user, g, actions, c, since)
    decreases |actions|
  {
    if actions != [] {
      AttackIsCourse(conf, user, Step(conf, user, g, actions[0]), actions[1..], c, actions[0].now, end);
    }
  }

  /** From a fresh account: a course, and after it an attack within the period that compares n passwords. */
  ghost predicate Reached(conf: Conf, user: UserId, blank: Limiter, before: seq<Action>, during: seq<Action>, c: nat,
                          start: real, end: real, n: int)
  {
    var g := Run(conf, user, Idle(blank), before);
    && Course(conf, user, Idle(blank), before, c, 0.0) && Last(before, 0.0) <= start
    && Attack(conf, user, g, during, c, start, end, true) && Guesses(conf, user, g, during) == n
  }

  lemma ReachedBy(conf: Conf, user: UserId, blank: Limiter, before: seq<Action>, during: seq<Action>, c: nat,
                  start: real, end: real, m: nat, g: Guard, n: nat)
    requires Leads(conf, user, Idle(blank), before, c, 0.0, 1.0, m, g, 0.0) && 0.0 <= start
    requires Attack(conf, user, g, during, c, start, end, true) && Guesses(conf, user, g, during) == n
    ensures Reached(conf, user, blank, before, during, c, start, end, n)
  {
    AttackIsCourse(conf, user, Idle(blank), before, c, 0.0, 1.0);
  }

  /** The account is locked while c - 1 logins have asked, and these are compared before the lock ends. */
  lemma LockedWithWaiting(conf: Conf, user: UserId, blank: Limiter, w: Guess, c: nat, locked: Limiter)
    returns (before: seq<Action>)
    requires Blank(blank) && Wrong(w, user) && c >= 1 && conf.window > 0.0 && conf.lockTtl > 0.0
    requires locked == FailedTimes(conf, blank, 0.0, Limit(conf))
    ensures Leads(conf, user, Idle(blank), before, c, 0.0, 1.0, Limit(conf),
                  Guard(locked, Waiting(w, c - 1), map[]), 0.0)
    ensures Until(locked) == Some(conf.lockTtl) && Count(locked) == 0
    ensures Opened(conf, locked) == if blank.Shared? then None else Some(0.0)
    ensures Sane(conf, locked, 0.0) && locked.Shared? == blank.Shared?
  {
    var m, n := c - 1, Limit(conf);
    var asked, failed := Guard(blank, Waiting(w, m), map[]), Guard(locked, Waiting(w, m), map[]);
    WaitingSize(w, m);
    FailuresCount(conf, blank, 0.0, n);
    var asks := AsksRun(conf, user, blank, w, 0.0, m, c, 0.0, 1.0);
    var burst := BurstRuns(conf, user, blank, Waiting(w, m), w, 0.0, n, c, 0.0, 1.0);
    before := asks + burst;
    Chain(conf, user, Idle(blank), asks, burst, c, 0.0, 0.0, 0.0, 1.0, 0, n, n, asked, failed);
    AttackIsCourse(conf, user, Idle(blank), before, c, 0.0, 1.0);
    CourseKeepsSteady(conf, user, Idle(blank), before, c, 0.0);
    SaneFromOpening(conf, locked, Last(before, 0.0));
  }

  lemma SaneFromOpening(conf: Conf, l: Limiter, since: real)
    requires Sane(conf, l, since) && Count(l) == 0 && since <= 0.0
    ensures Sane(conf, l, 0.0)
  {
  }

  function LockBound(conf: Conf, l: Limiter, c: nat): int
  {
    if l.InProcess? then 2 * (Limit(conf) + c - 1) - 1 else Limit(conf) + c - 1 + c - 1
  }

  /** A period around the end of a lock, with window and lock equal, as shipped: the c - 1 that were in flight when it
      fell, all but the last failure of the old window at the instant it ends, a full window, and c - 1 in flight at
      the next lock. The shared limiter forgets the old window, which leaves the rest. */
  lemma BoundIsReached(conf: Conf, user: UserId, blank: Limiter, w: Guess, c: nat, start: real, end: real)
    returns (before: seq<Action>, during: seq<Action>)
    requires Blank(blank) && Wrong(w, user) && c >= 1 && conf.maxFailures >= 2
    requires Short(conf, start, end) && 0.0 <= start < conf.lockTtl < end
    requires blank.InProcess? ==> conf.window == conf.lockTtl
    ensures Reached(conf, user, blank, before, during, c, start, end, LockBound(conf, blank, c))
  {
    var locked, n := FailedTimes(conf, blank, 0.0, Limit(conf)), LockBound(conf, blank, c);
    before := LockedWithWaiting(conf, user, blank, w, c, locked);
    FreshLock(conf, locked, c, start, end);
    during := AfterTheLock(conf, user, locked, w, c, start, end, n);
    ReachedBy(conf, user, blank, before, during, c, start, end, Limit(conf), Guard(locked, Waiting(w, c - 1), map[]),
              n);
  }

  /** What a lock that fell at the first instant leaves for a period around its end. */
  lemma FreshLock(conf: Conf, locked: Limiter, c: nat, start: real, end: real)
    requires conf.maxFailures >= 2 && Short(conf, start, end) && 0.0 <= start < conf.lockTtl < end
    requires Sane(conf, locked, 0.0) && Until(locked) == Some(conf.lockTtl) && Count(locked) == 0
    requires Opened(conf, locked) == if locked.Shared? then None else Some(0.0)
    requires locked.InProcess? ==> conf.window == conf.lockTtl
    ensures Sane(conf, locked, start) && Held(locked, start)
    ensures c - 1 + Most(conf, locked, c, start, end) == LockBound(conf, locked, c)
  {
    assert |Idle(locked).asked| == |Idle(locked).judged| == 0;
    assert From(locked, start) == conf.lockTtl;
  }

  /** Those still waiting, and then the most the record allows. */
  lemma AfterTheLock(conf: Conf, user: UserId, locked: Limiter, w: Guess, c: nat, start: real, end: real,
                     n: nat)
    returns (during: seq<Action>)
    requires Wrong(w, user) && c >= 1 && Sane(conf, locked, start) && Held(locked, start) && Short(conf, start, end)
    requires n == c - 1 + Most(conf, locked, c, start, end)
    ensures Attack(conf, user, Guard(locked, Waiting(w, c - 1), map[]), during, c, start, end, true)
    ensures Guesses(conf, user, Guard(locked, Waiting(w, c - 1), map[]), during) == n
  {
    var most := Most(conf, locked, c, start, end);
    MostIsExact(conf, user, locked, w, c, start, end);
    var drain := DrainRuns(conf, user, locked, w, start, c - 1, c, start, end);
    HeldStays(conf, locked, start, c - 1);
    var run, t, last := PossibleRun(conf, user, locked, c, start, end, most);
    during := drain + run;
    Chain(conf, user, Guard(locked, Waiting(w, c - 1), map[]), drain, run, c, start, start, last, end, c - 1, most, n,
          Idle(locked), t);
  }

  /** A period around the end of a window that began with one failure, with either limiter. */
  lemma WindowBoundIsReached(conf: Conf, user: UserId, blank: Limiter, w: Guess, c: nat, start: real, end: real)
    returns (before: seq<Action>, during: seq<Action>)
    requires Blank(blank) && Wrong(w, user) && c >= 1 && conf.maxFailures >= 3
    requires Short(conf, start, end) && 0.0 <= start < conf.window < end
    ensures Reached(conf, user, blank, before, during, c, start, end, 2 * Limit(conf) - 2 + c - 1)
  {
    var one, n := FailedTimes(conf, blank, 0.0, 1), 2 * Limit(conf) - 2 + c - 1;
    OneFailureOpens(conf, blank, start, end);
    before := BurstRuns(conf, user, blank, map[], w, 0.0, 1, c, 0.0, 1.0);
    TwoWindowsReached(conf, user, one, w, c, start, end);
    var t, last;
    during, t, last := PossibleRun(conf, user, one, c, start, end, n);
    ReachedBy(conf, user, blank, before, during, c, start, end, 1, Idle(one), n);
  }

  lemma OneFailureOpens(conf: Conf, blank: Limiter, start: real, end: real)
    requires Blank(blank) && conf.maxFailures >= 3 && Short(conf, start, end) && 0.0 <= start < conf.window < end
    ensures var one := FailedTimes(conf, blank, 0.0, 1);
      && Sane(conf, one, start) && Count(one) == 1 && TwoWindows(conf, one, start, end)
    ensures Sane(conf, blank, 0.0) && !Held(blank, 0.0) && 1 <= ToLock(conf, blank, 0.0)
  {
    var one := Failed(conf, blank, 0.0);
    assert FailedTimes(conf, blank, 0.0, 1) == FailedTimes(conf, one, 0.0, 0) == one;
    FailedCounts(conf, blank, 0.0, 0.0);
    assert From(one, start) == start;
  }
}
