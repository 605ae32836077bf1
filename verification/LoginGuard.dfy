/** What the failure limiter buys when logins drive it: how many passwords of one account are compared in a
    period no longer than window and lock. A login asks whether the account is locked, compares its password
    and reports the outcome in three steps, and logins of one account run side by side. */
module LoginGuard {
  import opened Prelude
  import opened AuthnStore
  import opened LoginLimiter
  import Equivalence = LimiterEquivalence
  import Rules = AuthnRules

  // ---------- one account's share of either limiter ----------

  datatype Limiter =
    | InProcess(e: Entry)
    | Shared(fail: Option<Cell>, lock: Option<Cell>, inclusive: bool)

  predicate Held(l: Limiter, now: real)
  {
    match l
    case InProcess(e) => HeldBack(e, now)
    case Shared(_, lock, inclusive) => Alive(lock, now, inclusive)
  }

  function Failed(conf: Conf, l: Limiter, now: real): Limiter
  {
    match l
    case InProcess(e) => InProcess(MemFailed(conf, e, now).0)
    case Shared(fail, lock, inclusive) =>
      var r := ScriptCells(conf, fail, lock, now, inclusive);
      Shared(r.0, r.1, inclusive)
  }

  function Cleared(l: Limiter): Limiter
  {
    match l
    case InProcess(_) => InProcess(BLANK)
    case Shared(_, _, inclusive) => Shared(None, None, inclusive)
  }

  function MemShare(state: Equivalence.MemState, key: string): Limiter { InProcess(EntryOf(state, key)) }

  function RedisShare(store: Store, key: string, inclusive: bool): Limiter
  {
    Shared(CellOf(store, FailKey(key)), CellOf(store, LockKey(key)), inclusive)
  }

  function After(conf: Conf, l: Limiter, c: Equivalence.Call, key: string, now: real): Limiter
  {
    match c
    case Failed(k) => if k == key then Failed(conf, l, now) else l
    case Locked(_) => l
    case Reset(k) => if k == key then Cleared(l) else l
  }

  /** Either limiter, seen by one account: its own calls, and nobody else's. */
  lemma OneAccountsShare(conf: Conf, state: Equivalence.MemState, store: Store, inclusive: bool,
                         c: Equivalence.Call, key: string, now: real)
    ensures MemShare(Equivalence.MemStep(conf, state, c, now).0, key) == After(conf, MemShare(state, key), c, key, now)
    ensures RedisShare(Equivalence.RedisStep(conf, inclusive, store, c, now).0, key, inclusive)
         == After(conf, RedisShare(store, key, inclusive), c, key, now)
    ensures c == Equivalence.Locked(key) ==>
              && Equivalence.MemStep(conf, state, c, now).1 == Held(MemShare(state, key), now)
              && Equivalence.RedisStep(conf, inclusive, store, c, now).1
                 == Held(RedisShare(store, key, inclusive), now)
  {
    if c.Failed? {
      var r := ScriptCells(conf, CellOf(store, FailKey(c.key)), CellOf(store, LockKey(c.key)), now, inclusive);
      Equivalence.PutCellsOnly(store, c.key, r.0, r.1);
    } else if c.Reset? {
      Equivalence.PutCellsOnly(store, c.key, None, None);
    }
  }

  // ---------- logins of one account, side by side ----------

  /** The limiter's share, the passwords of logins that were told the account is not locked, and the
      outcomes of those that have compared but not yet reported. */
  datatype Guard = Guard(limiter: Limiter, asked: map<nat, string>, judged: map<nat, bool>)

  /** Steps of login k. It asks and compares on whatever the tables then are, from an address that may
      itself be locked. */
  datatype Action =
    | Ask(k: nat, db: Db, identifier: string, password: string, addressLocked: bool, now: real)
    | Compare(k: nat, db: Db, now: real)
    | Report(k: nat, now: real)

  predicate Aims(db: Db, identifier: string, password: string, user: UserId)
  {
    && Trim(identifier) != "" && password != ""
    && Rules.ResolveUser(db, Trim(identifier)) == Some(user)
  }

  function Step(conf: Conf, user: UserId, g: Guard, a: Action): Guard
  {
    match a
    case Ask(k, db, identifier, password, addressLocked, now) =>
      if k in g.asked || k in g.judged || !Aims(db, identifier, password, user) then g
      else if Held(g.limiter, now) || addressLocked then g
      else g.(asked := g.asked[k := password])
    case Compare(k, db, _) =>
      if k !in g.asked then g
      else if user !in db.users then g.(asked := g.asked - {k})
      else
        g.(asked := g.asked - {k}, judged := g.judged[k := db.users[user].password == Digest(g.asked[k])])
    case Report(k, now) =>
      if k !in g.judged then g
      else
        Guard(if g.judged[k] then Cleared(g.limiter) else Failed(conf, g.limiter, now), g.asked, g.judged - {k})
  }

  function Run(conf: Conf, user: UserId, g: Guard, actions: seq<Action>): Guard
    decreases |actions|
  {
    if actions == [] then g else Run(conf, user, Step(conf, user, g, actions[0]), actions[1..])
  }

  /** A password is compared. */
  predicate Compares(g: Guard, a: Action, user: UserId) { a.Compare? && a.k in g.asked && user in a.db.users }

  function Guesses(conf: Conf, user: UserId, g: Guard, actions: seq<Action>): nat
    decreases |actions|
  {
    if actions == [] then 0
    else
      (if Compares(g, actions[0], user) then 1 else 0)
      + Guesses(conf, user, Step(conf, user, g, actions[0]), actions[1..])
  }

  /** A right password is reported: the record is cleared. */
  predicate Clears(g: Guard, a: Action) { a.Report? && a.k in g.judged && g.judged[a.k] }

  function InFlight(g: Guard): nat { |g.asked| + |g.judged| }

  /** A login is in one place. */
  predicate Proper(g: Guard) { g.asked.Keys !! g.judged.Keys }

  /** A login by itself is the part of the login use case outside its transaction, with its limiter calls. */
  lemma LoneLoginIsCheckLogin(conf: Conf, user: UserId, l: Limiter, k: nat, db: Db, identifier: string,
                              password: string, addressLocked: bool, now: real)
    requires Aims(db, identifier, password, user)
    ensures var g := Guard(l, map[], map[]);
            var t := [Ask(k, db, identifier, password, addressLocked, now), Compare(k, db, now), Report(k, now)];
            var call := Rules.CheckLogin(db, identifier, password, Held(l, now) || addressLocked).1;
      && Guesses(conf, user, g, t) == (if call.NoCall? then 0 else 1)
      && Run(conf, user, g, t)
         == Guard(match call
                  case NoCall => l
                  case RecordFailures => Failed(conf, l, now)
                  case ClearFailures => Cleared(l), map[], map[])
  {
    var g := Guard(l, map[], map[]);
    var t := [Ask(k, db, identifier, password, addressLocked, now), Compare(k, db, now), Report(k, now)];
    var g1 := Step(conf, user, g, t[0]);
    var g2 := Step(conf, user, g1, t[1]);
    var g3 := Step(conf, user, g2, t[2]);
    assert t[1..] == [t[1], t[2]] && t[1..][1..] == [t[2]] && t[1..][1..][1..] == [];
    assert Run(conf, user, g, t) == Run(conf, user, g1, [t[1], t[2]]) == Run(conf, user, g2, [t[2]]) == g3;
    assert g3.asked == map[] && g3.judged == map[];
    assert !Compares(g, t[0], user) && !Compares(g2, t[2], user);
    assert Guesses(conf, user, g, t) == Guesses(conf, user, g1, [t[1], t[2]])
        == (if Compares(g1, t[1], user) then 1 else 0) + Guesses(conf, user, g2, [t[2]]);
  }

  // ---------- courses and attacks ----------

  /** Nondecreasing instants, and never more than c logins of the account in flight. */
  predicate Course(conf: Conf, user: UserId, g: Guard, actions: seq<Action>, c: nat, since: real)
    decreases |actions|
  {
    && InFlight(g) <= c
    && (actions == [] ||
        (since <= actions[0].now
         && Course(conf, user, Step(conf, user, g, actions[0]), actions[1..], c, actions[0].now)))
  }

  /** A course that ends before an instant and never clears the record. With `edge` false it reports no
      failure at the very instant the in-process lock ends. */
  predicate Attack(conf: Conf, user: UserId, g: Guard, actions: seq<Action>, c: nat, since: real, end: real,
                   edge: bool)
    decreases |actions|
  {
    && InFlight(g) <= c
    && (actions == [] ||
        (&& since <= actions[0].now < end
         && !Clears(g, actions[0])
         && (edge || g.limiter.Shared? || !actions[0].Report? || g.limiter.e.unlockedAt != Some(actions[0].now))
         && Attack(conf, user, Step(conf, user, g, actions[0]), actions[1..], c, actions[0].now, end, edge)))
  }

  function Last(actions: seq<Action>, since: real): real
  {
    if actions == [] then since else actions[|actions| - 1].now
  }

  // ---------- what both limiters have in common ----------

  /** Failures that lock: at least one. */
  function Limit(conf: Conf): nat { if conf.maxFailures < 1 then 1 else conf.maxFailures }

  /** Failures counted so far, the instant counting began, the instant the lock ends. */
  function Count(l: Limiter): int
  {
    match l
    case InProcess(e) => e.failures
    case Shared(fail, _, _) => if fail.Some? then fail.value.value else 0
  }

  function Opened(conf: Conf, l: Limiter): Option<real>
  {
    match l
    case InProcess(e) => e.firstSeen
    case Shared(fail, _, _) =>
      if fail.Some? && fail.value.deadline.Some? then Some(fail.value.deadline.value - conf.window) else None
  }

  function Until(l: Limiter): Option<real>
  {
    match l
    case InProcess(e) => e.unlockedAt
    case Shared(_, lock, _) => if lock.Some? then lock.value.deadline else None
  }

  /** A failure at this instant still adds to the failures counted so far. */
  predicate Counting(conf: Conf, l: Limiter, now: real)
  {
    match l
    case InProcess(e) => !WindowOver(conf, e, now)
    case Shared(fail, _, inclusive) => Alive(fail, now, inclusive)
  }

  /** What holds of an account's share: fewer failures than lock, none while it is locked; where an old window
      outlives a lock, the lock was the later to begin. */
  predicate Sane(conf: Conf, l: Limiter, since: real)
  {
    && 0 <= Count(l) < Limit(conf)
    && (l.Shared? && l.fail.Some? ==> l.fail.value.deadline.Some? && Count(l) > 0)
    && (l.Shared? && l.lock.Some? ==> l.lock.value.deadline.Some?)
    && (Opened(conf, l).Some? ==> Opened(conf, l).value <= since)
    && (Count(l) > 0 ==> Opened(conf, l).Some? && !Held(l, since))
    && (Count(l) == 0 && Opened(conf, l).Some? ==>
          Until(l).Some? && Opened(conf, l).value + conf.lockTtl <= Until(l).value)
  }

  /** A failure of an account that is not locked, in these terms, for either limiter. */
  lemma FailedCounts(conf: Conf, l: Limiter, since: real, now: real)
    requires Sane(conf, l, since) && since <= now && !Held(l, now)
    ensures var f := Failed(conf, l, now); var n := if Counting(conf, l, now) then Count(l) + 1 else 1;
      if n >= Limit(conf) then Until(f) == Some(now + conf.lockTtl) && Count(f) == 0
      else Until(f) == Until(l) && Count(f) == n
           && Opened(conf, f) == if Counting(conf, l, now) then Opened(conf, l) else Some(now)
  {
  }

  lemma StepKeepsSane(conf: Conf, user: UserId, g: Guard, a: Action, since: real)
    requires Sane(conf, g.limiter, since) && Proper(g) && since <= a.now
    ensures Sane(conf, Step(conf, user, g, a).limiter, a.now) && Proper(Step(conf, user, g, a))
  {
  }

  /** While the account is locked at least one of the c logins is no longer in flight: the one that locked. */
  predicate LockedOut(g: Guard, c: nat, since: real) { Held(g.limiter, since) ==> InFlight(g) < c }

  lemma SizeAfter<T>(m: map<nat, T>, k: nat)
    requires k in m
    ensures |m - {k}| == |m| - 1
  {
    assert (m - {k}).Keys == m.Keys - {k};
    assert |m.Keys| == |m| && |(m - {k}).Keys| == |m - {k}|;
  }

  /** How the logins in flight change. */
  lemma StepFlight(conf: Conf, user: UserId, g: Guard, a: Action)
    requires Proper(g)
    ensures var t := Step(conf, user, g, a);
      && (a.Ask? ==> t.judged == g.judged
                     && (t == g || (!Held(g.limiter, a.now) && |t.asked| == |g.asked| + 1)))
      && (a.Compare? ==>
            && t.limiter == g.limiter && InFlight(t) <= InFlight(g)
            && |t.asked| == |g.asked| - (if a.k in g.asked then 1 else 0)
            && |t.judged| == |g.judged| + (if Compares(g, a, user) then 1 else 0))
      && (a.Report? ==> t.asked == g.asked && |t.judged| == |g.judged| - (if a.k in g.judged then 1 else 0))
  {
    if a.Compare? && a.k in g.asked { SizeAfter(g.asked, a.k); }
    if a.Report? && a.k in g.judged { SizeAfter(g.judged, a.k); }
  }

  lemma StepKeepsLockedOut(conf: Conf, user: UserId, g: Guard, a: Action, c: nat, since: real)
    requires Sane(conf, g.limiter, since) && Proper(g) && since <= a.now && LockedOut(g, c, since) && InFlight(g) <= c
    ensures LockedOut(Step(conf, user, g, a), c, a.now)
  {
    StepFlight(conf, user, g, a);
  }

  /** What holds of the guard after any course of logins, c at most in flight. */
  ghost predicate Steady(conf: Conf, g: Guard, c: nat, since: real)
  {
    Sane(conf, g.limiter, since) && Proper(g) && LockedOut(g, c, since) && InFlight(g) <= c
  }

  lemma StepKeepsSteady(conf: Conf, user: UserId, g: Guard, a: Action, c: nat, since: real)
    requires Steady(conf, g, c, since) && since <= a.now && InFlight(Step(conf, user, g, a)) <= c
    ensures Steady(conf, Step(conf, user, g, a), c, a.now)
  {
    StepKeepsSane(conf, user, g, a, since);
    StepKeepsLockedOut(conf, user, g, a, c, since);
  }

  lemma {:induction false} CourseKeepsSteady(conf: Conf, user: UserId, g: Guard, actions: seq<Action>, c: nat,
                                             since: real)
    requires Steady(conf, g, c, since) && Course(conf, user, g, actions, c, since)
    ensures Steady(conf, Run(conf, user, g, actions), c, Last(actions, since)) && since <= Last(actions, since)
    decreases |actions|
  {
    if actions != [] {
      StepKeepsSteady(conf, user, g, actions[0], c, since);
      CourseKeepsSteady(conf, user, Step(conf, user, g, actions[0]), actions[1..], c, actions[0].now);
    }
  }

  // ---------- the guesses an account still allows ----------

  /** When a failure next counts. */
  function From(l: Limiter, now: real): real
  {
    if Until(l).Some? && now < Until(l).value then Until(l).value else now
  }

  /** The failures that can still be counted before `end`, the locking one included: none if a lock lasts
      beyond it; what the open window lacks if it stays open until then; all the limit allows if no window is
      open any more; and if the window closes in between, first all but the last it lacks, and then a full
      window. */
  function Budget(conf: Conf, l: Limiter, now: real, end: real, edge: bool): nat
    requires Count(l) < Limit(conf)
  {
    if Until(l).Some? && end <= Until(l).value then 0
    else if !Counting(conf, l, From(l, now)) || Opened(conf, l).None? || (!edge && Count(l) <= 0) || Count(l) < 0
    then Limit(conf)
    else if end <= Opened(conf, l).value + conf.window then Limit(conf) - Count(l)
    else if Count(l) == Limit(conf) - 1 then Limit(conf)
    else 2 * Limit(conf) - 1 - Count(l)
  }

  /** The comparisons still possible, with at most c logins in flight: while the account is locked those that
      have asked, and beyond that the budget and c - 1 more, for those in flight when the next lock falls. */
  function Potential(conf: Conf, g: Guard, c: nat, now: real, end: real, edge: bool): int
    requires Count(g.limiter) < Limit(conf)
  {
    if Until(g.limiter).Some? && end <= Until(g.limiter).value then |g.asked|
    else
      Budget(conf, g.limiter, now, end, edge) + c - 1
      + (if Held(g.limiter, now) then |g.asked| else -|g.judged|)
  }

  predicate Short(conf: Conf, start: real, end: real)
  {
    start < end && end - start <= conf.window && end - start <= conf.lockTtl
  }

  lemma WaitingGainsNothing(conf: Conf, g: Guard, c: nat, since: real, now: real, end: real, edge: bool)
    requires Sane(conf, g.limiter, since) && since <= now < end
    ensures Potential(conf, g, c, now, end, edge) <= Potential(conf, g, c, since, end, edge)
  {
  }

  /** A counted failure spends one, and a locking one all. */
  lemma FailureSpends(conf: Conf, l: Limiter, since: real, now: real, end: real, edge: bool)
    requires Sane(conf, l, since) && since <= now < end && !Held(l, now) && Short(conf, now, end)
    requires edge || l.Shared? || (l.e.unlockedAt != Some(now) && conf.window <= conf.lockTtl)
    ensures Count(Failed(conf, l, now)) < Limit(conf)
    ensures var f := Failed(conf, l, now);
      || (Until(f).Some? && end <= Until(f).value)
      || (Until(f) == Until(l) && !Held(f, now)
          && Budget(conf, f, now, end, edge) + 1 <= Budget(conf, l, now, end, edge))
  {
    FailedCounts(conf, l, since, now);
  }

  lemma BudgetIsLeft(conf: Conf, l: Limiter, now: real, end: real, edge: bool)
    requires Sane(conf, l, now) && now < end && (Until(l).Some? ==> Until(l).value < end)
    ensures Budget(conf, l, now, end, edge) >= 1
  {
  }

  lemma StepSpends(conf: Conf, user: UserId, g: Guard, a: Action, c: nat, end: real, edge: bool)
    requires Sane(conf, g.limiter, a.now) && a.now < end && Short(conf, a.now, end) && !Clears(g, a)
    requires edge || g.limiter.Shared? || !a.Report? || g.limiter.e.unlockedAt != Some(a.now)
    requires edge || conf.window <= conf.lockTtl
    requires Proper(g) && InFlight(g) <= c
    ensures Count(Step(conf, user, g, a).limiter) < Limit(conf)
    ensures Potential(conf, Step(conf, user, g, a), c, a.now, end, edge)
            + (if Compares(g, a, user) then 1 else 0) <= Potential(conf, g, c, a.now, end, edge)
  {
    var l, now := g.limiter, a.now;
    StepFlight(conf, user, g, a);
    if a.Report? && a.k in g.judged {
      if !Held(l, now) {
        BudgetIsLeft(conf, l, now, end, edge);
        FailureSpends(conf, l, now, now, end, edge);
      } else {
        assert Failed(conf, l, now) == l;
      }
    }
  }

  lemma {:induction false} GuessesWithinPotential(conf: Conf, user: UserId, g: Guard, actions: seq<Action>, c: nat,
                                                  since: real, end: real, edge: bool)
    requires Sane(conf, g.limiter, since) && Proper(g) && Short(conf, since, end)
    requires Attack(conf, user, g, actions, c, since, end, edge) && (edge || conf.window <= conf.lockTtl)
    ensures Guesses(conf, user, g, actions) <= Potential(conf, g, c, since, end, edge)
    decreases |actions|
  {
    if actions == [] {
      if !(Until(g.limiter).Some? && end <= Until(g.limiter).value) { BudgetIsLeft(conf, g.limiter, since, end, edge); }
    } else {
      var a := actions[0];
      WaitingGainsNothing(conf, g, c, since, a.now, end, edge);
      StepKeepsSane(conf, user, g, a, since);
      assert Sane(conf, g.limiter, a.now);
      StepSpends(conf, user, g, a, c, end, edge);
      GuessesWithinPotential(conf, user, Step(conf, user, g, a), actions[1..], c, a.now, end, edge);
    }
  }

  // ---------- the bounds ----------

  function Max(a: int, b: int): int { if a < b then b else a }

  /** An account nobody has failed on, with either limiter. */
  predicate Blank(l: Limiter) { l == Cleared(l) }

  /** Whatever came before, whatever the addresses, with at most c logins of the account in flight at any time:
      in a period no longer than window and lock in which no right password is reported, fewer than
      2 * (maxFailures + c - 1) passwords of the account are compared. With the shared limiter, or if no failure
      falls on the very instant a lock ends and the window is no longer than the lock, it is at most c - 1 more
      than the larger of 2 * maxFailures - 2 and maxFailures + c - 1. For an account without record, and nobody in
      flight, it is at most maxFailures + c - 1. */
  lemma LaterIsSteady(conf: Conf, g: Guard, c: nat, since: real, now: real)
    requires Steady(conf, g, c, since) && since <= now
    ensures Steady(conf, g, c, now)
  {
  }

  lemma GuessesFromSteady(conf: Conf, user: UserId, g: Guard, during: seq<Action>, c: nat, start: real, end: real,
                          edge: bool)
    requires Steady(conf, g, c, start) && c >= 1 && Short(conf, start, end)
    requires Attack(conf, user, g, during, c, start, end, edge)
    ensures var n := Guesses(conf, user, g, during);
      && n <= 2 * (Limit(conf) + c - 1) - 1
      && (g.limiter.Shared? || (!edge && conf.window <= conf.lockTtl) ==>
            n <= Max(2 * Limit(conf) - 2, Limit(conf) + c - 1) + c - 1)
      && (Blank(g.limiter) && InFlight(g) == 0 ==> n <= Limit(conf) + c - 1)
  {
    AttackMayUseEdges(conf, user, g, during, c, start, end, edge);
    GuessesWithinPotential(conf, user, g, during, c, start, end, true);
    if g.limiter.Shared? {
      SharedHasNoEdge(conf, g, c, start, end);
    } else if !edge && conf.window <= conf.lockTtl {
      GuessesWithinPotential(conf, user, g, during, c, start, end, false);
    }
  }

  lemma GuessesAreFew(conf: Conf, user: UserId, blank: Limiter, before: seq<Action>, during: seq<Action>, c: nat,
                      start: real, end: real, edge: bool)
    requires Blank(blank) && c >= 1 && Short(conf, start, end)
    requires Course(conf, user, Guard(blank, map[], map[]), before, c, 0.0) && Last(before, 0.0) <= start
    requires var g := Run(conf, user, Guard(blank, map[], map[]), before);
             Attack(conf, user, g, during, c, start, end, edge)
    ensures var g := Run(conf, user, Guard(blank, map[], map[]), before); var n := Guesses(conf, user, g, during);
      && n <= 2 * (Limit(conf) + c - 1) - 1
      && (blank.Shared? || (!edge && conf.window <= conf.lockTtl) ==>
            n <= Max(2 * Limit(conf) - 2, Limit(conf) + c - 1) + c - 1)
      && (Blank(g.limiter) && InFlight(g) == 0 ==> n <= Limit(conf) + c - 1)
  {
    var g0 := Guard(blank, map[], map[]);
    var g := Run(conf, user, g0, before);
    CourseKeepsSteady(conf, user, g0, before, c, 0.0);
    LaterIsSteady(conf, g, c, Last(before, 0.0), start);
    SharedStaysShared(conf, user, g0, before);
    GuessesFromSteady(conf, user, g, during, c, start, end, edge);
  }

  lemma {:induction false} AttackMayUseEdges(conf: Conf, user: UserId, g: Guard, actions: seq<Action>, c: nat,
                                             since: real, end: real, edge: bool)
    requires Attack(conf, user, g, actions, c, since, end, edge)
    ensures Attack(conf, user, g, actions, c, since, end, true)
    decreases |actions|
  {
    if actions != [] {
      AttackMayUseEdges(conf, user, Step(conf, user, g, actions[0]), actions[1..], c, actions[0].now, end, edge);
    }
  }

  lemma {:induction false} SharedStaysShared(conf: Conf, user: UserId, g: Guard, actions: seq<Action>)
    ensures Run(conf, user, g, actions).limiter.Shared? == g.limiter.Shared?
    decreases |actions|
  {
    if actions != [] { SharedStaysShared(conf, user, Step(conf, user, g, actions[0]), actions[1..]); }
  }

  /** The shared limiter forgets its window when it locks. */
  lemma SharedHasNoEdge(conf: Conf, g: Guard, c: nat, now: real, end: real)
    requires g.limiter.Shared? && Sane(conf, g.limiter, now)
    ensures Potential(conf, g, c, now, end, true) == Potential(conf, g, c, now, end, false)
  {
  }
}
