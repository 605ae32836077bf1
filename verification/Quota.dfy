/** The quota guard in front of the paid upstream: count first, persist, only then call; once the limit
    is reached, answer from the stand-in. The count must hold across failed saves, crashes and restarts. */
module Quota {
  import opened Prelude

  /** What befalls one save. The file is replaced atomically, so a crash leaves the previous content or
      the new one; an error is raised before the replacement. */
  datatype Fate = Saved | SaveFails | CrashBeforeReplace | CrashAfterReplace

  /** What became of one call to the upstream. */
  datatype Answer = RealCall | StandIn | Raised | Died

  datatype Process = Process(used: int, degraded: bool)

  /** The persisted count: None when the file is missing or unreadable. */
  function Loaded(file: Option<int>): int
  {
    if file.Some? then file.value else 0
  }

  /** The file and the process after one attempt to take a unit of quota. A process that died is gone. */
  function Acquire(file: Option<int>, p: Process, limit: int, fate: Fate): (Option<int>, Option<Process>, Answer)
  {
    if p.degraded || p.used >= limit then (file, Some(p.(degraded := true)), StandIn)
    else
      var counted := p.(used := p.used + 1);
      match fate
      case Saved => (Some(counted.used), Some(counted), RealCall)
      case SaveFails => (file, Some(counted), Raised)
      case CrashBeforeReplace => (file, None, Died)
      case CrashAfterReplace => (Some(counted.used), None, Died)
  }

  class CounterFile {
    var content: Option<int>

    constructor (content: Option<int>)
      ensures this.content == content
    {
      this.content := content;
    }
  }

  class QuotaProvider {
    const file: CounterFile
    const limit: int
    var used: int
    var degraded: bool
    var alive: bool

    function Model(): Option<Process>
      reads this
    {
      if alive then Some(Process(used, degraded)) else None
    }

    constructor (file: CounterFile, limit: int)
      ensures this.file == file && this.limit == limit
      ensures Model() == Some(Process(Loaded(file.content), false))
    {
      this.file, this.limit := file, limit;
      used, degraded, alive := Loaded(file.content), false, true;
    }

    /** Writes a temporary file and moves it over the counter. */
    method Save(fate: Fate) returns (ok: bool)
      requires alive
      modifies file, `alive
      ensures file.content == if fate.Saved? || fate.CrashAfterReplace? then Some(used) else old(file.content)
      ensures alive == (fate.Saved? || fate.SaveFails?)
      ensures ok <==> fate.Saved?
    {
      if fate == SaveFails {
        return false;
      }
      if fate == CrashBeforeReplace {
        alive := false;
        return false;
      }
      file.content := Some(used);
      alive := fate == Saved;
      ok := alive;
    }

    method TakeOne(fate: Fate) returns (answer: Answer)
      requires alive
      modifies this, file
      ensures (file.content, Model(), answer)
           == Acquire(old(file.content), old(Process(used, degraded)), limit, fate)
    {
      if degraded || used >= limit {
        degraded := true;
        return StandIn;
      }
      used := used + 1;
      var ok := Save(fate);
      answer := if ok then RealCall else if alive then Raised else Died;
    }

    /** One streamed completion: the caller sees the upstream's events, the stand-in's, or an error. */
    method ChatStream<Event>(fate: Fate, upstream: seq<Event>, standIn: seq<Event>)
      returns (events: seq<Event>, answer: Answer)
      requires alive
      modifies this, file
      ensures (file.content, Model(), answer)
           == Acquire(old(file.content), old(Process(used, degraded)), limit, fate)
      ensures events == match answer
                        case RealCall => upstream
                        case StandIn => standIn
                        case _ => []
    {
      answer := TakeOne(fate);
      match answer
      case RealCall => events := upstream;
      case StandIn => events := standIn;
      case _ => events := [];
    }
  }

  // ---------- runs: processes come and go, the file stays ----------

  datatype Step = Start | Call(fate: Fate) | Kill

  /** `called` and `lost` count the calls made and the units that were counted but brought no call. */
  datatype World = World(file: Option<int>, process: Option<Process>, called: nat, lost: nat)

  function Happens(w: World, limit: int, s: Step): World
  {
    match s
    case Start => w.(process := Some(Process(Loaded(w.file), false)))
    case Kill => w.(process := None)
    case Call(fate) =>
      if w.process.None? then w
      else
        var (file, process, answer) := Acquire(w.file, w.process.value, limit, fate);
        World(file, process,
              if answer.RealCall? then w.called + 1 else w.called,
              if answer.Raised? || answer.Died? then w.lost + 1 else w.lost)
  }

  function Run(w: World, limit: int, steps: seq<Step>): World
    decreases |steps|
  {
    if steps == [] then w else Run(Happens(w, limit, steps[0]), limit, steps[1..])
  }

  function Max(a: int, b: int): int { if a < b then b else a }

  /** Counting from `start` persisted units: the file covers every real call and nothing else but the
      losses, a running process never knows less than the file, and neither exceeds the limit. */
  ghost predicate Sound(w: World, start: int, limit: int)
  {
    && start + w.called <= Loaded(w.file) <= Max(start, limit)
    && Loaded(w.file) <= start + w.called + w.lost
    && (w.process.Some? ==>
          && Loaded(w.file) <= w.process.value.used <= Max(start, limit)
          && w.process.value.used <= start + w.called + w.lost
          && (w.process.value.degraded ==> w.process.value.used >= limit))
  }

  lemma StepIsSound(w: World, start: int, limit: int, s: Step)
    requires Sound(w, start, limit)
    ensures Sound(Happens(w, limit, s), start, limit)
  {
  }

  lemma {:induction false} RunIsSound(w: World, start: int, limit: int, steps: seq<Step>)
    requires Sound(w, start, limit)
    ensures Sound(Run(w, limit, steps), start, limit)
    decreases |steps|
  {
    if steps != [] {
      StepIsSound(w, start, limit, steps[0]);
      RunIsSound(Happens(w, limit, steps[0]), start, limit, steps[1..]);
    }
  }

  /** From any counter file, after any calls, failed saves, crashes and restarts: the real calls made
      never exceed what the persisted count has grown by, the count never passes the limit (or where it
      stood already), and it overstates the calls by no more than the units lost to errors and crashes. */
  lemma SpendingIsCovered(file: Option<int>, limit: int, steps: seq<Step>)
    ensures var w := Run(World(file, None, 0, 0), limit, steps);
            && Loaded(file) + w.called <= Loaded(w.file) <= Max(Loaded(file), limit)
            && Loaded(w.file) <= Loaded(file) + w.called + w.lost
  {
    RunIsSound(World(file, None, 0, 0), Loaded(file), limit, steps);
  }

  ghost predicate NoRestart(steps: seq<Step>) { Start !in steps }

  /** A degraded process makes no further real call, whatever happens until the next start. */
  lemma {:induction false} DegradedStaysDegraded(w: World, limit: int, steps: seq<Step>)
    requires w.process.Some? ==> w.process.value.degraded
    requires NoRestart(steps)
    ensures var w' := Run(w, limit, steps); w'.called == w.called && w'.file == w.file
    decreases |steps|
  {
    if steps != [] {
      assert steps[0] in steps && steps[0] != Start;
      assert forall s :: s in steps[1..] ==> s in steps;
      DegradedStaysDegraded(Happens(w, limit, steps[0]), limit, steps[1..]);
    }
  }

  /** Once the persisted count has reached the limit no restart brings the quota back. */
  lemma {:induction false} ExhaustedForever(w: World, limit: int, steps: seq<Step>)
    requires Loaded(w.file) >= limit
    requires w.process.Some? ==> w.process.value.used >= limit
    ensures var w' := Run(w, limit, steps); w'.called == w.called && w'.file == w.file
    decreases |steps|
  {
    if steps != [] {
      ExhaustedForever(Happens(w, limit, steps[0]), limit, steps[1..]);
    }
  }

  /** A quota that meets no error or crash is spent to the last unit: n calls from a fresh start give
      min(n, limit) real ones. */
  lemma {:induction false} QuietCallsSpendAll(w: World, limit: int, n: nat)
    requires w.process.Some? && !w.process.value.degraded
    requires w.file.Some? || w.process.value.used == 0
    requires Loaded(w.file) == w.process.value.used
    ensures Run(w, limit, seq(n, _ => Call(Saved))).called
         == w.called + Max(0, if n <= limit - w.process.value.used then n else limit - w.process.value.used)
    decreases n
  {
    if n > 0 {
      var calls := seq(n, _ => Call(Saved));
      assert calls[1..] == seq(n - 1, _ => Call(Saved));
      if w.process.value.used < limit {
        QuietCallsSpendAll(Happens(w, limit, calls[0]), limit, n - 1);
      } else {
        assert NoRestart(calls[1..]);
        DegradedStaysDegraded(Happens(w, limit, calls[0]), limit, calls[1..]);
      }
    }
  }

  function Min(a: int, b: int): int { if a < b then a else b }

  function Calls(fates: seq<Fate>): seq<Step> { seq(|fates|, k requires 0 <= k < |fates| => Call(fates[k])) }

  /** A save that fails costs its unit as a call does: while a process lives, every attempt counts until the
      limit is reached, and each is a real call or a lost unit. */
  lemma {:induction false} EveryAttemptCounts(w: World, limit: int, fates: seq<Fate>)
    requires w.process.Some? && !w.process.value.degraded
    requires forall k | 0 <= k < |fates| :: fates[k].Saved? || fates[k].SaveFails?
    ensures var taken := Max(0, Min(|fates|, limit - w.process.value.used)); var after := Run(w, limit, Calls(fates));
      && after.process.Some? && after.process.value.used == w.process.value.used + taken
      && after.called + after.lost == w.called + w.lost + taken
    decreases |fates|
  {
    if fates != [] {
      assert Calls(fates)[1..] == Calls(fates[1..]) && Calls(fates)[0] == Call(fates[0]);
      if w.process.value.used < limit {
        EveryAttemptCounts(Happens(w, limit, Call(fates[0])), limit, fates[1..]);
      } else {
        DegradedCounts(Happens(w, limit, Call(fates[0])), limit, Calls(fates[1..]));
      }
    }
  }

  lemma {:induction false} DegradedCounts(w: World, limit: int, steps: seq<Step>)
    requires w.process.Some? && w.process.value.degraded
    requires forall k | 0 <= k < |steps| :: steps[k].Call?
    ensures Run(w, limit, steps) == w
    decreases |steps|
  {
    if steps != [] { DegradedCounts(Happens(w, limit, steps[0]), limit, steps[1..]); }
  }

  /** A real call is made only when the file already holds the count that includes it. */
  lemma CountedBeforeCalled(file: Option<int>, p: Process, limit: int, fate: Fate)
    ensures var (after, process, answer) := Acquire(file, p, limit, fate);
      answer.RealCall? ==> after == Some(p.used + 1) && process == Some(p.(used := p.used + 1)) && p.used < limit
  {
  }

  /** After a crash the next process starts from the count before the attempt or from the one after it,
      according to whether the file had been replaced; the attempt made no call either way. */
  lemma CrashCostsAtMostOne(w: World, limit: int, replaced: bool)
    requires w.process.Some? && !w.process.value.degraded && w.process.value.used < limit
    ensures var crash := Call(if replaced then CrashAfterReplace else CrashBeforeReplace);
            var after := Run(w, limit, [crash, Start]);
      && after.called == w.called
      && after.process == Some(Process(if replaced then w.process.value.used + 1 else Loaded(w.file), false))
  {
    var crash := Call(if replaced then CrashAfterReplace else CrashBeforeReplace);
    assert [crash, Start][1..] == [Start] && [Start][1..] == [];
    assert Run(Happens(w, limit, crash), limit, [Start])
        == Run(Happens(Happens(w, limit, crash), limit, Start), limit, []);
  }

  /** The count is only as good as the file: a file that disappears gives its units back. */
  lemma LostFileRefunds(limit: int)
    requires limit > 0
    ensures var spent := World(Some(limit), None, limit, 0);
            Run(spent.(file := None), limit, [Start, Call(Saved)]).called == limit + 1
  {
    var w := World(None, None, limit, 0);
    assert [Start, Call(Saved)][1..] == [Call(Saved)] && [Call(Saved)][1..] == [];
    assert Run(Happens(w, limit, Start), limit, [Call(Saved)])
        == Run(Happens(Happens(w, limit, Start), limit, Call(Saved)), limit, []);
  }
}
