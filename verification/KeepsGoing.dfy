/**
 What keeps going while nothing is stopped: recurring processes run again and again, crashed
 ones come back if they are configured to, a Restart starts its process and frees it from
 whatever startup had blocked it for, and a waiting gate hears of all it waits for.
 */
module KeepsGoing {
  import opened Wrappers
  import opened Depends
  import opened Startup
  import opened Protocol
  import opened Progress
  import opened LaunchOrder
  import opened StartupEnds
  import opened GateLaunch
  import opened HealthChecks

  /** A run from `s` to `t` in which `k` more runs are forked, all of `n` and for this cause. */
  ghost predicate Forks(cfg: Config, s: State, acts: seq<Action>, t: State, n: string, cause: Cause, k: nat) {
    && Execute(cfg, s, acts) == Some(t) && t.shared.cancelled == s.shared.cancelled && t.start == s.start
    && |t.shared.launches| == |s.shared.launches| + k
    && (forall i :: 0 <= i < |s.shared.launches| ==> t.shared.launches[i] == s.shared.launches[i])
    && forall i :: |s.shared.launches| <= i < |t.shared.launches| ==> t.shared.launches[i] == Launch(n, cause)
  }

  lemma ForksNone(cfg: Config, s: State, n: string, cause: Cause)
    ensures Forks(cfg, s, [], s, n, cause, 0)
  {
    assert Execute(cfg, s, []) == Some(s);
  }

  lemma ForksOne(cfg: Config, s: State, a: Action, t: State, n: string, cause: Cause, k: nat)
    requires Next(cfg, s, a) == Some(t) && t.shared.cancelled == s.shared.cancelled && t.start == s.start
    requires t.shared.launches == s.shared.launches + (if k == 1 then [Launch(n, cause)] else []) && k <= 1
    ensures Forks(cfg, s, [a], t, n, cause, k)
  {
    hide Next;
    assert [a][..0] == [] && Execute(cfg, s, []) == Some(s);
  }

  lemma ForksJoin(cfg: Config, s: State, a: seq<Action>, t: State, j: nat, b: seq<Action>, u: State, k: nat, n: string,
                  cause: Cause)
    requires Forks(cfg, s, a, t, n, cause, j) && Forks(cfg, t, b, u, n, cause, k)
    ensures Forks(cfg, s, a + b, u, n, cause, j + k)
  {
    ExecuteJoin(cfg, s, a, b);
    hide Execute;
  }

  // ---------------------------------------------------------------- recurring processes

  /** Steps of the starter of `n`, and runs that end of themselves. */
  ghost predicate LoopSteps(acts: seq<Action>, n: string) {
    forall i :: 0 <= i < |acts| ==> (acts[i].StarterStep? && acts[i].name == n) || acts[i].RunExits?
  }

  /** A recurring process in its loop, or about to enter it with all its dependencies ready. */
  ghost predicate Recurs(cfg: Config, s: State, n: string) {
    && Recurring(cfg, n) && n in s.starter && s.start.Up? && !s.shared.cancelled
    && (InLoop(s.starter[n])
        || (AllReady(cfg, s.shared, n)
            && ((s.starter[n].Await? && s.starter[n].i <= |Deps(cfg, n)|)
                || (s.starter[n].Select? && s.starter[n].i < |Deps(cfg, n)|))))
  }

  /** How many steps there are to the next fork. */
  function ToNextFork(cfg: Config, s: State, n: string): nat {
    if n !in s.starter then 0
    else
      match s.starter[n]
      case LoopFork => 0
      case LoopRun => 1
      case LoopSelect => 2
      case LoopSettle => 2
      case LoopDiscard(_) => 3
      case LoopWait(r) => if IsLive(s.shared, r) then 4 else 3
      case LoopAdopt(_) => 5
      case Await(i) => if i <= |Deps(cfg, n)| then 4 + 2 * (|Deps(cfg, n)| - i) else 0
      case Select(i) => if i <= |Deps(cfg, n)| then 3 + 2 * (|Deps(cfg, n)| - i) else 0
      case _ => 0
  }

  /** The next step of a recurring process, or of its run. */
  lemma RecursOn(cfg: Config, s: State, n: string) returns (a: Action, t: State)
    requires Recurs(cfg, s, n)
    ensures (a.StarterStep? && a.name == n) || a.RunExits?
    ensures Next(cfg, s, a) == Some(t) && Recurs(cfg, t, n) && t.start == s.start
    ensures if s.starter[n].LoopFork? then t.shared.launches == s.shared.launches + [Launch(n, ByLoop)]
            else t.shared.launches == s.shared.launches && ToNextFork(cfg, t, n) < ToNextFork(cfg, s, n)
  {
    if s.starter[n].LoopWait? && IsLive(s.shared, s.starter[n].r) {
      a := RunExits(s.starter[n].r);
    } else {
      a := StarterStep(n, TheDependency, true);
    }
    t := Next(cfg, s, a).value;
  }

  lemma {:induction false} RecursToFork(cfg: Config, s: State, n: string) returns (acts: seq<Action>, t: State)
    requires Recurs(cfg, s, n)
    ensures Forks(cfg, s, acts, t, n, ByLoop, 1) && Recurs(cfg, t, n) && LoopSteps(acts, n)
    decreases ToNextFork(cfg, s, n)
  {
    var a, next := RecursOn(cfg, s, n);
    if s.starter[n].LoopFork? {
      hide Next, Recurs;
      ForksOne(cfg, s, a, next, n, ByLoop, 1);
      acts, t := [a], next;
    } else {
      var rest, end := RecursToFork(cfg, next, n);
      assert next.shared.cancelled == s.shared.cancelled && next.shared.launches == s.shared.launches + [];
      hide Next, Recurs;
      ForksOne(cfg, s, a, next, n, ByLoop, 0);
      ForksJoin(cfg, s, [a], next, 0, rest, end, 1, n, ByLoop);
      acts, t := [a] + rest, end;
    }
  }

  lemma {:induction false} RecursTimes(cfg: Config, s: State, n: string, k: nat) returns (acts: seq<Action>, t: State)
    requires Recurs(cfg, s, n)
    ensures Forks(cfg, s, acts, t, n, ByLoop, k) && Recurs(cfg, t, n) && LoopSteps(acts, n)
    decreases k
  {
    if k == 0 {
      ForksNone(cfg, s, n, ByLoop);
      acts, t := [], s;
    } else {
      var first, next := RecursToFork(cfg, s, n);
      var rest, end := RecursTimes(cfg, next, n, k - 1);
      hide Recurs;
      ForksJoin(cfg, s, first, next, 1, rest, end, k - 1, n, ByLoop);
      acts, t := first + rest, end;
    }
  }

  /**
   In every run, until a Stop: a recurring process in its loop, or at its dependencies when they
   are all ready, can go on to run any number of times more, by its own steps.
   */
  lemma RecurringRunsAgain(cfg: Config, s: State, n: string, k: nat)
    requires WellFormed(cfg) && Reachable(cfg, s) && s.start.Up? && !s.shared.cancelled && Recurring(cfg, n)
    requires n in s.starter && (InLoop(s.starter[n]) ||
      (AllReady(cfg, s.shared, n) && (s.starter[n].Await? || s.starter[n].Select?)))
    ensures exists acts, t :: Forks(cfg, s, acts, t, n, ByLoop, k) && LoopSteps(acts, n)
  {
    ReachableIsGood(cfg, s);
    GoodIsCore(cfg, s);
    assert NameOk(cfg, s, n);
    var acts, t := RecursTimes(cfg, s, n, k);
  }

  lemma ReachableIsGood(cfg: Config, s: State)
    requires WellFormed(cfg) && Reachable(cfg, s)
    ensures Good(cfg, s)
  {
    var before :| Execute(cfg, InitialState(cfg), before) == Some(s);
    GoodHolds(cfg, before);
  }

  lemma StaysInLoop(cfg: Config, sh: Shared, locked: bool, n: string, pc: Pc, pick: Pick, forked: bool, mv: Move)
    requires MoveStarter(cfg, sh, locked, n, pc, pick, forked) == Some(mv) && InLoop(pc)
    ensures InLoop(mv.pc) || (mv.pc.End? && sh.cancelled)
  {
  }

  lemma LoopStays(cfg: Config, s: State, a: Action, n: string)
    requires UndealtOk(cfg, s) && Next(cfg, s, a).Some? && n in s.starter && InLoop(s.starter[n])
    ensures var t := Next(cfg, s, a).value;
            n in t.starter && (InLoop(t.starter[n]) || (t.starter[n].End? && s.shared.cancelled))
  {
    hide MoveStart, MoveStarter, MoveWaiter, MoveRequest, Apply;
    match a
    case StartStep(forked) =>
      var mv := MoveStart(cfg, s.shared, s.start, forked).value;
      StartPlaces(cfg, s.shared, s.start, forked, mv);
      StartSpawns(cfg, s.shared, s.start, forked, mv);
    case StarterStep(m, pick, forked) =>
      if m == n {
        StaysInLoop(cfg, s.shared, Locked(s), m, s.starter[m], pick, forked,
                    MoveStarter(cfg, s.shared, Locked(s), m, s.starter[m], pick, forked).value);
      }
    case _ =>
  }

  /** The loop is left only after a Stop. */
  lemma LoopsUntilStopped(cfg: Config, s: State, a: Action, n: string)
    requires WellFormed(cfg) && Reachable(cfg, s) && Next(cfg, s, a).Some? && n in s.starter && InLoop(s.starter[n])
    requires !s.shared.cancelled
    ensures n in Next(cfg, s, a).value.starter && InLoop(Next(cfg, s, a).value.starter[n])
  {
    ReachableIsGood(cfg, s);
    GoodIsCore(cfg, s);
    hide Next;
    LoopStays(cfg, s, a, n);
  }

  /** Where the starter of a recurring process without dependencies can be. */
  ghost predicate AtLoop(s: State, n: string) {
    n in s.starter && (s.starter[n].Idle? || InLoop(s.starter[n]) || (s.starter[n].End? && s.shared.cancelled))
  }

  lemma StartLoops(cfg: Config, sh: Shared, pc: StartPc, forked: bool, mv: StartMove)
    requires MoveStart(cfg, sh, pc, forked) == Some(mv) && mv.spawn.Some?
    ensures pc.NextProcess? && pc.i < |cfg.order|
    ensures Recurring(cfg, cfg.order[pc.i]) && Deps(cfg, cfg.order[pc.i]) == [] ==> InLoop(mv.spawn.value)
  {
  }

  lemma AtLoopStays(cfg: Config, s: State, a: Action, n: string)
    requires UndealtOk(cfg, s) && Next(cfg, s, a).Some? && AtLoop(s, n) && Recurring(cfg, n) && Deps(cfg, n) == []
    ensures AtLoop(Next(cfg, s, a).value, n)
  {
    PlaceStays(cfg, s, a, n);
    if InLoop(s.starter[n]) {
      LoopStays(cfg, s, a, n);
    } else {
      hide MoveStart, MoveStarter, MoveWaiter, MoveRequest, Apply;
      match a
      case StartStep(forked) =>
        var mv := MoveStart(cfg, s.shared, s.start, forked).value;
        if mv.spawn.Some? { StartLoops(cfg, s.shared, s.start, forked, mv); }
      case StarterStep(m, pick, forked) =>
        StarterEffects(cfg, s.shared, Locked(s), m, s.starter[m], pick, forked,
                       MoveStarter(cfg, s.shared, Locked(s), m, s.starter[m], pick, forked).value);
      case _ =>
    }
  }

  lemma {:induction false} AtLoopHolds(cfg: Config, acts: seq<Action>, n: string)
    requires WellFormed(cfg) && After(cfg, acts).Some? && Recurring(cfg, n) && Deps(cfg, n) == []
    ensures AtLoop(After(cfg, acts).value, n)
  {
    hide Next, Invariant;
    if acts != [] {
      var last := |acts| - 1;
      AtLoopHolds(cfg, acts[..last], n);
      InvariantHolds(cfg, acts[..last]);
      assert UndealtOk(cfg, After(cfg, acts[..last]).value) by { InvariantUndealt(cfg, After(cfg, acts[..last]).value); }
      AtLoopStays(cfg, After(cfg, acts[..last]).value, acts[last], n);
    }
  }

  lemma InvariantUndealt(cfg: Config, s: State)
    requires Invariant(cfg, s)
    ensures UndealtOk(cfg, s)
  {
  }

  /** A recurring process without dependencies is in its loop once Start is over, until a Stop. */
  lemma RecurringStarts(cfg: Config, acts: seq<Action>, n: string)
    requires WellFormed(cfg) && After(cfg, acts).Some? && Recurring(cfg, n) && Deps(cfg, n) == []
    requires After(cfg, acts).value.start.Up? && !After(cfg, acts).value.shared.cancelled
    ensures var s := After(cfg, acts).value; n in s.starter && InLoop(s.starter[n])
  {
    AtLoopHolds(cfg, acts, n);
    InvariantHolds(cfg, acts);
    assert DealtWith(cfg, After(cfg, acts).value, n);
  }

  // ---------------------------------------------------------------- crashed processes

  /** Steps of the waiter of `n`, and runs that end of themselves. */
  ghost predicate WaiterSteps(acts: seq<Action>, n: string) {
    forall i :: 0 <= i < |acts| ==> (acts[i].WaiterStep? && acts[i].name == n) || acts[i].RunExits?
  }

  /** Wait watches a restart_on_crash process that has been started, or is bringing it back. */
  ghost predicate Watches(cfg: Config, s: State, n: string) {
    && n in cfg.procs && cfg.procs[n].restartOnCrash && n in s.waiter && s.start.Up? && !s.shared.cancelled
    && !s.waiter[n].Rediscarding?
    && (PastCurrent(s.waiter[n])
        || (n in s.shared.processes
            && (s.waiter[n].Current?
                || (n !in s.shared.cells.blocked
                    && (s.waiter[n].ReadStatus? || (s.waiter[n].AwaitStarted? && (Deps(cfg, n) == [] || n in s.shared.cells.closed)))))))
  }

  function ToNextRefork(s: State, n: string): nat {
    if n !in s.waiter then 0
    else
      match s.waiter[n]
      case Refork => 0
      case Exited => 1
      case Watching(r) => if IsLive(s.shared, r) then 3 else 2
      case Current => 4
      case Readopting(_) => 5
      case ReadStatus => 5
      case AwaitStarted => 6
      case _ => 0
  }

  /** The next step of a watched run, which crashes, or of its waiter. */
  lemma WatchedOn(cfg: Config, s: State, n: string) returns (a: Action, t: State)
    requires Watches(cfg, s, n)
    ensures (a.WaiterStep? && a.name == n) || a.RunExits?
    ensures Next(cfg, s, a) == Some(t) && Watches(cfg, t, n) && t.start == s.start
    ensures if s.waiter[n].Refork? then t.shared.launches == s.shared.launches + [Launch(n, AfterCrash)]
            else t.shared.launches == s.shared.launches && ToNextRefork(t, n) < ToNextRefork(s, n)
  {
    if s.waiter[n].Watching? && IsLive(s.shared, s.waiter[n].r) {
      a := RunExits(s.waiter[n].r);
    } else {
      a := WaiterStep(n, TheDependency, true);
    }
    t := Next(cfg, s, a).value;
  }

  lemma {:induction false} WatchedToFork(cfg: Config, s: State, n: string) returns (acts: seq<Action>, t: State)
    requires Watches(cfg, s, n)
    ensures Forks(cfg, s, acts, t, n, AfterCrash, 1) && Watches(cfg, t, n) && WaiterSteps(acts, n)
    decreases ToNextRefork(s, n)
  {
    var a, next := WatchedOn(cfg, s, n);
    if s.waiter[n].Refork? {
      hide Next, Watches;
      ForksOne(cfg, s, a, next, n, AfterCrash, 1);
      acts, t := [a], next;
    } else {
      var rest, end := WatchedToFork(cfg, next, n);
      assert next.shared.cancelled == s.shared.cancelled && next.shared.launches == s.shared.launches + [];
      hide Next, Watches;
      ForksOne(cfg, s, a, next, n, AfterCrash, 0);
      ForksJoin(cfg, s, [a], next, 0, rest, end, 1, n, AfterCrash);
      acts, t := [a] + rest, end;
    }
  }

  /**
   In every run, until a Stop: a restart_on_crash process that Wait watches comes back however
   often it crashes, by the steps of its waiter.
   */
  lemma {:induction false} CrashedComesBack(cfg: Config, s: State, n: string, k: nat) returns (acts: seq<Action>, t: State)
    requires Watches(cfg, s, n)
    ensures Forks(cfg, s, acts, t, n, AfterCrash, k) && Watches(cfg, t, n) && WaiterSteps(acts, n)
    decreases k
  {
    if k == 0 {
      ForksNone(cfg, s, n, AfterCrash);
      acts, t := [], s;
    } else {
      var first, next := WatchedToFork(cfg, s, n);
      var rest, end := CrashedComesBack(cfg, next, n, k - 1);
      hide Watches;
      ForksJoin(cfg, s, first, next, 1, rest, end, k - 1, n, AfterCrash);
      acts, t := first + rest, end;
    }
  }

  /** Wait watches the processes registered when it is called or still to be launched, but for the recurring ones. */
  lemma WaitWatches(cfg: Config, s: State, n: string)
    requires Next(cfg, s, CallWait).Some?
    ensures var t := Next(cfg, s, CallWait).value;
            && (n in t.waiter <==> n in cfg.procs && !cfg.procs[n].recurring && (n in s.shared.processes || cfg.procs[n].dependsOn != []))
            && (n in t.waiter ==> t.waiter[n].AwaitStarted?)
  {
  }

  /** A waiter that forks has seen a run of its process end badly, and the process is to be restarted then. */
  ghost predicate HadCrash(cfg: Config, acts: seq<Action>, n: string) {
    && n in cfg.procs && cfg.procs[n].restartOnCrash
    && exists i :: 0 <= i < |acts| && EndsBadly(cfg, acts, n, i)
  }

  /** At step `i` the waiter of `n` finds that its run has crashed, and nothing has been stopped. */
  ghost predicate EndsBadly(cfg: Config, acts: seq<Action>, n: string, i: nat)
    requires i < |acts|
  {
    && acts[i].WaiterStep? && acts[i].name == n && acts[i].outcome
    && After(cfg, acts[..i]).Some? && n in After(cfg, acts[..i]).value.waiter && After(cfg, acts[..i]).value.waiter[n].Exited?
    && !After(cfg, acts[..i]).value.shared.cancelled
  }

  lemma WaiterReforks(cfg: Config, sh: Shared, locked: bool, n: string, pc: WaitPc, pick: Pick, outcome: bool,
                      mv: WaitMove)
    requires MoveWaiter(cfg, sh, locked, n, pc, pick, outcome) == Some(mv)
    ensures mv.pc.Refork? ==> pc.Exited? && outcome && n in cfg.procs && cfg.procs[n].restartOnCrash && !sh.cancelled
    ensures pc.Exited? && outcome && n in cfg.procs && cfg.procs[n].restartOnCrash && !sh.cancelled ==> mv.pc.Refork?
    ensures mv.effect.ForkRun? ==> pc.Refork? && mv.effect.name == n && mv.effect.cause == AfterCrash
  {
  }

  lemma {:induction false} ReforkHadCrash(cfg: Config, acts: seq<Action>, n: string)
    requires After(cfg, acts).Some? && n in After(cfg, acts).value.waiter && After(cfg, acts).value.waiter[n].Refork?
    ensures HadCrash(cfg, acts, n)
  {
    var last := |acts| - 1;
    var before, a := After(cfg, acts[..last]).value, acts[last];
    if n in before.waiter && before.waiter[n].Refork? {
      ReforkHadCrash(cfg, acts[..last], n);
      var i :| 0 <= i < last && EndsBadly(cfg, acts[..last], n, i);
      assert acts[..last][..i] == acts[..i];
      assert EndsBadly(cfg, acts, n, i);
    } else {
      assert a.WaiterStep? && a.name == n;
      WaiterReforks(cfg, before.shared, Locked(before), n, before.waiter[n], a.pick, a.outcome,
                    MoveWaiter(cfg, before.shared, Locked(before), n, before.waiter[n], a.pick, a.outcome).value);
      assert EndsBadly(cfg, acts, n, last);
    }
  }

  /** Only a waiter launches after a crash. */
  lemma LaunchesAfterCrash(cfg: Config, s: State, a: Action, n: string)
    requires Next(cfg, s, a).Some? && Next(cfg, s, a).value.shared.launches == s.shared.launches + [Launch(n, AfterCrash)]
    ensures a.WaiterStep? && a.name == n && n in s.waiter && s.waiter[n].Refork?
  {
    var t := Next(cfg, s, a).value;
    assert t.shared.launches[|s.shared.launches|] == Launch(n, AfterCrash);
    forall e { EffectLaunches(s.shared, e); }
    hide MoveStart, MoveStarter, MoveWaiter, MoveRequest, Apply;
    match a
    case StartStep(forked) => StartCauses(cfg, s.shared, s.start, forked, MoveStart(cfg, s.shared, s.start, forked).value);
    case StarterStep(m, pick, forked) =>
      StarterCauses(cfg, s.shared, Locked(s), m, s.starter[m], pick, forked,
                    MoveStarter(cfg, s.shared, Locked(s), m, s.starter[m], pick, forked).value);
    case WaiterStep(m, pick, outcome) =>
      WaiterReforks(cfg, s.shared, Locked(s), m, s.waiter[m], pick, outcome,
                    MoveWaiter(cfg, s.shared, Locked(s), m, s.waiter[m], pick, outcome).value);
    case RequestStep(k, forked) =>
      RequestCauses(cfg, s.shared, Locked(s), s.requests[k], forked,
                    MoveRequest(cfg, s.shared, Locked(s), s.requests[k], forked).value);
    case _ =>
  }

  lemma StartCauses(cfg: Config, sh: Shared, pc: StartPc, forked: bool, mv: StartMove)
    requires MoveStart(cfg, sh, pc, forked) == Some(mv)
    ensures mv.effect.ForkRun? ==> mv.effect.cause == AtStart
  {
  }

  lemma StarterCauses(cfg: Config, sh: Shared, locked: bool, n: string, pc: Pc, pick: Pick, forked: bool, mv: Move)
    requires MoveStarter(cfg, sh, locked, n, pc, pick, forked) == Some(mv)
    ensures mv.effect.ForkRun? ==> mv.effect.cause in {ByGate, ByLoop}
  {
  }

  lemma RequestCauses(cfg: Config, sh: Shared, locked: bool, q: Request, forked: bool, mv: RequestMove)
    requires MoveRequest(cfg, sh, locked, q, forked) == Some(mv)
    ensures mv.effect.ForkRun? ==> mv.effect.cause == ByRestart && mv.effect.name == q.name
  {
  }

  /** In every run, a launch after a crash is of a restart_on_crash process, and follows a crash of it. */
  lemma OnlyTheCrashedComeBack(cfg: Config, acts: seq<Action>, k: nat) returns (j: nat)
    requires After(cfg, acts).Some? && k < |After(cfg, acts).value.shared.launches|
    requires After(cfg, acts).value.shared.launches[k].cause.AfterCrash?
    ensures j < |acts| && After(cfg, acts[..j]).Some? && |After(cfg, acts[..j]).value.shared.launches| == k
    ensures HadCrash(cfg, acts[..j], After(cfg, acts).value.shared.launches[k].name)
  {
    hide Next;
    j := LaunchedAt(cfg, acts, k);
    var u, t, n := After(cfg, acts[..j]).value, After(cfg, acts[..j + 1]).value, After(cfg, acts).value.shared.launches[k].name;
    assert acts[..j + 1][..j] == acts[..j];
    NextLaunch(cfg, u, acts[j]);
    assert t.shared.launches[k] == Launch(n, AfterCrash);
    assert t.shared.launches == u.shared.launches + [Launch(n, AfterCrash)];
    LaunchesAfterCrash(cfg, u, acts[j], n);
    ReforkHadCrash(cfg, acts[..j], n);
  }

  // ---------------------------------------------------------------- after a Stop

  /** A recurring process, wherever it is, after a Stop. */
  ghost predicate Stops(cfg: Config, s: State, n: string) {
    && Recurring(cfg, n) && n in s.starter && s.start.Up? && s.shared.cancelled
    && (InLoop(s.starter[n]) || s.starter[n].End? || s.starter[n].Broken?
        || (s.starter[n].Await? && s.starter[n].i <= |Deps(cfg, n)|) || (s.starter[n].Select? && s.starter[n].i < |Deps(cfg, n)|))
  }

  /** How many steps there are to its end. */
  function ToEnd(cfg: Config, s: State, n: string): nat {
    if n !in s.starter then 0
    else
      match s.starter[n]
      case LoopSelect => 1
      case LoopRun => 2
      case LoopSettle => 3
      case LoopDiscard(_) => 2
      case LoopAdopt(_) => 3
      case LoopFork => 2
      case LoopWait(r) => if IsLive(s.shared, r) then 3 else 2
      case Broken(_) => 1
      case Select(_) => 2
      case Await(_) => 4
      case _ => 0
  }

  lemma StopsOn(cfg: Config, s: State, n: string) returns (a: Action, t: State)
    requires Stops(cfg, s, n) && !s.starter[n].End?
    ensures (a.StarterStep? && a.name == n) || a.RunExits?
    ensures Next(cfg, s, a) == Some(t) && Stops(cfg, t, n) && ToEnd(cfg, t, n) < ToEnd(cfg, s, n)
    ensures t.shared.launches == s.shared.launches
  {
    if s.starter[n].LoopWait? && IsLive(s.shared, s.starter[n].r) {
      a := RunExits(s.starter[n].r);
    } else {
      a := StarterStep(n, Cancelled, false);
    }
    t := Next(cfg, s, a).value;
  }

  /** After a Stop a recurring process can end, by its own steps, without another run. */
  lemma {:induction false} StoppedLoopEnds(cfg: Config, s: State, n: string) returns (acts: seq<Action>, t: State)
    requires Stops(cfg, s, n)
    ensures Execute(cfg, s, acts) == Some(t) && LoopSteps(acts, n) && n in t.starter && t.starter[n].End?
    ensures t.shared.launches == s.shared.launches
    decreases ToEnd(cfg, s, n)
  {
    if s.starter[n].End? {
      acts, t := [], s;
    } else {
      var a, next := StopsOn(cfg, s, n);
      var rest, end := StoppedLoopEnds(cfg, next, n);
      hide Next, Stops;
      FirstStep(cfg, s, a, rest);
      acts, t := [a] + rest, end;
    }
  }

  function ToGone(s: State, n: string): nat {
    if n !in s.waiter then 0
    else
      match s.waiter[n]
      case Rediscarding(_) => 1
      case Readopting(_) => 2
      case Refork => 3
      case Exited => 4
      case Watching(r) => if IsLive(s.shared, r) then 6 else 5
      case Current => 7
      case ReadStatus => 8
      case AwaitStarted => 9
      case Gone => 0
  }

  lemma GoesOn(cfg: Config, s: State, n: string) returns (a: Action, t: State)
    requires n in s.waiter && !s.waiter[n].Gone? && s.start.Up? && s.shared.cancelled
    ensures (a.WaiterStep? && a.name == n) || a.RunExits?
    ensures Next(cfg, s, a) == Some(t) && ToGone(t, n) < ToGone(s, n)
    ensures n in t.waiter && t.start.Up? && t.shared.cancelled && t.shared.launches == s.shared.launches
  {
    if s.waiter[n].Watching? && IsLive(s.shared, s.waiter[n].r) {
      a := RunExits(s.waiter[n].r);
    } else {
      a := WaiterStep(n, Cancelled, false);
    }
    t := Next(cfg, s, a).value;
  }

  /** After a Stop every waiter can go, so that Wait returns; and no waiter's exit then brings its process back. */
  lemma {:induction false} StoppedWaiterGoes(cfg: Config, s: State, n: string) returns (acts: seq<Action>, t: State)
    requires n in s.waiter && s.start.Up? && s.shared.cancelled
    ensures Execute(cfg, s, acts) == Some(t) && WaiterSteps(acts, n) && n in t.waiter && t.waiter[n].Gone?
    ensures t.shared.launches == s.shared.launches
    decreases ToGone(s, n)
  {
    if s.waiter[n].Gone? {
      acts, t := [], s;
    } else {
      var a, next := GoesOn(cfg, s, n);
      var rest, end := StoppedWaiterGoes(cfg, next, n);
      hide Next;
      FirstStep(cfg, s, a, rest);
      acts, t := [a] + rest, end;
    }
  }

  // ---------------------------------------------------------------- restarts

  /** A process that was started is neither waiting nor blocked. */
  predicate IsFree(sh: Shared, n: string) {
    n !in sh.cells.pending && n !in sh.cells.blocked
  }

  lemma FreeStays(sh: Shared, e: Effect, n: string)
    requires IsFree(sh, n)
    ensures IsFree(Apply(sh, e), n)
  {
  }

  lemma NextStaysFree(cfg: Config, s: State, a: Action, n: string)
    requires Next(cfg, s, a).Some? && IsFree(s.shared, n)
    ensures IsFree(Next(cfg, s, a).value.shared, n)
  {
    hide *;
    var e := NextApplies(cfg, s, a);
    FreeStays(s.shared, e, n);
  }

  /** Once free, free for the rest of the run. */
  lemma {:induction false} FreeForGood(cfg: Config, s: State, acts: seq<Action>, n: string)
    requires Execute(cfg, s, acts).Some? && IsFree(s.shared, n)
    ensures IsFree(Execute(cfg, s, acts).value.shared, n)
  {
    hide Next, IsFree;
    if acts != [] {
      FreeForGood(cfg, s, acts[..|acts| - 1], n);
      NextStaysFree(cfg, Execute(cfg, s, acts[..|acts| - 1]).value, acts[|acts| - 1], n);
    }
  }

  /** A Restart that can be let in, and has not yet forked. */
  ghost predicate CanRestart(cfg: Config, s: State, k: nat) {
    && k < |s.requests| && s.requests[k].name in cfg.procs && s.start.Up? && !s.shared.cancelled
    && (s.requests[k].pc.Asked? || s.requests[k].pc.Take? || s.requests[k].pc.StopOld? || s.requests[k].pc.RestartFork?)
  }

  /** Its next step. */
  lemma RestartsOn(cfg: Config, s: State, k: nat) returns (t: State)
    requires CanRestart(cfg, s, k)
    ensures Next(cfg, s, RequestStep(k, true)) == Some(t) && t.start == s.start && t.shared.cancelled == s.shared.cancelled
    ensures |t.requests| == |s.requests| && t.requests[k].name == s.requests[k].name
    ensures if s.requests[k].pc.RestartFork? then
              && t.shared.launches == s.shared.launches + [Launch(s.requests[k].name, ByRestart)]
              && t.requests[k].pc == RestartAdopt(|s.shared.runs|) && IsLive(t.shared, |s.shared.runs|)
            else
              && t.shared.launches == s.shared.launches && CanRestart(cfg, t, k)
              && RequestWeight(t.requests[k].pc) < RequestWeight(s.requests[k].pc)
  {
    t := Next(cfg, s, RequestStep(k, true)).value;
  }

  /** Steps of one Restart. */
  ghost predicate RestartSteps(acts: seq<Action>, k: nat) {
    forall i :: 0 <= i < |acts| ==> acts[i] == RequestStep(k, true)
  }

  lemma {:induction false} RestartToFork(cfg: Config, s: State, k: nat) returns (acts: seq<Action>, t: State)
    requires CanRestart(cfg, s, k)
    ensures Forks(cfg, s, acts, t, s.requests[k].name, ByRestart, 1) && RestartSteps(acts, k)
    ensures |t.requests| == |s.requests| && t.requests[k].name == s.requests[k].name
    ensures t.requests[k].pc.RestartAdopt? && IsLive(t.shared, t.requests[k].pc.r)
    decreases RequestWeight(s.requests[k].pc)
  {
    var n, a := s.requests[k].name, RequestStep(k, true);
    var next := RestartsOn(cfg, s, k);
    if s.requests[k].pc.RestartFork? {
      hide Next;
      ForksOne(cfg, s, a, next, n, ByRestart, 1);
      acts, t := [a], next;
    } else {
      var rest, end := RestartToFork(cfg, next, k);
      assert next.shared.launches == s.shared.launches + [];
      hide Next;
      ForksOne(cfg, s, a, next, n, ByRestart, 0);
      ForksJoin(cfg, s, [a], next, 0, rest, end, 1, n, ByRestart);
      acts, t := [a] + rest, end;
    }
  }

  /** A restarted run is registered, and then its process is freed. */
  lemma RestartRegisters(cfg: Config, s: State, k: nat) returns (t: State, u: State)
    requires k < |s.requests| && s.requests[k].pc.RestartAdopt? && s.start.Up? && !s.shared.cancelled
    ensures Next(cfg, s, RequestStep(k, true)) == Some(t) && Next(cfg, t, RequestStep(k, true)) == Some(u)
    ensures t.start == u.start == s.start && !t.shared.cancelled && !u.shared.cancelled
    ensures t.shared.launches == u.shared.launches == s.shared.launches
    ensures u.shared.runs == s.shared.runs && u.shared.processes == s.shared.processes[s.requests[k].name := s.requests[k].pc.r]
    ensures IsFree(u.shared, s.requests[k].name)
  {
    t := Next(cfg, s, RequestStep(k, true)).value;
    u := Next(cfg, t, RequestStep(k, true)).value;
  }

  /**
   In every state that has not been stopped, Start over, a Restart asked for goes on by its own
   steps to have its process running, registered, and neither pending nor blocked.
   */
  lemma RestartStarts(cfg: Config, s: State, k: nat) returns (acts: seq<Action>, t: State)
    requires CanRestart(cfg, s, k)
    ensures var n := s.requests[k].name;
            && Forks(cfg, s, acts, t, n, ByRestart, 1) && RestartSteps(acts, k)
            && n in t.shared.processes && IsLive(t.shared, t.shared.processes[n]) && IsFree(t.shared, n)
  {
    var n, a := s.requests[k].name, RequestStep(k, true);
    var first, forked := RestartToFork(cfg, s, k);
    var adopted, started := RestartRegisters(cfg, forked, k);
    assert forked.shared.launches + [] == forked.shared.launches;
    hide Next;
    ForksOne(cfg, forked, a, adopted, n, ByRestart, 0);
    ForksOne(cfg, adopted, a, started, n, ByRestart, 0);
    ForksJoin(cfg, forked, [a], adopted, 0, [a], started, 0, n, ByRestart);
    ForksJoin(cfg, s, first, forked, 1, [a] + [a], started, 0, n, ByRestart);
    acts, t := first + ([a] + [a]), started;
  }

  /** Once a Restart has started its run, however the run of the protocol goes on, its process is never blocked again. */
  lemma RestartedStaysFree(cfg: Config, s: State, k: nat, acts: seq<Action>)
    requires k < |s.requests| && s.requests[k].pc.RestartStarted?
    requires Next(cfg, s, RequestStep(k, true)).Some? && Execute(cfg, Next(cfg, s, RequestStep(k, true)).value, acts).Some?
    ensures IsFree(Execute(cfg, Next(cfg, s, RequestStep(k, true)).value, acts).value.shared, s.requests[k].name)
  {
    assert IsFree(Next(cfg, s, RequestStep(k, true)).value.shared, s.requests[k].name);
    hide Next, Execute, IsFree;
    FreeForGood(cfg, Next(cfg, s, RequestStep(k, true)).value, acts, s.requests[k].name);
  }

  // ---------------------------------------------------------------- waiting gates hear

  /** Where the starter of `n` comes from a select, by which branch. */
  ghost predicate Hears(cfg: Config, s: State, n: string, pick: Pick, pc: Pc) {
    && Next(cfg, s, StarterStep(n, pick, true)).Some? && n in Next(cfg, s, StarterStep(n, pick, true)).value.starter
    && Next(cfg, s, StarterStep(n, pick, true)).value.starter[n] == pc
  }

  /**
   A starter waiting for a dependency goes on to the next when that is ready, gives up with its
   error when it has failed, with the halt's when startup has halted, and when the manager is
   stopped; and otherwise waits.
   */
  lemma WaitsForDependency(cfg: Config, s: State, n: string)
    requires n in s.starter && s.starter[n].Select? && s.starter[n].i < |Deps(cfg, n)|
    ensures var i := s.starter[n].i;
            var d := Deps(cfg, n)[i];
            && (Hears(cfg, s, n, TheDependency, Await(i + 1)) <==> IsReady(s.shared, d))
            && (forall why :: Hears(cfg, s, n, TheDependency, Broken(why)) <==> d in s.shared.cells.decided && s.shared.cells.decided[d] == Failed(why))
            && (forall why :: Hears(cfg, s, n, Halted, Broken(why)) <==> s.shared.haltErr == Some(why))
            && (Hears(cfg, s, n, Cancelled, Broken("context canceled")) <==> s.shared.cancelled)
            && (d !in s.shared.cells.decided && s.shared.haltErr.None? && !s.shared.cancelled ==>
                  forall pick, forked :: Next(cfg, s, StarterStep(n, pick, forked)).None?)
  {
    hide Apply, MoveHalt, MoveLoop, MoveGate;
  }

  // ---------------------------------------------------------------- nothing is blocked without a failure

  predicate IsFailing(pc: Pc) { pc.ForkFailed? || pc.ForkDecide? || InHalt(pc) }

  /** Nothing is halted, blocked or decided failed. */
  ghost predicate Calm(sh: Shared) {
    sh.haltErr.None? && sh.cells.blocked == map[] && forall d :: d in sh.cells.decided ==> sh.cells.decided[d].Ready?
  }

  predicate AtEase(pc: Pc, cancelled: bool) {
    !IsFailing(pc) && (pc.Broken? ==> cancelled)
  }

  /** And no starter is about to. */
  ghost predicate Unharmed(s: State) {
    Calm(s.shared) && forall n :: n in s.starter ==> AtEase(s.starter[n], s.shared.cancelled)
  }

  /** A check fails, or the fork of a gate does. */
  predicate Fails(s: State, a: Action) {
    || (a.ProbeStep? && a.verdict.Failed?)
    || (a.StarterStep? && !a.forked && a.name in s.starter && s.starter[a.name].ToFork?)
  }

  /** An effect that harms nothing. */
  predicate Harmless(e: Effect) {
    match e
    case ProbeEnds(_, v) => v.Ready?
    case Decided(_, v) => v.Ready?
    case Settled(_, why) => why == ""
    case TakeHalt(_, _) => false
    case _ => true
  }

  lemma HarmlessKeeps(sh: Shared, e: Effect)
    requires Harmless(e) && Calm(sh)
    ensures Calm(Apply(sh, e)) && (sh.cancelled ==> Apply(sh, e).cancelled)
  {
  }

  lemma StarterHarms(cfg: Config, sh: Shared, locked: bool, n: string, pc: Pc, pick: Pick, forked: bool, mv: Move)
    requires MoveStarter(cfg, sh, locked, n, pc, pick, forked) == Some(mv) && AtEase(pc, sh.cancelled)
    requires Calm(sh) && (pc.ToFork? ==> forked)
    ensures Harmless(mv.effect) && AtEase(mv.pc, sh.cancelled)
  {
  }

  lemma StartHarms(cfg: Config, sh: Shared, pc: StartPc, forked: bool, mv: StartMove)
    requires MoveStart(cfg, sh, pc, forked) == Some(mv)
    ensures Harmless(mv.effect) && (mv.spawn.Some? ==> AtEase(mv.spawn.value, false))
  {
  }

  lemma RequestHarms(cfg: Config, sh: Shared, locked: bool, q: Request, forked: bool, mv: RequestMove)
    requires MoveRequest(cfg, sh, locked, q, forked) == Some(mv)
    ensures Harmless(mv.effect)
  {
  }

  lemma WaiterHarms(cfg: Config, sh: Shared, locked: bool, n: string, pc: WaitPc, pick: Pick, outcome: bool, mv: WaitMove)
    requires MoveWaiter(cfg, sh, locked, n, pc, pick, outcome) == Some(mv)
    ensures Harmless(mv.effect)
  {
  }

  lemma StillAtEase(pc: Pc, was: bool, now: bool)
    requires AtEase(pc, was) && (was ==> now)
    ensures AtEase(pc, now)
  {
  }

  lemma StarterUnharmed(cfg: Config, s: State, m: string, pick: Pick, forked: bool)
    requires Unharmed(s) && StepStarter(cfg, s, m, pick, forked).Some? && !Fails(s, StarterStep(m, pick, forked))
    ensures Unharmed(StepStarter(cfg, s, m, pick, forked).value)
  {
    hide Apply, MoveStarter, AtEase, Calm, Harmless;
    var mv := MoveStarter(cfg, s.shared, Locked(s), m, s.starter[m], pick, forked).value;
    StarterHarms(cfg, s.shared, Locked(s), m, s.starter[m], pick, forked, mv);
    HarmlessKeeps(s.shared, mv.effect);
    forall pc | AtEase(pc, s.shared.cancelled) { StillAtEase(pc, s.shared.cancelled, Apply(s.shared, mv.effect).cancelled); }
  }

  lemma StartUnharmed(cfg: Config, s: State, forked: bool)
    requires Unharmed(s) && StepStart(cfg, s, forked).Some?
    ensures Unharmed(StepStart(cfg, s, forked).value)
  {
    hide Apply, MoveStart, AtEase, Calm, Harmless;
    var mv := MoveStart(cfg, s.shared, s.start, forked).value;
    StartHarms(cfg, s.shared, s.start, forked, mv);
    HarmlessKeeps(s.shared, mv.effect);
    var now := Apply(s.shared, mv.effect).cancelled;
    forall pc | AtEase(pc, s.shared.cancelled) { StillAtEase(pc, s.shared.cancelled, now); }
    if mv.spawn.Some? { StillAtEase(mv.spawn.value, false, now); }
  }

  /** A step that leaves the starters where they are. */
  lemma OtherUnharmed(cfg: Config, s: State, a: Action)
    requires Unharmed(s) && Next(cfg, s, a).Some? && !a.StartStep? && !a.StarterStep? && !Fails(s, a)
    ensures Unharmed(Next(cfg, s, a).value)
  {
    forall e | Harmless(e) { HarmlessKeeps(s.shared, e); }
    forall pc, now | AtEase(pc, s.shared.cancelled) && (s.shared.cancelled ==> now) {
      StillAtEase(pc, s.shared.cancelled, now);
    }
    hide MoveWaiter, MoveRequest, Apply, AtEase, Calm;
    match a
    case WaiterStep(m, pick, outcome) =>
      WaiterHarms(cfg, s.shared, Locked(s), m, s.waiter[m], pick, outcome,
                  MoveWaiter(cfg, s.shared, Locked(s), m, s.waiter[m], pick, outcome).value);
    case RequestStep(k, forked) =>
      RequestHarms(cfg, s.shared, Locked(s), s.requests[k], forked,
                   MoveRequest(cfg, s.shared, Locked(s), s.requests[k], forked).value);
    case ProbeStep(m, v) => assert Harmless(ProbeEnds(m, v));
    case StopStep(k) => assert Harmless(CancelAll) && Harmless(Sweep);
    case RunExits(r) => assert Harmless(StopRun(r));
    case _ =>
  }

  lemma StaysUnharmed(cfg: Config, s: State, a: Action)
    requires Unharmed(s) && Next(cfg, s, a).Some? && !Fails(s, a)
    ensures Unharmed(Next(cfg, s, a).value)
  {
    hide StepStart, StepStarter, Unharmed, Fails;
    match a
    case StartStep(forked) => StartUnharmed(cfg, s, forked);
    case StarterStep(m, pick, forked) => StarterUnharmed(cfg, s, m, pick, forked);
    case _ => OtherUnharmed(cfg, s, a);
  }

  /** In every run, startup is halted, and a process blocked or decided failed, only after a check or a gate's fork has failed. */
  lemma {:induction false} NothingBlockedWithoutFailure(cfg: Config, acts: seq<Action>)
    requires After(cfg, acts).Some?
    ensures var sh := After(cfg, acts).value.shared;
            sh.haltErr.Some? || sh.cells.blocked != map[] || (exists d :: d in sh.cells.decided && sh.cells.decided[d].Failed?) ==>
            exists i :: 0 <= i < |acts| && After(cfg, acts[..i]).Some? && Fails(After(cfg, acts[..i]).value, acts[i])
  {
    if forall i :: 0 <= i < |acts| && After(cfg, acts[..i]).Some? ==> !Fails(After(cfg, acts[..i]).value, acts[i]) {
      UnharmedHolds(cfg, acts);
    }
  }

  lemma {:induction false} UnharmedHolds(cfg: Config, acts: seq<Action>)
    requires After(cfg, acts).Some?
    requires forall i :: 0 <= i < |acts| && After(cfg, acts[..i]).Some? ==> !Fails(After(cfg, acts[..i]).value, acts[i])
    ensures Unharmed(After(cfg, acts).value)
  {
    hide Next, Unharmed, Fails;
    if acts == [] {
      assert Unharmed(InitialState(cfg)) by { InitiallyUnharmed(cfg); }
    } else {
      var last := |acts| - 1;
      forall i | 0 <= i < last && After(cfg, acts[..last][..i]).Some?
        ensures !Fails(After(cfg, acts[..last][..i]).value, acts[..last][i])
      {
        assert acts[..last][..i] == acts[..i];
      }
      UnharmedHolds(cfg, acts[..last]);
      StaysUnharmed(cfg, After(cfg, acts[..last]).value, acts[last]);
    }
  }

  lemma InitiallyUnharmed(cfg: Config)
    ensures Unharmed(InitialState(cfg))
  {
  }

  // ---------------------------------------------------------------- Start holds the lock

  /** Whether an effect changes which runs are registered, or stops all that are. */
  predicate NeedsLock(e: Effect) {
    e.RegisterRun? || e.RegisterPlaceholder? || e.Unregister? || e.Sweep? || e.FailStart?
  }

  lemma WithoutLock(sh: Shared, e: Effect)
    requires !NeedsLock(e)
    ensures Apply(sh, e).processes == sh.processes && Apply(sh, e).swept == sh.swept
  {
  }

  lemma StarterNeedsLock(cfg: Config, sh: Shared, n: string, pc: Pc, pick: Pick, forked: bool, mv: Move)
    requires MoveStarter(cfg, sh, true, n, pc, pick, forked) == Some(mv)
    ensures !NeedsLock(mv.effect)
  {
  }

  lemma WaiterNeedsLock(cfg: Config, sh: Shared, n: string, pc: WaitPc, pick: Pick, outcome: bool, mv: WaitMove)
    requires MoveWaiter(cfg, sh, true, n, pc, pick, outcome) == Some(mv)
    ensures !NeedsLock(mv.effect)
  {
  }

  lemma RequestNeedsLock(cfg: Config, sh: Shared, q: Request, forked: bool, mv: RequestMove)
    requires MoveRequest(cfg, sh, true, q, forked) == Some(mv)
    ensures !NeedsLock(mv.effect)
  {
  }

  /** While Start is under way, no other goroutine changes what is registered, and no Stop sweeps it. */
  lemma OnlyStartRegisters(cfg: Config, s: State, a: Action)
    requires Locked(s) && Next(cfg, s, a).Some? && !a.StartStep?
    ensures var t := Next(cfg, s, a).value;
            t.shared.processes == s.shared.processes && t.shared.swept == s.shared.swept && t.start == s.start
  {
    forall e | !NeedsLock(e) { WithoutLock(s.shared, e); }
    hide MoveStarter, MoveWaiter, MoveRequest, Apply;
    match a
    case StarterStep(n, pick, forked) =>
      StarterNeedsLock(cfg, s.shared, n, s.starter[n], pick, forked,
                       MoveStarter(cfg, s.shared, true, n, s.starter[n], pick, forked).value);
    case WaiterStep(n, pick, outcome) =>
      WaiterNeedsLock(cfg, s.shared, n, s.waiter[n], pick, outcome,
                      MoveWaiter(cfg, s.shared, true, n, s.waiter[n], pick, outcome).value);
    case RequestStep(k, forked) =>
      RequestNeedsLock(cfg, s.shared, s.requests[k], forked,
                       MoveRequest(cfg, s.shared, true, s.requests[k], forked).value);
    case _ =>
  }
}
