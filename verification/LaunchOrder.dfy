/**
 Launch order: a gate or a recurring loop launches a process only when every dependency
 has been decided ready, decisions stand, and, in a run without Restart, the launches
 form a topological order of the dependency graph.
 */
module LaunchOrder {
  import opened Wrappers
  import opened Depends
  import opened Startup
  import opened Protocol
  import opened Progress

  // ---------------------------------------------------------------- dependencies ready

  predicate IsReady(sh: Shared, d: string) {
    d in sh.cells.decided && sh.cells.decided[d].Ready?
  }

  predicate IsFailed(sh: Shared, d: string) {
    d in sh.cells.decided && sh.cells.decided[d].Failed?
  }

  /** The first `k` dependencies of a process are decided ready. */
  ghost predicate DepsReady(cfg: Config, sh: Shared, n: string, k: nat) {
    k <= |Deps(cfg, n)| && forall j :: 0 <= j < k ==> IsReady(sh, Deps(cfg, n)[j])
  }

  ghost predicate AllReady(cfg: Config, sh: Shared, n: string) {
    DepsReady(cfg, sh, n, |Deps(cfg, n)|)
  }

  /** awaitDependencies has returned nil. */
  predicate PastAwait(pc: Pc) {
    || pc.Lookup? || pc.SettleRunning? || pc.ToFork? || pc.Adopting? || pc.Discarding? || pc.Settling? || pc.Marking?
    || pc.Checking? || InLoop(pc)
  }

  ghost predicate ReadyOk(cfg: Config, sh: Shared, n: string, pc: Pc) {
    && (pc.Await? || pc.Select? ==> DepsReady(cfg, sh, n, pc.i))
    && (PastAwait(pc) ==> AllReady(cfg, sh, n))
  }

  lemma ReadyKept(cfg: Config, sh: Shared, th: Shared, n: string, pc: Pc, k: nat)
    requires Evolves(sh, th)
    ensures DepsReady(cfg, sh, n, k) ==> DepsReady(cfg, th, n, k)
    ensures ReadyOk(cfg, sh, n, pc) ==> ReadyOk(cfg, th, n, pc)
  {
  }

  lemma AwaitReady(cfg: Config, sh: Shared, n: string, pc: Pc, pick: Pick, mv: Move)
    requires MoveAwait(cfg, sh, n, pc, pick) == Some(mv) && ReadyOk(cfg, sh, n, pc)
    ensures ReadyOk(cfg, sh, n, mv.pc) && !mv.effect.ForkRun?
  {
  }

  lemma GateReady(cfg: Config, sh: Shared, locked: bool, n: string, pc: Pc, forked: bool, mv: Move)
    requires MoveGate(cfg, sh, locked, n, pc, forked) == Some(mv) && ReadyOk(cfg, sh, n, pc)
    ensures ReadyOk(cfg, sh, n, mv.pc)
    ensures mv.effect.ForkRun? ==> PastAwait(pc) && mv.effect.name == n && mv.effect.cause == ByGate
  {
  }

  lemma LoopReady(cfg: Config, sh: Shared, locked: bool, n: string, pc: Pc, pick: Pick, forked: bool, mv: Move)
    requires MoveLoop(sh, locked, n, pc, pick, forked) == Some(mv) && ReadyOk(cfg, sh, n, pc)
    ensures ReadyOk(cfg, sh, n, mv.pc)
    ensures mv.effect.ForkRun? ==> PastAwait(pc) && mv.effect.name == n && mv.effect.cause == ByLoop
  {
  }

  lemma StarterReady(cfg: Config, sh: Shared, locked: bool, n: string, pc: Pc, pick: Pick, forked: bool, mv: Move)
    requires MoveStarter(cfg, sh, locked, n, pc, pick, forked) == Some(mv) && ReadyOk(cfg, sh, n, pc)
    ensures ReadyOk(cfg, sh, n, mv.pc)
    ensures mv.effect.ForkRun? ==> PastAwait(pc) && mv.effect.name == n && mv.effect.cause in {ByGate, ByLoop}
  {
    hide MoveAwait, MoveGate, MoveLoop, DepsReady;
    if InAwait(pc) {
      AwaitReady(cfg, sh, n, pc, pick, mv);
    } else if InHalt(pc) {
    } else if InLoop(pc) {
      LoopReady(cfg, sh, locked, n, pc, pick, forked, mv);
    } else {
      GateReady(cfg, sh, locked, n, pc, forked, mv);
    }
  }

  // ---------------------------------------------------------------- launches in every run

  ghost predicate StartersReady(cfg: Config, s: State) {
    forall n :: n in s.starter ==> ReadyOk(cfg, s.shared, n, s.starter[n])
  }

  /** Whatever a gate or a loop launched had, and has, all its dependencies ready. */
  ghost predicate LaunchesReady(cfg: Config, sh: Shared) {
    forall k :: 0 <= k < |sh.launches| && sh.launches[k].cause in {ByGate, ByLoop} ==>
                  AllReady(cfg, sh, sh.launches[k].name)
  }

  lemma EffectLaunches(sh: Shared, e: Effect)
    ensures Apply(sh, e).launches == sh.launches + (if e.ForkRun? then [Launch(e.name, e.cause)] else [])
  {
  }

  lemma LaunchesKept(cfg: Config, sh: Shared, e: Effect)
    requires LaunchesReady(cfg, sh) && Evolves(sh, Apply(sh, e))
    requires e.ForkRun? && e.cause in {ByGate, ByLoop} ==> AllReady(cfg, sh, e.name)
    ensures LaunchesReady(cfg, Apply(sh, e))
  {
    var th := Apply(sh, e);
    EffectLaunches(sh, e);
    hide Apply, Evolves, DepsReady;
    forall k | 0 <= k < |th.launches| && th.launches[k].cause in {ByGate, ByLoop}
      ensures AllReady(cfg, th, th.launches[k].name)
    {
      ReadyKept(cfg, sh, th, th.launches[k].name, Idle, |Deps(cfg, th.launches[k].name)|);
    }
  }

  lemma StarterReadies(cfg: Config, s: State, m: string, pick: Pick, forked: bool)
    requires StartersReady(cfg, s) && LaunchesReady(cfg, s.shared) && StepStarter(cfg, s, m, pick, forked).Some?
    ensures var t := StepStarter(cfg, s, m, pick, forked).value;
            StartersReady(cfg, t) && LaunchesReady(cfg, t.shared)
  {
    var mv := MoveStarter(cfg, s.shared, Locked(s), m, s.starter[m], pick, forked).value;
    var t := AfterStarter(s, m, mv);
    StarterReady(cfg, s.shared, Locked(s), m, s.starter[m], pick, forked, mv);
    StarterEffects(cfg, s.shared, Locked(s), m, s.starter[m], pick, forked, mv);
    EffectEvolves(s.shared, mv.effect);
    hide MoveStarter, Apply, Evolves, ReadyOk;
    assert mv.effect.ForkRun? ==> AllReady(cfg, s.shared, m) by { StarterForksReady(cfg, s, m, mv.effect); }
    LaunchesKept(cfg, s.shared, mv.effect);
    forall n | n in t.starter ensures ReadyOk(cfg, t.shared, n, t.starter[n]) {
      ReadyKept(cfg, s.shared, t.shared, n, t.starter[n], 0);
    }
  }

  lemma StarterForksReady(cfg: Config, s: State, m: string, e: Effect)
    requires m in s.starter && ReadyOk(cfg, s.shared, m, s.starter[m])
    requires e.ForkRun? ==> PastAwait(s.starter[m])
    ensures e.ForkRun? ==> AllReady(cfg, s.shared, m)
  {
  }

  /** A step of any other goroutine: it launches as something else, and moves no starter. */
  lemma OtherReadies(cfg: Config, s: State, t: State, e: Effect)
    requires StartersReady(cfg, s) && LaunchesReady(cfg, s.shared)
    requires t.shared == Apply(s.shared, e) && !TouchesHalt(e)
    requires e.ForkRun? ==> e.cause !in {ByGate, ByLoop}
    requires forall n :: n in t.starter ==>
               (n in s.starter && t.starter[n] == s.starter[n]) || ReadyOk(cfg, s.shared, n, t.starter[n])
    ensures StartersReady(cfg, t) && LaunchesReady(cfg, t.shared)
  {
    EffectEvolves(s.shared, e);
    hide Evolves, ReadyOk;
    LaunchesKept(cfg, s.shared, e);
    hide Apply;
    forall n | n in t.starter ensures ReadyOk(cfg, t.shared, n, t.starter[n]) {
      ReadyKept(cfg, s.shared, t.shared, n, t.starter[n], 0);
    }
  }

  lemma StartReadies(cfg: Config, s: State, forked: bool)
    requires StartersReady(cfg, s) && LaunchesReady(cfg, s.shared) && StepStart(cfg, s, forked).Some?
    ensures var t := StepStart(cfg, s, forked).value;
            StartersReady(cfg, t) && LaunchesReady(cfg, t.shared)
  {
    var mv := MoveStart(cfg, s.shared, s.start, forked).value;
    StartEffects(cfg, s.shared, s.start, forked, mv);
    assert mv.effect.ForkRun? ==> mv.effect.cause == AtStart;
    assert mv.spawn.Some? ==> ReadyOk(cfg, s.shared, cfg.order[s.start.i], mv.spawn.value);
    hide MoveStart, Apply, ReadyOk;
    OtherReadies(cfg, s, AfterStart(cfg, s, mv), mv.effect);
  }

  lemma NextReadies(cfg: Config, s: State, a: Action)
    requires StartersReady(cfg, s) && LaunchesReady(cfg, s.shared) && Next(cfg, s, a).Some?
    ensures var t := Next(cfg, s, a).value; StartersReady(cfg, t) && LaunchesReady(cfg, t.shared)
  {
    hide StepStart, StepStarter, Apply, StartersReady, LaunchesReady;
    var t := Next(cfg, s, a).value;
    match a
    case StartStep(forked) => StartReadies(cfg, s, forked);
    case StarterStep(n, pick, forked) => StarterReadies(cfg, s, n, pick, forked);
    case WaiterStep(n, pick, outcome) =>
      var mv := MoveWaiter(cfg, s.shared, Locked(s), n, s.waiter[n], pick, outcome).value;
      WaiterEffects(cfg, s.shared, Locked(s), n, s.waiter[n], pick, outcome, mv);
      OtherReadies(cfg, s, t, mv.effect);
    case RequestStep(k, forked) =>
      var mv := MoveRequest(cfg, s.shared, Locked(s), s.requests[k], forked).value;
      RequestEffects(cfg, s.shared, Locked(s), s.requests[k], forked, mv);
      OtherReadies(cfg, s, t, mv.effect);
    case ProbeStep(n, v) => OtherReadies(cfg, s, t, ProbeEnds(n, v));
    case StopStep(k) => OtherReadies(cfg, s, t, if s.stops[k].ToCancel? then CancelAll else Sweep);
    case RunExits(r) => OtherReadies(cfg, s, t, StopRun(r));
    case _ => NothingHappens(s.shared); OtherReadies(cfg, s, t, Nothing);
  }

  lemma {:induction false} LaunchedReady(cfg: Config, acts: seq<Action>)
    requires Execute(cfg, InitialState(cfg), acts).Some?
    ensures var s := Execute(cfg, InitialState(cfg), acts).value;
            StartersReady(cfg, s) && LaunchesReady(cfg, s.shared)
  {
    hide Next;
    if acts != [] {
      LaunchedReady(cfg, acts[..|acts| - 1]);
      NextReadies(cfg, Execute(cfg, InitialState(cfg), acts[..|acts| - 1]).value, acts[|acts| - 1]);
    }
  }

  /** The first dependency to fail a gate is never forgotten: decisions stand for the rest of the run. */
  lemma {:induction false} DecisionsStand(cfg: Config, s: State, acts: seq<Action>)
    requires Execute(cfg, s, acts).Some?
    ensures forall d :: d in s.shared.cells.decided ==>
              && d in Execute(cfg, s, acts).value.shared.cells.decided
              && Execute(cfg, s, acts).value.shared.cells.decided[d] == s.shared.cells.decided[d]
  {
    if acts != [] {
      DecisionsStand(cfg, s, acts[..|acts| - 1]);
      NextDecides(cfg, Execute(cfg, s, acts[..|acts| - 1]).value, acts[|acts| - 1]);
      hide Next;
    }
  }

  lemma NextDecides(cfg: Config, s: State, a: Action)
    requires Next(cfg, s, a).Some?
    ensures forall d :: d in s.shared.cells.decided ==>
              && d in Next(cfg, s, a).value.shared.cells.decided
              && Next(cfg, s, a).value.shared.cells.decided[d] == s.shared.cells.decided[d]
  {
    forall e: Effect {
      EffectDecides(s.shared, e);
    }
    hide MoveStart, MoveStarter, MoveWaiter, MoveRequest, Apply;
  }

  lemma EffectDecides(sh: Shared, e: Effect)
    ensures forall d :: d in sh.cells.decided ==>
              d in Apply(sh, e).cells.decided && Apply(sh, e).cells.decided[d] == sh.cells.decided[d]
  {
  }

  // ---------------------------------------------------------------- runs without Restart

  ghost predicate Launched(sh: Shared, n: string) {
    exists k :: 0 <= k < |sh.launches| && sh.launches[k].name == n
  }

  /** The processes that launch `k` depends on were launched before it. */
  ghost predicate DepsBefore(cfg: Config, launches: seq<Launch>, k: nat, n: string)
    requires k <= |launches|
  {
    forall d :: d in cfg.procs && d in Deps(cfg, n) ==> exists j :: 0 <= j < k && launches[j].name == d
  }

  ghost predicate Ordered(cfg: Config, sh: Shared) {
    forall k :: 0 <= k < |sh.launches| ==>
                  AllReady(cfg, sh, sh.launches[k].name) && DepsBefore(cfg, sh.launches, k, sh.launches[k].name)
  }

  /** Registered, probed or ready means launched. */
  ghost predicate LaunchedOk(cfg: Config, sh: Shared) {
    && (forall n :: n in sh.processes && !Recurring(cfg, n) ==> Launched(sh, n))
    && (forall n :: n in sh.probing && n in cfg.procs ==> Launched(sh, n))
    && (forall n :: n in cfg.procs && IsReady(sh, n) ==> Launched(sh, n))
  }

  predicate HoldsLaunched(pc: Pc) { pc.Adopting? || pc.Settling? || pc.Marking? || pc.Checking? }

  predicate StartHolds(cfg: Config, start: StartPc, n: string) {
    match start
    case StartAdopt(i, _) => i < |cfg.order| && cfg.order[i] == n
    case StartMark(i) => i < |cfg.order| && cfg.order[i] == n
    case StartCheck(i) => i < |cfg.order| && cfg.order[i] == n
    case _ => false
  }

  ghost predicate HoldersOk(cfg: Config, s: State) {
    && s.requests == []
    && (forall n :: n in s.starter && HoldsLaunched(s.starter[n]) ==> Launched(s.shared, n))
    && (forall n :: StartHolds(cfg, s.start, n) ==> Launched(s.shared, n))
    && (forall n :: n in s.waiter ==> n in cfg.procs && !Recurring(cfg, n))
    && (forall n :: n in s.waiter && PastCurrent(s.waiter[n]) ==> Launched(s.shared, n))
  }

  /** What an effect needs in order to keep the order. */
  ghost predicate EffectOk(cfg: Config, sh: Shared, e: Effect) {
    match e
    case ForkRun(n, _) => AllReady(cfg, sh, n) && DepsBefore(cfg, sh.launches, |sh.launches|, n)
    case RegisterRun(n, _) => Recurring(cfg, n) || Launched(sh, n)
    case RegisterPlaceholder(n) => Recurring(cfg, n)
    case Probe(n) => n in cfg.procs ==> Launched(sh, n)
    case ClaimService(n) => n !in cfg.procs
    case Decided(n, v) => v.Ready? && n in cfg.procs ==> Launched(sh, n)
    case ProbeEnds(n, _) => n in sh.probing
    case _ => true
  }

  lemma LaunchedKept(sh: Shared, e: Effect, n: string)
    requires Launched(sh, n)
    ensures Launched(Apply(sh, e), n)
  {
    EffectLaunches(sh, e);
    var k :| 0 <= k < |sh.launches| && sh.launches[k].name == n;
    assert Apply(sh, e).launches[k].name == n;
  }

  lemma ForkLaunches(sh: Shared, n: string, cause: Cause)
    ensures Launched(Apply(sh, ForkRun(n, cause)), n)
  {
    assert Apply(sh, ForkRun(n, cause)).launches[|sh.launches|].name == n;
  }

  lemma LaunchedOkKept(cfg: Config, sh: Shared, e: Effect)
    requires LaunchedOk(cfg, sh) && EffectOk(cfg, sh, e)
    ensures LaunchedOk(cfg, Apply(sh, e))
  {
    forall n | Launched(sh, n) ensures Launched(Apply(sh, e), n) {
      LaunchedKept(sh, e, n);
    }
    EffectSources(sh, e);
    hide Apply, Launched, DepsReady, DepsBefore;
  }

  /** Where a registration, a probe or a ready verdict comes from. */
  lemma EffectSources(sh: Shared, e: Effect)
    ensures forall n :: n in Apply(sh, e).processes ==> n in sh.processes || n in Registers(e)
    ensures forall n :: n in Apply(sh, e).probing ==> n in sh.probing || ((e.Probe? || e.ClaimService?) && e.name == n)
    ensures forall n :: IsReady(Apply(sh, e), n) ==>
              IsReady(sh, n) || (e.Decided? && e.name == n && e.v.Ready?) || (e.ProbeEnds? && e.name == n)
  {
  }

  lemma OrderedKept(cfg: Config, sh: Shared, e: Effect)
    requires Ordered(cfg, sh) && EffectOk(cfg, sh, e) && Evolves(sh, Apply(sh, e))
    ensures Ordered(cfg, Apply(sh, e))
  {
    var th := Apply(sh, e);
    EffectLaunches(sh, e);
    hide Apply, Evolves, DepsReady;
    forall k | 0 <= k < |th.launches|
      ensures AllReady(cfg, th, th.launches[k].name) && DepsBefore(cfg, th.launches, k, th.launches[k].name)
    {
      var n := th.launches[k].name;
      ReadyKept(cfg, sh, th, n, Idle, |Deps(cfg, n)|);
      if k < |sh.launches| {
        assert sh.launches[k].name == n;
        BeforeKept(cfg, sh.launches, th.launches, k, n);
      } else {
        BeforeKept(cfg, sh.launches, th.launches, |sh.launches|, n);
      }
    }
  }

  lemma BeforeKept(cfg: Config, a: seq<Launch>, b: seq<Launch>, k: nat, n: string)
    requires k <= |a| <= |b| && b[..|a|] == a && DepsBefore(cfg, a, k, n)
    ensures DepsBefore(cfg, b, k, n)
  {
  }

  /** A process with all dependencies ready may be launched: its process dependencies have been. */
  lemma ReadyIsLaunchable(cfg: Config, sh: Shared, n: string)
    requires LaunchedOk(cfg, sh) && AllReady(cfg, sh, n)
    ensures DepsBefore(cfg, sh.launches, |sh.launches|, n)
  {
  }

  /** A process launched before may be launched again. */
  lemma LaunchedIsLaunchable(cfg: Config, sh: Shared, n: string)
    requires Ordered(cfg, sh) && Launched(sh, n)
    ensures AllReady(cfg, sh, n) && DepsBefore(cfg, sh.launches, |sh.launches|, n)
  {
  }

  // ---------------------------------------------------------------- each goroutine's steps, without Restart

  /** What a starter's table asks of effects, apart from the readiness of what it forks. */
  lemma StarterHolds(cfg: Config, sh: Shared, locked: bool, n: string, pc: Pc, pick: Pick, forked: bool, mv: Move)
    requires MoveStarter(cfg, sh, locked, n, pc, pick, forked) == Some(mv)
    requires HoldsLaunched(pc) ==> Launched(sh, n)
    requires InLoop(pc) ==> Recurring(cfg, n)
    ensures !mv.effect.ForkRun? ==> EffectOk(cfg, sh, mv.effect)
    ensures HoldsLaunched(mv.pc) ==> HoldsLaunched(pc) || (mv.effect.ForkRun? && mv.effect.name == n)
  {
    hide Launched;
  }

  lemma WaiterHolds(cfg: Config, sh: Shared, locked: bool, n: string, pc: WaitPc, pick: Pick, outcome: bool,
                    mv: WaitMove)
    requires MoveWaiter(cfg, sh, locked, n, pc, pick, outcome) == Some(mv)
    requires PastCurrent(pc) ==> Launched(sh, n)
    ensures !mv.effect.ForkRun? ==> EffectOk(cfg, sh, mv.effect)
    ensures mv.effect.ForkRun? ==> mv.effect.name == n && PastCurrent(pc)
    ensures PastCurrent(mv.pc) ==> PastCurrent(pc) || n in sh.processes
  {
  }

  lemma StartHoldsOk(cfg: Config, sh: Shared, pc: StartPc, forked: bool, mv: StartMove)
    requires MoveStart(cfg, sh, pc, forked) == Some(mv)
    requires forall n :: StartHolds(cfg, pc, n) ==> Launched(sh, n)
    ensures !mv.effect.ForkRun? ==> EffectOk(cfg, sh, mv.effect)
    ensures mv.effect.ForkRun? ==> Deps(cfg, mv.effect.name) == []
    ensures forall n :: StartHolds(cfg, mv.pc, n) ==>
              StartHolds(cfg, pc, n) || (mv.effect.ForkRun? && mv.effect.name == n)
    ensures mv.spawn.Some? ==> !HoldsLaunched(mv.spawn.value)
  {
  }

  ghost predicate FreeOk(cfg: Config, s: State) {
    HoldersOk(cfg, s) && LaunchedOk(cfg, s.shared) && Ordered(cfg, s.shared)
  }

  /** A starter's effect is in order, and it holds a launch only if it did or has just made it. */
  lemma StarterInOrder(cfg: Config, s: State, m: string, pick: Pick, forked: bool, mv: Move)
    requires FreeOk(cfg, s) && m in s.starter && ReadyOk(cfg, s.shared, m, s.starter[m])
    requires InLoop(s.starter[m]) ==> Recurring(cfg, m)
    requires MoveStarter(cfg, s.shared, Locked(s), m, s.starter[m], pick, forked) == Some(mv)
    ensures EffectOk(cfg, s.shared, mv.effect)
    ensures HoldsLaunched(mv.pc) ==> HoldsLaunched(s.starter[m]) || Launched(Apply(s.shared, mv.effect), m)
  {
    hide MoveStarter, LaunchedOk, Ordered, ReadyOk, AllReady, Apply, DepsBefore, Launched;
    StarterHolds(cfg, s.shared, Locked(s), m, s.starter[m], pick, forked, mv);
    StarterReady(cfg, s.shared, Locked(s), m, s.starter[m], pick, forked, mv);
    if mv.effect.ForkRun? {
      StarterForksReady(cfg, s, m, mv.effect);
      ReadyIsLaunchable(cfg, s.shared, m);
      ForkLaunches(s.shared, m, mv.effect.cause);
    }
  }

  lemma StarterFree(cfg: Config, s: State, m: string, pick: Pick, forked: bool)
    requires FreeOk(cfg, s) && NamesOk(cfg, s) && StartersReady(cfg, s) && StepStarter(cfg, s, m, pick, forked).Some?
    ensures FreeOk(cfg, StepStarter(cfg, s, m, pick, forked).value)
  {
    var mv := MoveStarter(cfg, s.shared, Locked(s), m, s.starter[m], pick, forked).value;
    assert NameOk(cfg, s, m) && ReadyOk(cfg, s.shared, m, s.starter[m]);
    StarterInOrder(cfg, s, m, pick, forked, mv);
    hide MoveStarter, LaunchedOk, Ordered, NamesOk, NameOk, PlaceOk, StartersReady, ReadyOk, Apply, EffectOk, Evolves, Launched;
    StarterEffects(cfg, s.shared, Locked(s), m, s.starter[m], pick, forked, mv);
    EffectEvolves(s.shared, mv.effect);
    LaunchedOkKept(cfg, s.shared, mv.effect);
    OrderedKept(cfg, s.shared, mv.effect);
    HoldersKept(cfg, s, AfterStarter(s, m, mv), mv.effect);
  }

  /** The holders keep what they hold, and a new one has just launched it. */
  lemma HoldersKept(cfg: Config, s: State, t: State, e: Effect)
    requires HoldersOk(cfg, s) && t.shared == Apply(s.shared, e) && t.requests == []
    requires forall n :: n in t.starter && HoldsLaunched(t.starter[n]) ==>
               (n in s.starter && HoldsLaunched(s.starter[n])) || Launched(t.shared, n)
    requires forall n :: StartHolds(cfg, t.start, n) ==> StartHolds(cfg, s.start, n) || Launched(t.shared, n)
    requires forall n :: n in t.waiter ==> n in cfg.procs && !Recurring(cfg, n)
    requires forall n :: n in t.waiter && PastCurrent(t.waiter[n]) ==>
               (n in s.waiter && PastCurrent(s.waiter[n])) || Launched(s.shared, n)
    ensures HoldersOk(cfg, t)
  {
    forall n | Launched(s.shared, n) ensures Launched(t.shared, n) {
      LaunchedKept(s.shared, e, n);
    }
    hide Launched, Apply;
  }

  lemma WaiterFree(cfg: Config, s: State, m: string, pick: Pick, outcome: bool)
    requires FreeOk(cfg, s) && StepWaiter(cfg, s, m, pick, outcome).Some?
    ensures FreeOk(cfg, StepWaiter(cfg, s, m, pick, outcome).value)
  {
    var mv := MoveWaiter(cfg, s.shared, Locked(s), m, s.waiter[m], pick, outcome).value;
    var t := AfterWaiter(s, m, mv);
    WaiterHolds(cfg, s.shared, Locked(s), m, s.waiter[m], pick, outcome, mv);
    WaiterEffects(cfg, s.shared, Locked(s), m, s.waiter[m], pick, outcome, mv);
    EffectEvolves(s.shared, mv.effect);
    hide MoveWaiter, Evolves;
    if mv.effect.ForkRun? {
      LaunchedIsLaunchable(cfg, s.shared, m);
    }
    hide Ordered;
    LaunchedOkKept(cfg, s.shared, mv.effect);
    OrderedKept(cfg, s.shared, mv.effect);
    HoldersKept(cfg, s, t, mv.effect);
  }

  lemma StartFree(cfg: Config, s: State, forked: bool)
    requires FreeOk(cfg, s) && StepStart(cfg, s, forked).Some?
    ensures FreeOk(cfg, StepStart(cfg, s, forked).value)
  {
    var mv := MoveStart(cfg, s.shared, s.start, forked).value;
    var t := AfterStart(cfg, s, mv);
    StartHoldsOk(cfg, s.shared, s.start, forked, mv);
    StartEffects(cfg, s.shared, s.start, forked, mv);
    EffectEvolves(s.shared, mv.effect);
    hide MoveStart, Evolves, LaunchedOk, Ordered;
    if mv.effect.ForkRun? {
      ForkLaunches(s.shared, mv.effect.name, mv.effect.cause);
    }
    LaunchedOkKept(cfg, s.shared, mv.effect);
    OrderedKept(cfg, s.shared, mv.effect);
    HoldersKept(cfg, s, t, mv.effect);
  }

  lemma SharedFree(cfg: Config, s: State, t: State, e: Effect)
    requires FreeOk(cfg, s) && t.shared == Apply(s.shared, e) && t.requests == []
    requires t.starter == s.starter && t.start == s.start
    requires t.waiter == s.waiter || t.waiter == Waiters(cfg, s.shared)
    requires EffectOk(cfg, s.shared, e) && !TouchesHalt(e)
    ensures FreeOk(cfg, t)
  {
    EffectEvolves(s.shared, e);
    hide Evolves, LaunchedOk, Ordered, EffectOk;
    LaunchedOkKept(cfg, s.shared, e);
    OrderedKept(cfg, s.shared, e);
    HoldersKept(cfg, s, t, e);
  }

  lemma NextFree(cfg: Config, s: State, a: Action)
    requires FreeOk(cfg, s) && NamesOk(cfg, s) && StartersReady(cfg, s)
    requires Next(cfg, s, a).Some? && Next(cfg, s, a).value.requests == []
    ensures FreeOk(cfg, Next(cfg, s, a).value)
  {
    hide StepStart, StepStarter, StepWaiter, Apply, LaunchedOk, Ordered, NamesOk, StartersReady, Launched;
    var t := Next(cfg, s, a).value;
    match a
    case StartStep(forked) => StartFree(cfg, s, forked);
    case StarterStep(n, pick, forked) => StarterFree(cfg, s, n, pick, forked);
    case WaiterStep(n, pick, outcome) => WaiterFree(cfg, s, n, pick, outcome);
    case RequestStep(k, forked) => assert false;
    case AskRestart(n) => assert false;
    case ProbeStep(n, v) => SharedFree(cfg, s, t, ProbeEnds(n, v));
    case StopStep(k) => SharedFree(cfg, s, t, if s.stops[k].ToCancel? then CancelAll else Sweep);
    case RunExits(r) => SharedFree(cfg, s, t, StopRun(r));
    case _ => NothingHappens(s.shared); SharedFree(cfg, s, t, Nothing);
  }

  lemma {:induction false} FreeHolds(cfg: Config, acts: seq<Action>)
    requires WellFormed(cfg) && Execute(cfg, InitialState(cfg), acts).Some?
    requires Execute(cfg, InitialState(cfg), acts).value.requests == []
    ensures FreeOk(cfg, Execute(cfg, InitialState(cfg), acts).value)
  {
    hide Next;
    if acts != [] {
      var before := acts[..|acts| - 1];
      var s := Execute(cfg, InitialState(cfg), before).value;
      RequestsRemain(cfg, s, acts[|acts| - 1]);
      FreeHolds(cfg, before);
      InvariantHolds(cfg, before);
      LaunchedReady(cfg, before);
      NextFree(cfg, s, acts[|acts| - 1]);
    }
  }

  // ---------------------------------------------------------------- the theorems

  /** In every run: whatever a gate or a recurring loop has launched, all its dependencies were decided ready. */
  lemma GatesLaunchOnlyWhenReady(cfg: Config, s: State, k: nat)
    requires Reachable(cfg, s) && k < |s.shared.launches| && s.shared.launches[k].cause in {ByGate, ByLoop}
    ensures AllReady(cfg, s.shared, s.shared.launches[k].name)
  {
    var acts :| Execute(cfg, InitialState(cfg), acts) == Some(s);
    LaunchedReady(cfg, acts);
  }

  /** Without Restart: every transitive process dependency was launched before, and passed its check. */
  lemma LaunchesAreTopological(cfg: Config, s: State, k: nat, w: seq<string>)
    requires WellFormed(cfg) && Reachable(cfg, s) && s.requests == [] && k < |s.shared.launches|
    requires IsWalk(cfg.procs, w) && |w| >= 2 && w[0] == s.shared.launches[k].name
    ensures IsReady(s.shared, w[|w| - 1])
    ensures exists j :: 0 <= j < k && s.shared.launches[j].name == w[|w| - 1]
  {
    var acts :| Execute(cfg, InitialState(cfg), acts) == Some(s);
    FreeHolds(cfg, acts);
    var j := WalkWasLaunched(cfg, s.shared, k, w);
  }

  lemma {:induction false} WalkWasLaunched(cfg: Config, sh: Shared, k: nat, w: seq<string>) returns (j: nat)
    requires Ordered(cfg, sh) && k < |sh.launches|
    requires IsWalk(cfg.procs, w) && |w| >= 2 && w[0] == sh.launches[k].name
    ensures j < k && sh.launches[j].name == w[|w| - 1] && IsReady(sh, w[|w| - 1])
    decreases |w|
  {
    assert Edge(cfg.procs, w[0], w[1]);
    assert AllReady(cfg, sh, w[0]) && DepsBefore(cfg, sh.launches, k, w[0]);
    var i :| 0 <= i < k && sh.launches[i].name == w[1];
    if |w| == 2 {
      return i;
    }
    assert IsWalk(cfg.procs, w[1..]) by {
      forall x | 0 <= x < |w[1..]| - 1 ensures Edge(cfg.procs, w[1..][x], w[1..][x + 1]) {
        assert Edge(cfg.procs, w[x + 1], w[x + 2]);
      }
    }
    j := WalkWasLaunched(cfg, sh, i, w[1..]);
  }
}
