/**
 The starters of a process that no Restart was asked for never overlap: the gate, the
 recurring loop and the crash-restart of Wait each register a run only when it has none
 going. So only a run of a restarted process can be lost, and without any Restart every run
 has ended after Stop.
 */
module NoOverlap {
  import opened Wrappers
  import opened Depends
  import opened Startup
  import opened Protocol
  import opened Progress
  import opened Stopping

  /** The gate has not registered its run. */
  predicate BeforeAdopt(pc: Pc) {
    || pc.Idle? || InAwait(pc) || InHalt(pc) || pc.Lookup? || pc.ToFork? || pc.ForkFailed? || pc.ForkDecide?
    || pc.Adopting? || pc.Discarding?
  }

  /** The gate has registered its run and settled, or is over. */
  predicate AfterSettle(pc: Pc) { pc.Marking? || pc.Checking? || pc.End? }

  /** The registered run of `n`, if any, is not going. */
  predicate NotGoing(sh: Shared, n: string) {
    n in sh.processes ==> !IsLive(sh, sh.processes[n])
  }

  predicate IsRegistered(sh: Shared, n: string, r: nat) {
    n in sh.processes ==> sh.processes[n] == r
  }

  ghost predicate StarterAlone(cfg: Config, sh: Shared, n: string, pc: Pc) {
    && (GateOnly(cfg, n) && BeforeAdopt(pc) ==> n !in sh.processes)
    && (GateOnly(cfg, n) && n in sh.cells.closed && n !in sh.cells.blocked ==> AfterSettle(pc))
    && (GateOnly(cfg, n) ==> !pc.SettleRunning?)
    && (Recurring(cfg, n) ==> if pc.LoopWait? then IsRegistered(sh, n, pc.r) else NotGoing(sh, n))
  }

  ghost predicate WaiterAlone(cfg: Config, sh: Shared, n: string, pc: WaitPc) {
    && n in cfg.procs && !Recurring(cfg, n)
    && (pc.ReadStatus? ==> n in sh.cells.closed)
    && (GateOnly(cfg, n) && (pc.Current? || PastCurrent(pc)) ==> n in sh.cells.closed && n !in sh.cells.blocked)
    && (pc.Watching? ==> IsRegistered(sh, n, pc.r))
    && (pc.Exited? || pc.Refork? || pc.Readopting? ==> NotGoing(sh, n))
  }

  /** A Restart of `n` has been asked for. */
  ghost predicate Restarted(s: State, n: string) {
    exists k :: 0 <= k < |s.requests| && s.requests[k].name == n
  }

  ghost predicate Alone(cfg: Config, s: State) {
    && (forall n :: n in s.starter && !Restarted(s, n) ==> StarterAlone(cfg, s.shared, n, s.starter[n]))
    && (forall n :: n in s.waiter && !Restarted(s, n) ==> WaiterAlone(cfg, s.shared, n, s.waiter[n]))
    && (Locked(s) ==> s.waiter == map[])
    && (Locked(s) ==> forall j :: Dealt(cfg, s.start) <= j < |cfg.order| && !Restarted(s, cfg.order[j]) ==>
                                    StartAlone(cfg, s.start, s.shared, j))
  }

  /** Until Start reaches a process, or while it is about to register it, it has no run. */
  ghost predicate StartAlone(cfg: Config, start: StartPc, sh: Shared, j: nat)
    requires j < |cfg.order|
  {
    j > Dealt(cfg, start) || start.NextProcess? || start.StartAdopt? ==> cfg.order[j] !in sh.processes
  }

  /** The effect is not of a Restart of `n`. */
  predicate Leaves(e: Effect, n: string) { e.StartedNow? || e.Unregister? ==> e.name != n }

  // ---------------------------------------------------------------- names a step does not touch

  /** What a step does to a name it does not register. */
  lemma EffectElsewhere(sh: Shared, e: Effect, n: string)
    requires Leaves(e, n) && n !in Registers(e)
    requires n in sh.processes ==> sh.processes[n] < |sh.runs|
    ensures n in Apply(sh, e).processes ==> n in sh.processes && Apply(sh, e).processes[n] == sh.processes[n]
    ensures NotGoing(sh, n) ==> NotGoing(Apply(sh, e), n)
    ensures forall r: nat :: IsRegistered(sh, n, r) ==> IsRegistered(Apply(sh, e), n, r)
  {
  }

  lemma StarterElsewhere(cfg: Config, sh: Shared, e: Effect, n: string, pc: Pc)
    requires Leaves(e, n) && n !in Registers(e) && StarterAlone(cfg, sh, n, pc)
    requires e.Settled? && e.name == n ==> e.reason != "" || Recurring(cfg, n)
    requires n in sh.processes ==> sh.processes[n] < |sh.runs|
    ensures StarterAlone(cfg, Apply(sh, e), n, pc)
  {
  }

  lemma WaiterElsewhere(cfg: Config, sh: Shared, e: Effect, n: string, pc: WaitPc)
    requires Leaves(e, n) && n !in Registers(e) && WaiterAlone(cfg, sh, n, pc)
    requires sh.cells.pending !! sh.cells.closed
    requires n in sh.processes ==> sh.processes[n] < |sh.runs|
    ensures WaiterAlone(cfg, Apply(sh, e), n, pc)
  {
  }

  // ---------------------------------------------------------------- a starter's own name

  ghost predicate OwnStep(cfg: Config, sh: Shared, n: string, pc: Pc, mv: Move) {
    && !mv.effect.StartedNow? && !mv.effect.Unregister? && Registers(mv.effect) <= {n}
    && (mv.effect.Settled? ==> mv.effect.name == n || mv.effect.reason != "")
    && (StarterAlone(cfg, sh, n, pc) ==>
          && (mv.effect.RegisterRun? ==> NotGoing(sh, n) && mv.effect.name == n)
          && StarterAlone(cfg, Apply(sh, mv.effect), n, mv.pc))
  }

  lemma AwaitAlone(cfg: Config, sh: Shared, n: string, pc: Pc, pick: Pick, mv: Move)
    requires MoveAwait(cfg, sh, n, pc, pick) == Some(mv) && PlaceOk(cfg, sh, n, pc)
    ensures OwnStep(cfg, sh, n, pc, mv)
  {
  }

  lemma HaltAlone(cfg: Config, sh: Shared, n: string, pc: Pc, mv: Move)
    requires MoveHalt(cfg, sh, n, pc) == Some(mv) && PlaceOk(cfg, sh, n, pc)
    ensures OwnStep(cfg, sh, n, pc, mv)
  {
  }

  lemma GateAlone(cfg: Config, sh: Shared, locked: bool, n: string, pc: Pc, forked: bool, mv: Move)
    requires MoveGate(cfg, sh, locked, n, pc, forked) == Some(mv) && PlaceOk(cfg, sh, n, pc)
    requires n in sh.processes ==> sh.processes[n] < |sh.runs|
    ensures OwnStep(cfg, sh, n, pc, mv)
  {
  }

  lemma LoopAlone(cfg: Config, sh: Shared, locked: bool, n: string, pc: Pc, pick: Pick, forked: bool, mv: Move)
    requires MoveLoop(sh, locked, n, pc, pick, forked) == Some(mv) && PlaceOk(cfg, sh, n, pc)
    requires n in sh.processes ==> sh.processes[n] < |sh.runs|
    ensures OwnStep(cfg, sh, n, pc, mv)
  {
  }

  lemma StarterOwn(cfg: Config, sh: Shared, locked: bool, n: string, pc: Pc, pick: Pick, forked: bool, mv: Move)
    requires MoveStarter(cfg, sh, locked, n, pc, pick, forked) == Some(mv) && PlaceOk(cfg, sh, n, pc)
    requires n in sh.processes ==> sh.processes[n] < |sh.runs|
    ensures OwnStep(cfg, sh, n, pc, mv)
  {
    hide MoveAwait, MoveHalt, MoveGate, MoveLoop, PlaceOk, StarterAlone, OwnStep;
    if InAwait(pc) {
      AwaitAlone(cfg, sh, n, pc, pick, mv);
    } else if InHalt(pc) {
      HaltAlone(cfg, sh, n, pc, mv);
    } else if InLoop(pc) {
      LoopAlone(cfg, sh, locked, n, pc, pick, forked, mv);
    } else {
      GateAlone(cfg, sh, locked, n, pc, forked, mv);
    }
  }

  ghost predicate WaiterStepOwn(cfg: Config, sh: Shared, n: string, pc: WaitPc, mv: WaitMove) {
    && !mv.effect.StartedNow? && !mv.effect.Unregister? && Registers(mv.effect) <= {n} && !mv.effect.Settled?
    && (mv.effect.RegisterRun? ==> mv.effect.name == n && PastCurrent(pc))
    && (WaiterAlone(cfg, sh, n, pc) ==>
          && (mv.effect.RegisterRun? ==> NotGoing(sh, n))
          && WaiterAlone(cfg, Apply(sh, mv.effect), n, mv.pc))
  }

  lemma WaiterOwn(cfg: Config, sh: Shared, locked: bool, n: string, pc: WaitPc, pick: Pick, outcome: bool, mv: WaitMove)
    requires MoveWaiter(cfg, sh, locked, n, pc, pick, outcome) == Some(mv)
    requires n in sh.processes ==> sh.processes[n] < |sh.runs|
    ensures WaiterStepOwn(cfg, sh, n, pc, mv)
  {
  }

  /** A run is orphaned when another is registered under its name while it is going. */
  lemma NewOrphan(sh: Shared, e: Effect, r: nat)
    requires r in Apply(sh, e).orphans && r !in sh.orphans
    requires e.RegisterPlaceholder? && e.name in sh.processes ==> sh.processes[e.name] < |sh.runs|
    ensures e.RegisterRun? || e.RegisterPlaceholder?
    ensures e.name in sh.processes && sh.processes[e.name] == r && IsLive(sh, r)
  {
  }

  // ---------------------------------------------------------------- every step

  /** A gate that registers is the first to: no waiter has got past its status. */
  lemma RegisterKeepsWaiter(cfg: Config, sh: Shared, e: Effect, n: string, pc: Pc, w: WaitPc)
    requires e.RegisterRun? && e.name == n
    requires StarterAlone(cfg, sh, n, pc) && WaiterAlone(cfg, sh, n, w)
    requires (GateOnly(cfg, n) && BeforeAdopt(pc)) || Recurring(cfg, n)
    ensures WaiterAlone(cfg, Apply(sh, e), n, w)
  {
  }

  /** A waiter that registers has seen the gate settled. */
  lemma RegisterKeepsStarter(cfg: Config, sh: Shared, e: Effect, n: string, pc: Pc, w: WaitPc)
    requires e.RegisterRun? && e.name == n
    requires StarterAlone(cfg, sh, n, pc) && WaiterAlone(cfg, sh, n, w) && PastCurrent(w)
    ensures StarterAlone(cfg, Apply(sh, e), n, pc)
  {
  }

  lemma RegisteringPc(cfg: Config, sh: Shared, locked: bool, n: string, pc: Pc, pick: Pick, forked: bool, mv: Move)
    requires MoveStarter(cfg, sh, locked, n, pc, pick, forked) == Some(mv) && PlaceOk(cfg, sh, n, pc)
    requires mv.effect.RegisterRun?
    ensures (GateOnly(cfg, n) && BeforeAdopt(pc)) || Recurring(cfg, n)
  {
  }

  /** The names asked for stay asked for. */
  lemma RestartedStays(cfg: Config, s: State, a: Action, n: string)
    requires Next(cfg, s, a).Some? && Restarted(s, n)
    ensures Restarted(Next(cfg, s, a).value, n)
  {
    var t := Next(cfg, s, a).value;
    var k :| 0 <= k < |s.requests| && s.requests[k].name == n;
    hide MoveStart, MoveStarter, MoveWaiter, MoveRequest, Apply;
    assert t.requests[k].name == n;
  }

  lemma UnstartedUntouched(cfg: Config, s: State, e: Effect, j: nat)
    requires RunsKnown(s) && j < |cfg.order| && StartAlone(cfg, s.start, s.shared, j)
    requires Leaves(e, cfg.order[j]) && cfg.order[j] !in Registers(e)
    ensures StartAlone(cfg, s.start, Apply(s.shared, e), j)
  {
    EffectElsewhere(s.shared, e, cfg.order[j]);
  }

  /** What a starter's step says of its own name, and of others. */
  lemma StarterStepsOwn(cfg: Config, s: State, m: string, pick: Pick, forked: bool, mv: Move)
    requires NamesOk(cfg, s) && RunsKnown(s) && m in s.starter
    requires MoveStarter(cfg, s.shared, Locked(s), m, s.starter[m], pick, forked) == Some(mv)
    ensures OwnStep(cfg, s.shared, m, s.starter[m], mv) && (Registers(mv.effect) != {} ==> mv.effect.RegisterRun? && !Locked(s))
    ensures !mv.effect.RegisterPlaceholder? && forall n :: Leaves(mv.effect, n)
    ensures mv.effect.RegisterRun? ==> (GateOnly(cfg, m) && BeforeAdopt(s.starter[m])) || Recurring(cfg, m)
  {
    hide MoveStarter, PlaceOk, CheckerOk, HeldRun, Apply, StarterAlone;
    assert NameOk(cfg, s, m);
    StarterOwn(cfg, s.shared, Locked(s), m, s.starter[m], pick, forked, mv);
    StarterHands(cfg, s.shared, Locked(s), m, s.starter[m], pick, forked, mv);
    if mv.effect.RegisterRun? {
      RegisteringPc(cfg, s.shared, Locked(s), m, s.starter[m], pick, forked, mv);
    }
  }

  /** What a starter's step does to the starter, and to the waiter, of a process that is not restarted. */
  lemma StarterKeepsName(cfg: Config, s: State, m: string, mv: Move, n: string)
    requires Alone(cfg, s) && GatesOk(cfg, s.shared) && RunsKnown(s) && m in s.starter && !Restarted(s, n)
    requires OwnStep(cfg, s.shared, m, s.starter[m], mv)
    requires mv.effect.RegisterRun? ==> (GateOnly(cfg, m) && BeforeAdopt(s.starter[m])) || Recurring(cfg, m)
    ensures n in s.starter ==> StarterAlone(cfg, Apply(s.shared, mv.effect), n, if n == m then mv.pc else s.starter[n])
    ensures n in s.waiter && (n == m ==> !mv.effect.RegisterPlaceholder?) ==>
              WaiterAlone(cfg, Apply(s.shared, mv.effect), n, s.waiter[n])
  {
    hide Apply, StarterAlone, WaiterAlone, HeldRun, StartAlone, Restarted;
    if n in s.starter && n != m {
      StarterElsewhere(cfg, s.shared, mv.effect, n, s.starter[n]);
    }
    if n in s.waiter {
      if n !in Registers(mv.effect) {
        WaiterElsewhere(cfg, s.shared, mv.effect, n, s.waiter[n]);
      } else if mv.effect.RegisterRun? {
        RegisterKeepsWaiter(cfg, s.shared, mv.effect, n, s.starter[n], s.waiter[n]);
      }
    }
  }

  lemma StarterKeepsAlone(cfg: Config, s: State, m: string, pick: Pick, forked: bool)
    requires Alone(cfg, s) && NamesOk(cfg, s) && GatesOk(cfg, s.shared) && RunsKnown(s)
    requires StepStarter(cfg, s, m, pick, forked).Some?
    ensures Alone(cfg, StepStarter(cfg, s, m, pick, forked).value)
  {
    var mv := MoveStarter(cfg, s.shared, Locked(s), m, s.starter[m], pick, forked).value;
    var t := AfterStarter(s, m, mv);
    hide MoveStarter, Apply, NamesOk, StarterAlone, WaiterAlone, StartAlone, OwnStep, RunsKnown, GatesOk, Leaves;
    StarterStepsOwn(cfg, s, m, pick, forked, mv);
    assert forall n :: Restarted(t, n) <==> Restarted(s, n);
    hide Restarted;
    forall n | !Restarted(s, n)
      ensures n in s.starter ==> StarterAlone(cfg, t.shared, n, t.starter[n])
      ensures n in s.waiter ==> WaiterAlone(cfg, t.shared, n, s.waiter[n])
    {
      StarterKeepsName(cfg, s, m, mv, n);
    }
    forall j | Locked(s) && Dealt(cfg, s.start) <= j < |cfg.order| && !Restarted(s, cfg.order[j])
      ensures StartAlone(cfg, s.start, t.shared, j)
    {
      UnstartedUntouched(cfg, s, mv.effect, j);
    }
  }

  lemma WaiterKeepsAlone(cfg: Config, s: State, m: string, pick: Pick, outcome: bool)
    requires Alone(cfg, s) && GatesOk(cfg, s.shared) && RunsKnown(s) && StepWaiter(cfg, s, m, pick, outcome).Some?
    ensures Alone(cfg, StepWaiter(cfg, s, m, pick, outcome).value)
  {
    var mv := MoveWaiter(cfg, s.shared, Locked(s), m, s.waiter[m], pick, outcome).value;
    var t := AfterWaiter(s, m, mv);
    WaiterOwn(cfg, s.shared, Locked(s), m, s.waiter[m], pick, outcome, mv);
    WaiterHands(cfg, s.shared, Locked(s), m, s.waiter[m], pick, outcome, mv);
    assert forall n :: Restarted(t, n) <==> Restarted(s, n);
    hide MoveWaiter, Apply, StarterAlone, WaiterAlone, HeldRun, Restarted;
    forall n | n in t.starter && !Restarted(t, n) ensures StarterAlone(cfg, t.shared, n, t.starter[n]) {
      if n in Registers(mv.effect) {
        RegisterKeepsStarter(cfg, s.shared, mv.effect, n, s.starter[n], s.waiter[n]);
      } else {
        StarterElsewhere(cfg, s.shared, mv.effect, n, s.starter[n]);
      }
    }
    forall n | n in t.waiter && !Restarted(t, n) ensures WaiterAlone(cfg, t.shared, n, t.waiter[n]) {
      if n != m { WaiterElsewhere(cfg, s.shared, mv.effect, n, s.waiter[n]); }
    }
  }

  /** Steps of neither starters, waiters nor Start: what they do, they do to a restarted process. */
  lemma OtherKeepsAlone(cfg: Config, s: State, t: State, e: Effect)
    requires Alone(cfg, s) && GatesOk(cfg, s.shared) && RunsKnown(s)
    requires t.shared == Apply(s.shared, e) && t.starter == s.starter && t.start == s.start
    requires t.waiter == s.waiter || (t.waiter == Waiters(cfg, s.shared) && !Locked(s))
    requires forall n :: Restarted(s, n) ==> Restarted(t, n)
    requires forall n :: !Restarted(t, n) ==> Leaves(e, n) && n !in Registers(e)
    requires !e.Settled?
    ensures Alone(cfg, t)
  {
    hide Apply, StarterAlone, HeldRun, Restarted;
    forall j | Locked(s) && Dealt(cfg, s.start) <= j < |cfg.order| && !Restarted(t, cfg.order[j])
      ensures StartAlone(cfg, s.start, t.shared, j)
    {
      UnstartedUntouched(cfg, s, e, j);
    }
    forall n | n in t.starter && !Restarted(t, n) ensures StarterAlone(cfg, t.shared, n, t.starter[n]) {
      StarterElsewhere(cfg, s.shared, e, n, s.starter[n]);
    }
    forall n | n in t.waiter && !Restarted(t, n) ensures WaiterAlone(cfg, t.shared, n, t.waiter[n]) {
      if t.waiter == s.waiter {
        WaiterElsewhere(cfg, s.shared, e, n, s.waiter[n]);
      } else {
        WaiterBegins(cfg, s.shared, e, n);
      }
    }
  }

  lemma WaiterBegins(cfg: Config, sh: Shared, e: Effect, n: string)
    requires n in Waiters(cfg, sh)
    ensures WaiterAlone(cfg, Apply(sh, e), n, Waiters(cfg, sh)[n])
  {
    hide Apply;
  }

  lemma RequestKeepsAlone(cfg: Config, s: State, k: nat, forked: bool)
    requires Alone(cfg, s) && GatesOk(cfg, s.shared) && RunsKnown(s) && StepRequest(cfg, s, k, forked).Some?
    ensures Alone(cfg, StepRequest(cfg, s, k, forked).value)
  {
    var mv := MoveRequest(cfg, s.shared, Locked(s), s.requests[k], forked).value;
    var t := AfterRequest(s, k, mv);
    RequestEffects(cfg, s.shared, Locked(s), s.requests[k], forked, mv);
    RequestLeaves(cfg, s.shared, Locked(s), s.requests[k], forked, mv);
    assert Restarted(t, s.requests[k].name) by { assert t.requests[k].name == s.requests[k].name; }
    forall n | Restarted(s, n) ensures Restarted(t, n) {
      RestartedStays(cfg, s, RequestStep(k, forked), n);
    }
    hide MoveRequest, Apply, Alone, Restarted;
    OtherKeepsAlone(cfg, s, t, mv.effect);
  }

  lemma RequestLeaves(cfg: Config, sh: Shared, locked: bool, q: Request, forked: bool, mv: RequestMove)
    requires MoveRequest(cfg, sh, locked, q, forked) == Some(mv)
    ensures !mv.effect.Settled? && forall n :: n != q.name ==> Leaves(mv.effect, n)
  {
  }

  lemma StartKeepsAlone(cfg: Config, s: State, forked: bool)
    requires WellFormed(cfg) && Alone(cfg, s) && UndealtOk(cfg, s) && DealtOk(cfg, s) && GatesOk(cfg, s.shared)
      && RunsKnown(s)
    requires StepStart(cfg, s, forked).Some?
    ensures Alone(cfg, StepStart(cfg, s, forked).value)
  {
    var mv := MoveStart(cfg, s.shared, s.start, forked).value;
    var t := AfterStart(cfg, s, mv);
    StartOwn(cfg, s, forked, mv);
    StartEffects(cfg, s.shared, s.start, forked, mv);
    assert forall n :: Restarted(t, n) <==> Restarted(s, n);
    hide MoveStart, Apply, StarterAlone, WaiterAlone, HeldRun, DealtOk, UndealtOk, Restarted;
    forall j | !mv.pc.StartFailed? && !mv.pc.Up? && Dealt(cfg, mv.pc) <= j < |cfg.order| && !Restarted(s, cfg.order[j])
      ensures StartAlone(cfg, mv.pc, t.shared, j)
    {
      StartNext(cfg, s, forked, mv, j);
    }
    forall n | n in t.starter && !Restarted(t, n) ensures StarterAlone(cfg, t.shared, n, t.starter[n]) {
      StartOther(cfg, s, forked, mv, n);
    }
  }

  lemma StartOwn(cfg: Config, s: State, forked: bool, mv: StartMove)
    requires Alone(cfg, s) && DealtOk(cfg, s) && MoveStart(cfg, s.shared, s.start, forked) == Some(mv)
    ensures !mv.effect.StartedNow? && !mv.effect.Unregister? && Locked(s)
    ensures mv.effect.RegisterRun? || mv.effect.RegisterPlaceholder? ==>
              && s.start.i < |cfg.order| && mv.effect.name == cfg.order[s.start.i] && !GateOnly(cfg, mv.effect.name)
              && (!Restarted(s, mv.effect.name) ==> mv.effect.name !in s.shared.processes)
    ensures mv.effect.RegisterRun? ==> !Recurring(cfg, mv.effect.name)
  {
    assert s.start.NextProcess? || s.start.StartAdopt? ==>
             s.start.i < |cfg.order| && !Restarted(s, cfg.order[s.start.i]) ==> StartAlone(cfg, s.start, s.shared, s.start.i);
    hide Restarted;
  }

  lemma StartNext(cfg: Config, s: State, forked: bool, mv: StartMove, j: nat)
    requires WellFormed(cfg) && DealtOk(cfg, s) && MoveStart(cfg, s.shared, s.start, forked) == Some(mv) && RunsKnown(s)
    requires !mv.effect.StartedNow? && !mv.effect.Unregister?
    requires mv.effect.RegisterRun? || mv.effect.RegisterPlaceholder? ==>
               s.start.i < |cfg.order| && mv.effect.name == cfg.order[s.start.i]
    requires !mv.pc.StartFailed? && !mv.pc.Up? && Dealt(cfg, mv.pc) <= j < |cfg.order|
    requires Dealt(cfg, s.start) <= j ==> StartAlone(cfg, s.start, s.shared, j)
    ensures StartAlone(cfg, mv.pc, Apply(s.shared, mv.effect), j)
  {
    if cfg.order[j] !in Registers(mv.effect) {
      EffectElsewhere(s.shared, mv.effect, cfg.order[j]);
    }
  }

  lemma StartRegisters(cfg: Config, sh: Shared, e: Effect, n: string, pc: Pc)
    requires (e.RegisterRun? || e.RegisterPlaceholder?) && e.name == n && !GateOnly(cfg, n)
    requires e.RegisterRun? ==> !Recurring(cfg, n)
    requires e.RegisterPlaceholder? ==> !pc.LoopWait?
    ensures StarterAlone(cfg, Apply(sh, e), n, pc)
  {
  }

  lemma StartOther(cfg: Config, s: State, forked: bool, mv: StartMove, n: string)
    requires WellFormed(cfg) && UndealtOk(cfg, s) && RunsKnown(s) && n in s.starter
    requires StarterAlone(cfg, s.shared, n, s.starter[n])
    requires MoveStart(cfg, s.shared, s.start, forked) == Some(mv) && !mv.effect.StartedNow? && !mv.effect.Unregister?
    requires mv.effect.RegisterRun? ==> !GateOnly(cfg, mv.effect.name) && !Recurring(cfg, mv.effect.name)
    requires mv.effect.RegisterPlaceholder? ==> !GateOnly(cfg, mv.effect.name)
    requires GatesOk(cfg, s.shared)
    requires mv.spawn.Some? ==> s.start.NextProcess? && s.start.i < |cfg.order|
    ensures StarterAlone(cfg, Apply(s.shared, mv.effect), n, AfterStart(cfg, s, mv).starter[n])
  {
    if n in Registers(mv.effect) {
      StartRegisters(cfg, s.shared, mv.effect, n, AfterStart(cfg, s, mv).starter[n]);
    } else {
      StarterElsewhere(cfg, s.shared, mv.effect, n, s.starter[n]);
      hide Apply;
    }
  }

  lemma NextAlone(cfg: Config, s: State, a: Action)
    requires WellFormed(cfg) && Alone(cfg, s) && Invariant(cfg, s) && RunsKnown(s) && Next(cfg, s, a).Some?
    ensures Alone(cfg, Next(cfg, s, a).value)
  {
    var t := Next(cfg, s, a).value;
    forall n | Restarted(s, n) ensures Restarted(t, n) {
      RestartedStays(cfg, s, a, n);
    }
    hide StepStart, StepStarter, StepWaiter, StepRequest, Apply, NamesOk, OnceOk, ChecksOk, DealtOk, UndealtOk, GatesOk,
         RunsKnown, Alone, Restarted;
    match a
    case StartStep(forked) => StartKeepsAlone(cfg, s, forked);
    case StarterStep(n, pick, forked) => StarterKeepsAlone(cfg, s, n, pick, forked);
    case WaiterStep(n, pick, outcome) => WaiterKeepsAlone(cfg, s, n, pick, outcome);
    case RequestStep(k, forked) => RequestKeepsAlone(cfg, s, k, forked);
    case ProbeStep(n, v) => OtherKeepsAlone(cfg, s, t, ProbeEnds(n, v));
    case StopStep(k) => OtherKeepsAlone(cfg, s, t, if s.stops[k].ToCancel? then CancelAll else Sweep);
    case RunExits(r) => OtherKeepsAlone(cfg, s, t, StopRun(r));
    case _ => NothingHappens(s.shared); OtherKeepsAlone(cfg, s, t, Nothing);
  }

  lemma InitiallyAlone(cfg: Config)
    ensures Alone(cfg, InitialState(cfg))
  {
  }

  lemma {:induction false} AloneHolds(cfg: Config, acts: seq<Action>)
    requires WellFormed(cfg) && Execute(cfg, InitialState(cfg), acts).Some?
    ensures Alone(cfg, Execute(cfg, InitialState(cfg), acts).value)
  {
    InitiallyAlone(cfg);
    hide Next, Alone, Invariant, RunsKnown;
    if acts != [] {
      var before := acts[..|acts| - 1];
      AloneHolds(cfg, before);
      InvariantHolds(cfg, before);
      StopsHold(cfg, before);
      NextAlone(cfg, Execute(cfg, InitialState(cfg), before).value, acts[|acts| - 1]);
    }
  }

  // ---------------------------------------------------------------- which runs are lost

  /** Run `r` is going and registered for a process of which a Restart has been asked. */
  ghost predicate OfRestarted(s: State, r: nat) {
    exists n :: n in s.shared.processes && s.shared.processes[n] == r && IsLive(s.shared, r) && Restarted(s, n)
  }

  /** A step that orphans a run orphans one of a restarted process. */
  lemma StepOrphans(cfg: Config, s: State, a: Action, r: nat)
    requires WellFormed(cfg) && Alone(cfg, s) && Invariant(cfg, s) && RunsKnown(s) && Next(cfg, s, a).Some?
    requires r in Next(cfg, s, a).value.shared.orphans && r !in s.shared.orphans
    ensures OfRestarted(s, r)
  {
    hide MoveStart, MoveStarter, MoveWaiter, MoveRequest, NamesOk, OnceOk, ChecksOk, UndealtOk, GatesOk, Restarted, StarterAlone,
         WaiterAlone, HeldRun;
    match a
    case StartStep(forked) =>
      var mv := MoveStart(cfg, s.shared, s.start, forked).value;
      StartOwn(cfg, s, forked, mv);
      NewOrphan(s.shared, mv.effect, r);
    case StarterStep(n, pick, forked) =>
      StarterOrphans(cfg, s, n, pick, forked, r);
    case WaiterStep(n, pick, outcome) =>
      var mv := MoveWaiter(cfg, s.shared, Locked(s), n, s.waiter[n], pick, outcome).value;
      WaiterOwn(cfg, s.shared, Locked(s), n, s.waiter[n], pick, outcome, mv);
      WaiterHands(cfg, s.shared, Locked(s), n, s.waiter[n], pick, outcome, mv);
      NewOrphan(s.shared, mv.effect, r);
    case RequestStep(k, forked) =>
      var mv := MoveRequest(cfg, s.shared, Locked(s), s.requests[k], forked).value;
      RequestEffects(cfg, s.shared, Locked(s), s.requests[k], forked, mv);
      NewOrphan(s.shared, mv.effect, r);
      RestartedIs(s, k);
    case _ =>
  }

  lemma RestartedIs(s: State, k: nat)
    requires k < |s.requests|
    ensures Restarted(s, s.requests[k].name)
  {
  }

  lemma StarterOrphans(cfg: Config, s: State, m: string, pick: Pick, forked: bool, r: nat)
    requires Alone(cfg, s) && NamesOk(cfg, s) && RunsKnown(s) && StepStarter(cfg, s, m, pick, forked).Some?
    requires r in StepStarter(cfg, s, m, pick, forked).value.shared.orphans && r !in s.shared.orphans
    ensures OfRestarted(s, r)
  {
    var mv := MoveStarter(cfg, s.shared, Locked(s), m, s.starter[m], pick, forked).value;
    assert NameOk(cfg, s, m);
    StarterOwn(cfg, s.shared, Locked(s), m, s.starter[m], pick, forked, mv);
    StarterHands(cfg, s.shared, Locked(s), m, s.starter[m], pick, forked, mv);
    NewOrphan(s.shared, mv.effect, r);
    hide MoveStarter, NamesOk, StarterAlone, WaiterAlone, HeldRun, Restarted, PlaceOk;
  }

  /** A run that was replaced while going was one of a restarted process, at some point of the run of the protocol. */
  lemma {:induction false} OrphanWasRestarted(cfg: Config, acts: seq<Action>, r: nat) returns (i: nat)
    requires WellFormed(cfg) && Execute(cfg, InitialState(cfg), acts).Some?
    requires r in Execute(cfg, InitialState(cfg), acts).value.shared.orphans
    ensures i <= |acts| && Execute(cfg, InitialState(cfg), acts[..i]).Some?
    ensures OfRestarted(Execute(cfg, InitialState(cfg), acts[..i]).value, r)
  {
    hide Next, Alone, Invariant, RunsKnown, OfRestarted;
    i := 0;
    if acts != [] {
      var before := acts[..|acts| - 1];
      var s := Execute(cfg, InitialState(cfg), before).value;
      if r in s.shared.orphans {
        i := OrphanWasRestarted(cfg, before, r);
        assert before[..i] == acts[..i];
      } else {
        AloneHolds(cfg, before);
        InvariantHolds(cfg, before);
        StopsHold(cfg, before);
        StepOrphans(cfg, s, acts[|acts| - 1], r);
        i := |acts| - 1;
      }
    }
  }

  /**
   Only a restarted process can lose a run: of those still going after Stop, with no goroutine
   holding a run, each was at some point registered for a process whose Restart had been asked.
   */
  lemma OnlyARestartedProcessOutlivesStop(cfg: Config, acts: seq<Action>, r: nat)
    requires WellFormed(cfg) && Execute(cfg, InitialState(cfg), acts).Some?
    requires var s := Execute(cfg, InitialState(cfg), acts).value; s.shared.swept && NoneInFlight(s) && IsLive(s.shared, r)
    ensures exists i :: && 0 <= i <= |acts| && Execute(cfg, InitialState(cfg), acts[..i]).Some?
                        && OfRestarted(Execute(cfg, InitialState(cfg), acts[..i]).value, r)
  {
    hide Next, OfRestarted;
    OnlyOrphansOutliveStop(cfg, Execute(cfg, InitialState(cfg), acts).value, r);
    var i := OrphanWasRestarted(cfg, acts, r);
  }

  lemma {:induction false} NoneAsked(cfg: Config, acts: seq<Action>, i: nat)
    requires i <= |acts| && Execute(cfg, InitialState(cfg), acts).Some? && Execute(cfg, InitialState(cfg), acts[..i]).Some?
    requires Execute(cfg, InitialState(cfg), acts).value.requests == []
    ensures Execute(cfg, InitialState(cfg), acts[..i]).value.requests == []
    decreases |acts|
  {
    hide Next;
    if i == |acts| {
      assert acts[..i] == acts;
    } else {
      var before := acts[..|acts| - 1];
      RequestsRemain(cfg, Execute(cfg, InitialState(cfg), before).value, acts[|acts| - 1]);
      assert before[..i] == acts[..i];
      NoneAsked(cfg, before, i);
    }
  }

  /** So without Restart nothing at all outlives Stop: with no goroutine holding a run, every run has ended. */
  lemma WithoutRestartNothingOutlivesStop(cfg: Config, s: State)
    requires WellFormed(cfg) && Reachable(cfg, s) && s.requests == [] && s.shared.swept && NoneInFlight(s)
    ensures forall r: nat :: !IsLive(s.shared, r)
  {
    var acts :| Execute(cfg, InitialState(cfg), acts) == Some(s);
    forall r: nat ensures !IsLive(s.shared, r) {
      if IsLive(s.shared, r) {
        OnlyARestartedProcessOutlivesStop(cfg, acts, r);
        var i :| && 0 <= i <= |acts| && Execute(cfg, InitialState(cfg), acts[..i]).Some?
                 && OfRestarted(Execute(cfg, InitialState(cfg), acts[..i]).value, r);
        NoneAsked(cfg, acts, i);
      }
    }
  }
}
