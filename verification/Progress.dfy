/**
 Startup cannot deadlock: for every configuration ValidateDependencies accepts, in every
 state of every run that has not been stopped, a process still pending means that some
 goroutine of startup can take a step; and those steps run out.
 */
module Progress {
  import opened Wrappers
  import opened Depends
  import opened Startup
  import opened Protocol

  // ---------------------------------------------------------------- what holds in every state

  /** Someone is about to launch, or has launched, the healthcheck of `n`. */
  ghost predicate HasChecker(s: State, n: string) {
    || n in s.shared.cells.checked
    || (n in s.starter && IsCheckerPc(s.starter[n]))
    || exists k :: 0 <= k < |s.requests| && IsChecker(s.requests[k], n)
  }

  predicate IsCheckerPc(pc: Pc) { pc.Settling? || pc.Marking? }

  predicate IsChecker(q: Request, n: string) {
    q.name == n && (q.pc.RestartStarted? || q.pc.RestartMark?)
  }

  /** The starter may still settle its process. */
  predicate MaySettle(pc: Pc) {
    || pc.Idle? || InAwait(pc) || InHalt(pc) || pc.Lookup? || pc.SettleRunning? || pc.ToFork? || pc.ForkFailed?
    || pc.Adopting? || pc.Settling? || pc.LoopSettle?
  }

  predicate GatePc(pc: Pc) {
    || pc.Lookup? || pc.SettleRunning? || pc.ToFork? || pc.ForkFailed? || pc.ForkDecide? || pc.Adopting?
    || pc.Discarding? || pc.Settling? || pc.Marking? || pc.Checking?
  }

  /** The place a starter can be in, given the shared state. */
  ghost predicate PlaceOk(cfg: Config, sh: Shared, n: string, pc: Pc) {
    && (n in sh.cells.pending ==> MaySettle(pc) || sh.cancelled || sh.once.Over?)
    && (pc.Await? ==> pc.i <= |Deps(cfg, n)|)
    && (pc.Select? ==>
          && pc.i < |Deps(cfg, n)|
          && (Deps(cfg, n)[pc.i] in cfg.procs || Deps(cfg, n)[pc.i] in sh.cells.checked))
    && (pc.Discarding? ==> sh.cancelled)
    && (InLoop(pc) ==> Recurring(cfg, n))
    && (GatePc(pc) ==> GateOnly(cfg, n))
    && (!Recurring(cfg, n) && Deps(cfg, n) == [] ==> pc.Idle?)
  }

  predicate PastCurrent(w: WaitPc) {
    w.Watching? || w.Exited? || w.Refork? || w.Readopting? || w.Rediscarding?
  }

  /** A gated process that is registered, or whose gate is closed, is checked or about to be. */
  ghost predicate CheckerOk(cfg: Config, s: State, n: string)
    requires n in s.starter
  {
    && (s.starter[n].SettleRunning? ==> HasChecker(s, n))
    && (GateOnly(cfg, n) ==>
          && (n in s.shared.processes ==> HasChecker(s, n))
          && (n in s.waiter && PastCurrent(s.waiter[n]) ==> HasChecker(s, n))
          && (n in s.shared.cells.closed ==>
                HasChecker(s, n) || n in s.shared.cells.decided || s.starter[n].ForkDecide? || !s.shared.once.Free?))
  }

  ghost predicate NameOk(cfg: Config, s: State, n: string)
    requires n in s.starter
  {
    PlaceOk(cfg, s.shared, n, s.starter[n]) && CheckerOk(cfg, s, n)
  }

  ghost predicate NamesOk(cfg: Config, s: State) {
    && s.starter.Keys == cfg.procs.Keys
    && forall n :: n in s.starter ==> NameOk(cfg, s, n)
  }

  predicate InOnce(pc: Pc) { pc.Halting? || pc.Blocking? }

  /** haltOnce: while one goroutine is in it, everything pending is on its list. */
  ghost predicate OnceOk(s: State) {
    && (s.shared.once.Over? ==> s.shared.cells.pending == {})
    && (s.shared.once.Held? ==> s.shared.once.holder in s.starter && InOnce(s.starter[s.shared.once.holder]))
    && (forall n :: n in s.starter && InOnce(s.starter[n]) ==>
          && s.shared.once == Held(n)
          && (s.starter[n].Blocking? ==> forall p :: p in s.shared.cells.pending ==> p in s.starter[n].rest))
  }

  /** A claimed check whose probe has not been launched yet. */
  ghost predicate AtCheck(cfg: Config, s: State, x: string) {
    || (s.start.StartCheck? && s.start.i < |cfg.order| && cfg.order[s.start.i] == x)
    || (x in s.starter && s.starter[x].Checking?)
    || exists k :: 0 <= k < |s.requests| && IsAtCheck(s.requests[k], x)
  }

  predicate IsAtCheck(q: Request, x: string) { q.name == x && q.pc.RestartCheck? }

  /** Every claimed check is decided, being probed, or about to be. */
  ghost predicate ChecksOk(cfg: Config, s: State) {
    forall x :: x in s.shared.cells.checked && x !in s.shared.cells.decided ==>
                  x in s.shared.probing || AtCheck(cfg, s, x)
  }

  /** How many configured processes Start has dealt with. */
  function Dealt(cfg: Config, start: StartPc): nat {
    match start
    case NextProcess(i) => i
    case StartAdopt(i, _) => i
    case StartMark(i) => i
    case StartCheck(i) => i
    case Up => |cfg.order|
    case StartFailed => 0
  }

  ghost predicate DealtOk(cfg: Config, s: State) {
    && (s.start.StartFailed? ==> s.shared.cancelled)
    && (s.start.StartAdopt? || s.start.StartMark? || s.start.StartCheck? ==>
          s.start.i < |cfg.order| && !Recurring(cfg, cfg.order[s.start.i]) && Deps(cfg, cfg.order[s.start.i]) == [])
    && (s.start.StartCheck? ==> cfg.order[s.start.i] in s.shared.cells.checked)
    && (forall j :: 0 <= j < Dealt(cfg, s.start) && j < |cfg.order| ==> DealtWith(cfg, s, cfg.order[j]))
  }

  /** Until Start reaches a process, its goroutine does not exist. */
  ghost predicate UndealtOk(cfg: Config, s: State) {
    s.starter.Keys == cfg.procs.Keys
    && forall j :: 0 <= j < |cfg.order| && !s.start.StartFailed? && j >= Dealt(cfg, s.start) ==>
                     cfg.order[j] in s.starter && s.starter[cfg.order[j]].Idle?
  }

  ghost predicate DealtWith(cfg: Config, s: State, n: string) {
    && n in s.starter
    && if Recurring(cfg, n) || Deps(cfg, n) != [] then !s.starter[n].Idle? else n in s.shared.cells.checked
  }

  /** An open or a closed gate for exactly the processes with dependencies. */
  ghost predicate GatesOk(cfg: Config, sh: Shared) {
    && sh.cells.pending !! sh.cells.closed
    && forall n :: n in sh.cells.pending + sh.cells.closed <==> n in cfg.procs && Deps(cfg, n) != []
  }

  ghost predicate Invariant(cfg: Config, s: State) {
    NamesOk(cfg, s) && OnceOk(s) && ChecksOk(cfg, s) && DealtOk(cfg, s) && UndealtOk(cfg, s) && GatesOk(cfg, s.shared)
  }

  lemma InitiallyInvariant(cfg: Config)
    requires WellFormed(cfg)
    ensures Invariant(cfg, InitialState(cfg))
  {
  }

  // ---------------------------------------------------------------- what effects leave alone

  /** What no step takes back. */
  ghost predicate Evolves(sh: Shared, th: Shared) {
    && CellsGrow(sh.cells, th.cells)
    && (sh.cancelled ==> th.cancelled)
    && (!sh.once.Free? ==> !th.once.Free?) && (sh.once.Over? ==> th.once.Over? )
  }

  function Closes(e: Effect): set<string> {
    match e
    case Settled(n, _) => {n}
    case StartedNow(n) => {n}
    case _ => {}
  }

  function Registers(e: Effect): set<string> {
    match e
    case RegisterRun(n, _) => {n}
    case RegisterPlaceholder(n) => {n}
    case _ => {}
  }

  function Claims(e: Effect): set<string> {
    match e
    case Claim(n) => {n}
    case ClaimService(n) => {n}
    case _ => {}
  }

  predicate TouchesHalt(e: Effect) { e.TakeHalt? || e.EndHalt? }

  lemma EffectEvolves(sh: Shared, e: Effect)
    requires e.TakeHalt? ==> sh.once.Free?
    ensures Evolves(sh, Apply(sh, e))
  {
  }

  lemma EffectNames(sh: Shared, e: Effect)
    ensures Apply(sh, e).cells.closed <= sh.cells.closed + Closes(e)
    ensures Apply(sh, e).processes.Keys <= sh.processes.Keys + Registers(e)
    ensures Apply(sh, e).cells.checked == sh.cells.checked + Claims(e)
    ensures !TouchesHalt(e) ==> Apply(sh, e).once == sh.once
    ensures forall x :: x in sh.probing ==> x in Apply(sh, e).probing || x in Apply(sh, e).cells.decided
    ensures e.ClaimService? || e.Probe? ==> e.name in Apply(sh, e).probing
    ensures e.Decided? ==> e.name in Apply(sh, e).cells.decided
  {
  }

  lemma EffectGates(cfg: Config, sh: Shared, e: Effect)
    requires GatesOk(cfg, sh)
    ensures GatesOk(cfg, Apply(sh, e))
  {
  }

  // ---------------------------------------------------------------- a starter's step

  function AfterStarter(s: State, m: string, mv: Move): State {
    s.(shared := Apply(s.shared, mv.effect), starter := s.starter[m := mv.pc])
  }

  /** What the table of a starter's steps says of its effects. */
  lemma StarterEffects(cfg: Config, sh: Shared, locked: bool, n: string, pc: Pc, pick: Pick, forked: bool, mv: Move)
    requires MoveStarter(cfg, sh, locked, n, pc, pick, forked) == Some(mv)
    ensures !mv.pc.Idle? && !pc.Idle? && !pc.End?
    ensures mv.effect.TakeHalt? ==> sh.once.Free? && mv.effect.holder == n && mv.pc.Halting?
    ensures TouchesHalt(mv.effect) || InOnce(pc) || InOnce(mv.pc) ==> InHalt(pc)
    ensures Closes(mv.effect) <= {n} || pc.Blocking?
    ensures Registers(mv.effect) <= {n} && (Registers(mv.effect) != {} ==> IsCheckerPc(mv.pc) || InLoop(pc))
    ensures IsCheckerPc(pc) ==> IsCheckerPc(mv.pc) || n in Apply(sh, mv.effect).cells.checked
    ensures pc.Checking? ==> mv.effect == LaunchCheck(cfg, n)
    ensures mv.effect.Claim? ==> mv.effect.name == n && mv.pc.Checking?
  {
  }

  lemma AwaitPlace(cfg: Config, sh: Shared, n: string, pc: Pc, pick: Pick, mv: Move)
    requires MoveAwait(cfg, sh, n, pc, pick) == Some(mv) && PlaceOk(cfg, sh, n, pc)
    ensures PlaceOk(cfg, Apply(sh, mv.effect), n, mv.pc)
  {
  }

  lemma HaltPlace(cfg: Config, sh: Shared, n: string, pc: Pc, mv: Move)
    requires MoveHalt(cfg, sh, n, pc) == Some(mv) && PlaceOk(cfg, sh, n, pc)
    ensures PlaceOk(cfg, Apply(sh, mv.effect), n, mv.pc)
  {
  }

  lemma GatePlace(cfg: Config, sh: Shared, locked: bool, n: string, pc: Pc, forked: bool, mv: Move)
    requires MoveGate(cfg, sh, locked, n, pc, forked) == Some(mv) && PlaceOk(cfg, sh, n, pc)
    ensures PlaceOk(cfg, Apply(sh, mv.effect), n, mv.pc)
  {
  }

  lemma LoopPlace(cfg: Config, sh: Shared, locked: bool, n: string, pc: Pc, pick: Pick, forked: bool, mv: Move)
    requires MoveLoop(sh, locked, n, pc, pick, forked) == Some(mv) && PlaceOk(cfg, sh, n, pc)
    ensures PlaceOk(cfg, Apply(sh, mv.effect), n, mv.pc)
  {
  }

  lemma StarterPlace(cfg: Config, sh: Shared, locked: bool, n: string, pc: Pc, pick: Pick, forked: bool, mv: Move)
    requires MoveStarter(cfg, sh, locked, n, pc, pick, forked) == Some(mv) && PlaceOk(cfg, sh, n, pc)
    ensures PlaceOk(cfg, Apply(sh, mv.effect), n, mv.pc)
  {
    hide Apply, PlaceOk, MoveAwait, MoveHalt, MoveLoop, MoveGate;
    if InAwait(pc) {
      AwaitPlace(cfg, sh, n, pc, pick, mv);
    } else if InHalt(pc) {
      HaltPlace(cfg, sh, n, pc, mv);
    } else if InLoop(pc) {
      LoopPlace(cfg, sh, locked, n, pc, pick, forked, mv);
    } else {
      GatePlace(cfg, sh, locked, n, pc, forked, mv);
    }
  }

  /** Why a gate that closes, or a run that registers, leaves a checker behind. */
  lemma StarterClosing(cfg: Config, sh: Shared, locked: bool, n: string, pc: Pc, pick: Pick, forked: bool, mv: Move)
    requires MoveStarter(cfg, sh, locked, n, pc, pick, forked) == Some(mv)
    ensures mv.pc.SettleRunning? ==> pc.Lookup? && n in sh.processes
    ensures n in Closes(mv.effect) ==>
              pc.SettleRunning? || mv.pc.ForkDecide? || IsCheckerPc(mv.pc) || pc.Blocking? || InLoop(pc)
    ensures pc.ForkDecide? ==> n in Apply(sh, mv.effect).cells.decided
  {
  }

  /** A step that is not the starter of `n`, and registers or closes it only with a checker, keeps it. */
  lemma NameKept(cfg: Config, s: State, t: State, n: string)
    requires n in s.starter && NameOk(cfg, s, n) && Evolves(s.shared, t.shared)
    requires n in t.starter && t.starter[n] == s.starter[n]
    requires HasChecker(s, n) ==> HasChecker(t, n)
    requires n in t.shared.processes ==> n in s.shared.processes || HasChecker(t, n) || !GateOnly(cfg, n)
    requires n in t.waiter && PastCurrent(t.waiter[n]) ==>
               (n in s.waiter && PastCurrent(s.waiter[n])) || HasChecker(t, n) || !GateOnly(cfg, n)
    requires n in t.shared.cells.closed ==>
               n in s.shared.cells.closed || HasChecker(t, n) || !t.shared.once.Free?
    ensures NameOk(cfg, t, n)
  {
  }

  /** Checkers stay checkers until the check is claimed. */
  lemma CheckerKept(s: State, t: State, n: string)
    requires HasChecker(s, n) && s.shared.cells.checked <= t.shared.cells.checked
    requires n in s.starter && IsCheckerPc(s.starter[n]) ==> HasChecker(t, n)
    requires |s.requests| <= |t.requests|
    requires forall k :: 0 <= k < |s.requests| && IsChecker(s.requests[k], n) ==>
               IsChecker(t.requests[k], n) || n in t.shared.cells.checked
    ensures HasChecker(t, n)
  {
  }

  lemma StarterNames(cfg: Config, s: State, m: string, pick: Pick, forked: bool, mv: Move)
    requires NamesOk(cfg, s) && OnceOk(s) && m in s.starter
    requires MoveStarter(cfg, s.shared, Locked(s), m, s.starter[m], pick, forked) == Some(mv)
    ensures NamesOk(cfg, AfterStarter(s, m, mv))
  {
    var t := AfterStarter(s, m, mv);
    var pc := s.starter[m];
    assert NameOk(cfg, s, m);
    StarterEffects(cfg, s.shared, Locked(s), m, pc, pick, forked, mv);
    StarterPlace(cfg, s.shared, Locked(s), m, pc, pick, forked, mv);
    StarterClosing(cfg, s.shared, Locked(s), m, pc, pick, forked, mv);
    EffectEvolves(s.shared, mv.effect);
    EffectNames(s.shared, mv.effect);
    assert pc.Blocking? ==> InOnce(pc);
    hide MoveStarter, Apply, PlaceOk, OnceOk;
    forall n | n in t.starter ensures NameOk(cfg, t, n) {
      assert NameOk(cfg, s, n);
      if n != m {
        if HasChecker(s, n) { CheckerKept(s, t, n); }
        NameKept(cfg, s, t, n);
      } else {
        if HasChecker(s, m) { CheckerKept(s, t, m); }
        StarterChecker(cfg, s, t, m, mv);
      }
    }
  }

  lemma StarterChecker(cfg: Config, s: State, t: State, m: string, mv: Move)
    requires m in s.starter && m in t.starter && CheckerOk(cfg, s, m) && t.starter[m] == mv.pc && t.waiter == s.waiter
    requires Evolves(s.shared, t.shared)
    requires HasChecker(s, m) ==> HasChecker(t, m)
    requires IsCheckerPc(mv.pc) ==> HasChecker(t, m)
    requires mv.pc.SettleRunning? ==> s.starter[m].Lookup? && m in s.shared.processes && GateOnly(cfg, m)
    requires m in t.shared.processes ==> m in s.shared.processes || IsCheckerPc(mv.pc) || !GateOnly(cfg, m)
    requires m in t.shared.cells.closed && m !in s.shared.cells.closed ==>
               s.starter[m].SettleRunning? || mv.pc.ForkDecide? || IsCheckerPc(mv.pc) || !t.shared.once.Free? || !GateOnly(cfg, m)
    requires s.starter[m].ForkDecide? ==> m in t.shared.cells.decided
    ensures CheckerOk(cfg, t, m)
  {
  }

  lemma StarterOnce(cfg: Config, s: State, m: string, pick: Pick, forked: bool, mv: Move)
    requires OnceOk(s) && m in s.starter && forall n :: n in s.shared.cells.pending ==> n in cfg.order
    requires MoveStarter(cfg, s.shared, Locked(s), m, s.starter[m], pick, forked) == Some(mv)
    ensures OnceOk(AfterStarter(s, m, mv))
  {
    var pc := s.starter[m];
    StarterEffects(cfg, s.shared, Locked(s), m, pc, pick, forked, mv);
    EffectNames(s.shared, mv.effect);
    if InHalt(pc) {
      HaltOnce(cfg, s, m, mv);
    } else {
      EffectEvolves(s.shared, mv.effect);
      hide MoveStarter, Apply;
    }
  }

  lemma HaltOnce(cfg: Config, s: State, m: string, mv: Move)
    requires OnceOk(s) && m in s.starter && forall n :: n in s.shared.cells.pending ==> n in cfg.order
    requires MoveHalt(cfg, s.shared, m, s.starter[m]) == Some(mv)
    ensures OnceOk(AfterStarter(s, m, mv))
  {
    WaitingHolds(cfg.order, s.shared.cells.pending);
  }

  lemma StarterChecks(cfg: Config, s: State, m: string, pick: Pick, forked: bool, mv: Move)
    requires ChecksOk(cfg, s) && m in s.starter
    requires MoveStarter(cfg, s.shared, Locked(s), m, s.starter[m], pick, forked) == Some(mv)
    ensures ChecksOk(cfg, AfterStarter(s, m, mv))
  {
    var t := AfterStarter(s, m, mv);
    StarterEffects(cfg, s.shared, Locked(s), m, s.starter[m], pick, forked, mv);
    EffectNames(s.shared, mv.effect);
    EffectEvolves(s.shared, mv.effect);
    hide MoveStarter, Apply;
    ChecksKept(cfg, s, t, m);
  }

  /** A claimed check goes from its claimer to its probe; nobody else's is touched. */
  lemma ChecksKept(cfg: Config, s: State, t: State, m: string)
    requires ChecksOk(cfg, s) && Evolves(s.shared, t.shared)
    requires forall x :: x in t.shared.cells.checked && x !in s.shared.cells.checked ==>
               x in t.shared.probing || (x == m && AtCheck(cfg, t, x))
    requires forall x :: x in s.shared.probing ==> x in t.shared.probing || x in t.shared.cells.decided
    requires forall x :: AtCheck(cfg, s, x) ==>
               AtCheck(cfg, t, x) || (x == m && (x in t.shared.probing || x in t.shared.cells.decided))
    ensures ChecksOk(cfg, t)
  {
  }

  lemma StarterDealt(cfg: Config, s: State, m: string, pick: Pick, forked: bool, mv: Move)
    requires DealtOk(cfg, s) && UndealtOk(cfg, s) && m in s.starter
    requires MoveStarter(cfg, s.shared, Locked(s), m, s.starter[m], pick, forked) == Some(mv)
    ensures DealtOk(cfg, AfterStarter(s, m, mv)) && UndealtOk(cfg, AfterStarter(s, m, mv))
  {
    StarterEffects(cfg, s.shared, Locked(s), m, s.starter[m], pick, forked, mv);
    EffectEvolves(s.shared, mv.effect);
    hide MoveStarter, Apply;
  }

  lemma StarterKeeps(cfg: Config, s: State, m: string, pick: Pick, forked: bool)
    requires WellFormed(cfg) && Invariant(cfg, s) && StepStarter(cfg, s, m, pick, forked).Some?
    ensures Invariant(cfg, StepStarter(cfg, s, m, pick, forked).value)
  {
    var mv := MoveStarter(cfg, s.shared, Locked(s), m, s.starter[m], pick, forked).value;
    PendingIsOrdered(cfg, s.shared);
    hide MoveStarter, Apply, NamesOk, OnceOk, ChecksOk, DealtOk, UndealtOk, GatesOk;
    StarterNames(cfg, s, m, pick, forked, mv);
    StarterOnce(cfg, s, m, pick, forked, mv);
    StarterChecks(cfg, s, m, pick, forked, mv);
    StarterDealt(cfg, s, m, pick, forked, mv);
    EffectGates(cfg, s.shared, mv.effect);
  }

  lemma PendingIsOrdered(cfg: Config, sh: Shared)
    requires WellFormed(cfg) && GatesOk(cfg, sh)
    ensures forall n :: n in sh.cells.pending ==> n in cfg.order
  {
  }

  // ---------------------------------------------------------------- the other goroutines' steps

  /** A step of no starter, and not of Start: what remains to be shown of it. */
  lemma OtherKeeps(cfg: Config, s: State, t: State, m: string)
    requires WellFormed(cfg) && Invariant(cfg, s)
    requires t.starter == s.starter && t.start == s.start
    requires Evolves(s.shared, t.shared) && t.shared.once == s.shared.once && GatesOk(cfg, t.shared)
    requires forall n :: HasChecker(s, n) ==> HasChecker(t, n)
    requires forall n :: n in t.shared.processes && n !in s.shared.processes && GateOnly(cfg, n) ==> HasChecker(t, n)
    requires forall n :: n in t.waiter && PastCurrent(t.waiter[n]) && GateOnly(cfg, n) ==>
               (n in s.waiter && PastCurrent(s.waiter[n])) || HasChecker(t, n)
    requires forall n :: n in t.shared.cells.closed && n !in s.shared.cells.closed ==> HasChecker(t, n)
    requires ChecksOk(cfg, t)
    ensures Invariant(cfg, t)
  {
    hide HasChecker, ChecksOk, GatesOk;
    forall n | n in t.starter ensures NameOk(cfg, t, n) {
      assert NameOk(cfg, s, n);
      hide PlaceOk, CheckerOk;
      NameKept(cfg, s, t, n);
    }
  }

  function AfterWaiter(s: State, m: string, mv: WaitMove): State {
    s.(shared := Apply(s.shared, mv.effect), waiter := s.waiter[m := mv.pc])
  }

  lemma WaiterEffects(cfg: Config, sh: Shared, locked: bool, n: string, pc: WaitPc, pick: Pick, outcome: bool,
                      mv: WaitMove)
    requires MoveWaiter(cfg, sh, locked, n, pc, pick, outcome) == Some(mv)
    ensures !TouchesHalt(mv.effect) && Closes(mv.effect) == {} && Claims(mv.effect) == {}
    ensures !mv.effect.ProbeEnds?
    ensures Registers(mv.effect) <= {n} && (Registers(mv.effect) != {} ==> PastCurrent(pc))
    ensures PastCurrent(mv.pc) ==> PastCurrent(pc) || n in sh.processes
  {
  }

  lemma WaiterKeeps(cfg: Config, s: State, m: string, pick: Pick, outcome: bool)
    requires WellFormed(cfg) && Invariant(cfg, s) && StepWaiter(cfg, s, m, pick, outcome).Some?
    ensures Invariant(cfg, StepWaiter(cfg, s, m, pick, outcome).value)
  {
    var mv := MoveWaiter(cfg, s.shared, Locked(s), m, s.waiter[m], pick, outcome).value;
    var t := AfterWaiter(s, m, mv);
    WaiterEffects(cfg, s.shared, Locked(s), m, s.waiter[m], pick, outcome, mv);
    EffectEvolves(s.shared, mv.effect);
    EffectNames(s.shared, mv.effect);
    EffectGates(cfg, s.shared, mv.effect);
    hide MoveWaiter, Apply, GatesOk, OnceOk, DealtOk, UndealtOk, PlaceOk;
    forall n | HasChecker(s, n) ensures HasChecker(t, n) {
      CheckerKept(s, t, n);
    }
    if m in s.starter { assert NameOk(cfg, s, m); }
    ChecksKept(cfg, s, t, m);
    hide HasChecker, NamesOk, ChecksOk;
    OtherKeeps(cfg, s, t, m);
  }

  function AfterRequest(s: State, k: nat, mv: RequestMove): State
    requires k < |s.requests|
  {
    s.(shared := Apply(s.shared, mv.effect), requests := s.requests[k := Request(s.requests[k].name, mv.pc)])
  }

  lemma RequestEffects(cfg: Config, sh: Shared, locked: bool, q: Request, forked: bool, mv: RequestMove)
    requires MoveRequest(cfg, sh, locked, q, forked) == Some(mv)
    ensures !TouchesHalt(mv.effect) && !mv.effect.ProbeEnds?
    ensures Closes(mv.effect) <= {q.name} && (Closes(mv.effect) != {} ==> mv.pc.RestartMark?)
    ensures Registers(mv.effect) <= {q.name} && (Registers(mv.effect) != {} ==> mv.pc.RestartStarted?)
    ensures IsChecker(q, q.name) ==>
              IsChecker(Request(q.name, mv.pc), q.name) || q.name in Apply(sh, mv.effect).cells.checked
    ensures Claims(mv.effect) <= {q.name} && (Claims(mv.effect) != {} ==> mv.pc.RestartCheck?)
    ensures q.pc.RestartCheck? ==> mv.effect == LaunchCheck(cfg, q.name)
  {
  }

  lemma RequestKeeps(cfg: Config, s: State, k: nat, forked: bool)
    requires WellFormed(cfg) && Invariant(cfg, s) && StepRequest(cfg, s, k, forked).Some?
    ensures Invariant(cfg, StepRequest(cfg, s, k, forked).value)
  {
    var mv := MoveRequest(cfg, s.shared, Locked(s), s.requests[k], forked).value;
    var t := AfterRequest(s, k, mv);
    var m := s.requests[k].name;
    RequestEffects(cfg, s.shared, Locked(s), s.requests[k], forked, mv);
    EffectEvolves(s.shared, mv.effect);
    EffectNames(s.shared, mv.effect);
    EffectGates(cfg, s.shared, mv.effect);
    hide MoveRequest, Apply, GatesOk, OnceOk, DealtOk, UndealtOk, NamesOk;
    forall n | HasChecker(s, n) ensures HasChecker(t, n) {
      CheckerKept(s, t, n);
    }
    assert t.requests[k] == Request(m, mv.pc);
    forall x | AtCheck(cfg, s, x)
      ensures AtCheck(cfg, t, x) || (x == m && (x in t.shared.probing || x in t.shared.cells.decided))
    {
      RequestAtCheck(cfg, s, t, k, x);
    }
    ChecksKept(cfg, s, t, m);
    hide HasChecker, ChecksOk, AtCheck;
    OtherKeeps(cfg, s, t, m);
  }

  lemma RequestAtCheck(cfg: Config, s: State, t: State, k: nat, x: string)
    requires k < |s.requests| && AtCheck(cfg, s, x) && t.start == s.start && t.starter == s.starter
    requires |t.requests| == |s.requests| && forall j :: 0 <= j < |s.requests| && j != k ==> t.requests[j] == s.requests[j]
    ensures AtCheck(cfg, t, x) || IsAtCheck(s.requests[k], x)
  {
  }

  lemma AskKeeps(cfg: Config, s: State, n: string)
    requires WellFormed(cfg) && Invariant(cfg, s)
    ensures Invariant(cfg, s.(requests := s.requests + [Request(n, Asked)]))
  {
    var t := s.(requests := s.requests + [Request(n, Asked)]);
    hide OnceOk, DealtOk, UndealtOk, NamesOk, GatesOk;
    forall x | HasChecker(s, x) ensures HasChecker(t, x) {
      CheckerKept(s, t, x);
    }
    forall x | AtCheck(cfg, s, x) ensures AtCheck(cfg, t, x) {
      if k: nat :| k < |s.requests| && IsAtCheck(s.requests[k], x) {
        assert t.requests[k] == s.requests[k];
      }
    }
    ChecksKept(cfg, s, t, n);
    hide HasChecker, ChecksOk, AtCheck;
    OtherKeeps(cfg, s, t, n);
  }

  /** Steps that change nothing but the shared state, by an effect that closes and claims nothing. */
  lemma SharedKeeps(cfg: Config, s: State, e: Effect, stops: seq<StopPc>)
    requires WellFormed(cfg) && Invariant(cfg, s)
    requires e.ProbeEnds? || e.CancelAll? || e.Sweep? || e.StopRun? || e.Nothing?
    ensures Invariant(cfg, s.(shared := Apply(s.shared, e), stops := stops))
  {
    var t := s.(shared := Apply(s.shared, e), stops := stops);
    EffectEvolves(s.shared, e);
    EffectNames(s.shared, e);
    EffectGates(cfg, s.shared, e);
    hide Apply, GatesOk, OnceOk, DealtOk, UndealtOk, NamesOk;
    forall x | HasChecker(s, x) ensures HasChecker(t, x) {
      CheckerKept(s, t, x);
    }
    ChecksKept(cfg, s, t, "");
    hide HasChecker, ChecksOk, AtCheck;
    OtherKeeps(cfg, s, t, "");
  }

  lemma WaitKeeps(cfg: Config, s: State)
    requires WellFormed(cfg) && Invariant(cfg, s)
    ensures Invariant(cfg, s.(waitCalled := true, waiter := Waiters(cfg, s.shared)))
  {
    var t := s.(waitCalled := true, waiter := Waiters(cfg, s.shared));
    hide GatesOk, OnceOk, DealtOk, UndealtOk, NamesOk;
    forall x | HasChecker(s, x) ensures HasChecker(t, x) {
      CheckerKept(s, t, x);
    }
    ChecksKept(cfg, s, t, "");
    hide HasChecker, ChecksOk, AtCheck;
    OtherKeeps(cfg, s, t, "");
  }

  // ---------------------------------------------------------------- Start's steps

  lemma StartEffects(cfg: Config, sh: Shared, pc: StartPc, forked: bool, mv: StartMove)
    requires MoveStart(cfg, sh, pc, forked) == Some(mv)
    ensures !TouchesHalt(mv.effect) && !mv.effect.ProbeEnds? && Closes(mv.effect) == {}
    ensures forall n :: n in Registers(mv.effect) ==>
              (pc.StartAdopt? && pc.i < |cfg.order| && n == cfg.order[pc.i]) || Recurring(cfg, n)
    ensures mv.spawn.Some? ==> pc.NextProcess? && pc.i < |cfg.order|
    ensures pc.StartCheck? ==> pc.i < |cfg.order| && mv.effect == LaunchCheck(cfg, cfg.order[pc.i])
    ensures Claims(mv.effect) != {} ==>
              pc.StartMark? && pc.i < |cfg.order| && mv.pc == StartCheck(pc.i) && mv.effect == Claim(cfg.order[pc.i])
    ensures mv.pc.StartFailed? ==> mv.effect.FailStart?
    ensures mv.spawn.Some? ==> mv.spawn.value.Await? || mv.spawn.value.LoopRun?
  {
  }

  function AfterStart(cfg: Config, s: State, mv: StartMove): State {
    s.(shared := Apply(s.shared, mv.effect), start := mv.pc,
       starter := if mv.spawn.Some? && s.start.NextProcess? && s.start.i < |cfg.order|
                  then s.starter[cfg.order[s.start.i] := mv.spawn.value] else s.starter)
  }

  lemma StartPlace(cfg: Config, s: State, forked: bool, mv: StartMove)
    requires WellFormed(cfg) && Invariant(cfg, s) && MoveStart(cfg, s.shared, s.start, forked) == Some(mv)
    requires mv.spawn.Some?
    ensures PlaceOk(cfg, Apply(s.shared, mv.effect), cfg.order[s.start.i], mv.spawn.value)
    ensures s.start.NextProcess? && s.start.i < |cfg.order|
    ensures cfg.order[s.start.i] in s.starter && s.starter[cfg.order[s.start.i]].Idle? && !mv.spawn.value.Idle?
  {
    hide NamesOk, OnceOk, ChecksOk, DealtOk;
  }

  lemma StartNames(cfg: Config, s: State, forked: bool, mv: StartMove)
    requires WellFormed(cfg) && Invariant(cfg, s) && MoveStart(cfg, s.shared, s.start, forked) == Some(mv)
    ensures NamesOk(cfg, AfterStart(cfg, s, mv))
  {
    hide MoveStart, Apply, PlaceOk, OnceOk, ChecksOk, UndealtOk, GatesOk;
    var t := AfterStart(cfg, s, mv);
    StartEffects(cfg, s.shared, s.start, forked, mv);
    if mv.spawn.Some? { StartPlace(cfg, s, forked, mv); }
    EffectEvolves(s.shared, mv.effect);
    EffectNames(s.shared, mv.effect);
    forall n | n in t.starter ensures NameOk(cfg, t, n) {
      assert NameOk(cfg, s, n);
      if HasChecker(s, n) { CheckerKept(s, t, n); }
      hide HasChecker;
      if mv.spawn.Some? && n == cfg.order[s.start.i] {
      } else {
        NameKept(cfg, s, t, n);
      }
    }
  }

  lemma StartOnce(cfg: Config, s: State, forked: bool, mv: StartMove)
    requires WellFormed(cfg) && Invariant(cfg, s) && MoveStart(cfg, s.shared, s.start, forked) == Some(mv)
    ensures OnceOk(AfterStart(cfg, s, mv))
  {
    hide MoveStart, Apply, PlaceOk, ChecksOk, UndealtOk, GatesOk, NamesOk, DealtOk;
    StartEffects(cfg, s.shared, s.start, forked, mv);
    if mv.spawn.Some? { StartPlace(cfg, s, forked, mv); }
    EffectEvolves(s.shared, mv.effect);
    EffectNames(s.shared, mv.effect);
  }

  lemma StartChecks(cfg: Config, s: State, forked: bool, mv: StartMove)
    requires WellFormed(cfg) && Invariant(cfg, s) && MoveStart(cfg, s.shared, s.start, forked) == Some(mv)
    ensures ChecksOk(cfg, AfterStart(cfg, s, mv))
  {
    var t := AfterStart(cfg, s, mv);
    var m := if (s.start.StartMark? || s.start.StartCheck?) && s.start.i < |cfg.order| then cfg.order[s.start.i] else "";
    StartEffects(cfg, s.shared, s.start, forked, mv);
    if mv.spawn.Some? { StartPlace(cfg, s, forked, mv); }
    EffectEvolves(s.shared, mv.effect);
    EffectNames(s.shared, mv.effect);
    hide MoveStart, Apply, PlaceOk, OnceOk, UndealtOk, GatesOk, NamesOk, DealtOk;
    ChecksKept(cfg, s, t, m);
  }

  lemma StartDealt(cfg: Config, s: State, forked: bool, mv: StartMove)
    requires WellFormed(cfg) && Invariant(cfg, s) && MoveStart(cfg, s.shared, s.start, forked) == Some(mv)
    ensures DealtOk(cfg, AfterStart(cfg, s, mv))
  {
    hide MoveStart, Apply, PlaceOk, ChecksOk, OnceOk, GatesOk, NamesOk, UndealtOk, DealtWith, Evolves;
    var t := AfterStart(cfg, s, mv);
    StartEffects(cfg, s.shared, s.start, forked, mv);
    if mv.spawn.Some? { StartPlace(cfg, s, forked, mv); }
    EffectEvolves(s.shared, mv.effect);
    EffectNames(s.shared, mv.effect);
    StartDeals(cfg, s, forked, mv);
    StartAdvances(cfg, s, forked, mv);
    forall n | DealtWith(cfg, s, n) ensures DealtWith(cfg, t, n) {
      DealtStays(cfg, s, t, n);
    }
  }

  lemma DealtStays(cfg: Config, s: State, t: State, n: string)
    requires DealtWith(cfg, s, n) && Evolves(s.shared, t.shared)
    requires n in s.starter ==> n in t.starter && (t.starter[n] == s.starter[n] || !t.starter[n].Idle?)
    ensures DealtWith(cfg, t, n)
  {
  }

  /** Start goes through the processes one at a time, the ungated ones in three more steps. */
  lemma StartAdvances(cfg: Config, s: State, forked: bool, mv: StartMove)
    requires DealtOk(cfg, s) && MoveStart(cfg, s.shared, s.start, forked) == Some(mv)
    ensures mv.pc.StartAdopt? || mv.pc.StartMark? || mv.pc.StartCheck? ==>
              mv.pc.i < |cfg.order| && !Recurring(cfg, cfg.order[mv.pc.i]) && Deps(cfg, cfg.order[mv.pc.i]) == []
    ensures || Dealt(cfg, mv.pc) <= Dealt(cfg, s.start) || Dealt(cfg, s.start) >= |cfg.order|
            || (mv.pc.NextProcess? && mv.pc.i == Dealt(cfg, s.start) + 1)
  {
  }

  /** The process Start has just finished with is dealt with. */
  lemma StartDeals(cfg: Config, s: State, forked: bool, mv: StartMove)
    requires DealtOk(cfg, s) && UndealtOk(cfg, s) && WellFormed(cfg)
    requires MoveStart(cfg, s.shared, s.start, forked) == Some(mv)
    ensures mv.pc.NextProcess? && mv.pc.i > 0 && mv.pc.i <= |cfg.order| ==>
              DealtWith(cfg, AfterStart(cfg, s, mv), cfg.order[mv.pc.i - 1])
    ensures mv.pc.StartFailed? ==> Apply(s.shared, mv.effect).cancelled
    ensures mv.pc.StartCheck? ==> mv.pc.i < |cfg.order| && cfg.order[mv.pc.i] in Apply(s.shared, mv.effect).cells.checked
  {
    EffectNames(s.shared, mv.effect);
    FailCancels(s.shared);
    DealtNow(cfg, s);
    hide Apply, DealtOk, UndealtOk;
  }

  lemma DealtNow(cfg: Config, s: State)
    requires DealtOk(cfg, s) && UndealtOk(cfg, s) && WellFormed(cfg)
    ensures s.start.StartAdopt? || s.start.StartMark? || s.start.StartCheck? ==>
              s.start.i < |cfg.order| && !Recurring(cfg, cfg.order[s.start.i]) && Deps(cfg, cfg.order[s.start.i]) == []
    ensures s.start.StartCheck? ==> cfg.order[s.start.i] in s.shared.cells.checked
    ensures forall j :: 0 <= j < |cfg.order| ==> cfg.order[j] in s.starter
  {
  }

  lemma FailCancels(sh: Shared)
    ensures Apply(sh, FailStart).cancelled
  {
  }

  lemma StartUndealt(cfg: Config, s: State, forked: bool, mv: StartMove)
    requires WellFormed(cfg) && UndealtOk(cfg, s) && MoveStart(cfg, s.shared, s.start, forked) == Some(mv)
    ensures UndealtOk(cfg, AfterStart(cfg, s, mv))
  {
    hide Apply;
  }

  lemma StartKeeps(cfg: Config, s: State, forked: bool)
    requires WellFormed(cfg) && Invariant(cfg, s) && StepStart(cfg, s, forked).Some?
    ensures Invariant(cfg, StepStart(cfg, s, forked).value)
  {
    var mv := MoveStart(cfg, s.shared, s.start, forked).value;
    StartNames(cfg, s, forked, mv);
    StartOnce(cfg, s, forked, mv);
    StartChecks(cfg, s, forked, mv);
    StartDealt(cfg, s, forked, mv);
    StartUndealt(cfg, s, forked, mv);
    EffectGates(cfg, s.shared, mv.effect);
    hide MoveStart, Apply, NamesOk, OnceOk, ChecksOk, DealtOk, UndealtOk, GatesOk;
  }

  // ---------------------------------------------------------------- every state of every run

  lemma NextKeeps(cfg: Config, s: State, a: Action)
    requires WellFormed(cfg) && Invariant(cfg, s) && Next(cfg, s, a).Some?
    ensures Invariant(cfg, Next(cfg, s, a).value)
  {
    hide Invariant, StepStart, StepStarter, StepWaiter, StepRequest;
    match a
    case StartStep(forked) => StartKeeps(cfg, s, forked);
    case StarterStep(n, pick, forked) => StarterKeeps(cfg, s, n, pick, forked);
    case ProbeStep(n, v) => SharedKeeps(cfg, s, ProbeEnds(n, v), s.stops);
    case CallWait => WaitKeeps(cfg, s);
    case WaiterStep(n, pick, outcome) => WaiterKeeps(cfg, s, n, pick, outcome);
    case AskRestart(n) => AskKeeps(cfg, s, n);
    case RequestStep(k, forked) => RequestKeeps(cfg, s, k, forked);
    case AskStop => SharedKeeps(cfg, s, Nothing, s.stops + [ToCancel]);
    case StopStep(k) =>
      if s.stops[k].ToCancel? {
        SharedKeeps(cfg, s, CancelAll, s.stops[k := ToSweep]);
      } else {
        SharedKeeps(cfg, s, Sweep, s.stops[k := Stopped]);
      }
    case RunExits(r) => SharedKeeps(cfg, s, StopRun(r), s.stops);
  }

  lemma {:induction false} InvariantHolds(cfg: Config, acts: seq<Action>)
    requires WellFormed(cfg) && Execute(cfg, InitialState(cfg), acts).Some?
    ensures Invariant(cfg, Execute(cfg, InitialState(cfg), acts).value)
  {
    if acts == [] {
      InitiallyInvariant(cfg);
    } else {
      InvariantHolds(cfg, acts[..|acts| - 1]);
      NextKeeps(cfg, Execute(cfg, InitialState(cfg), acts[..|acts| - 1]).value, acts[|acts| - 1]);
    }
  }

  // ---------------------------------------------------------------- no deadlock

  /** What validation guarantees of the dependencies (see Depends.Resolvable). */
  ghost predicate Accepted(cfg: Config) {
    && Acyclic(cfg.procs)
    && forall n, d :: n in cfg.procs && d in cfg.procs[n].dependsOn ==>
                        d != n && (d in cfg.procs ==> !cfg.procs[d].recurring && cfg.procs[d].hasCheck)
  }

  /** A Restart that has its process started, and still to be checked. */
  predicate ChecksNext(pc: RequestPc) { pc.RestartStarted? || pc.RestartMark? || pc.RestartCheck? }

  /**
   The steps that start things: not the waiters', the recurring runs', Stop's or a run's own
   exit, nor a Restart's until it has a check to make.
   */
  predicate StartupAction(s: State, a: Action) {
    match a
    case StartStep(_) => true
    case StarterStep(n, _, _) => n in s.starter && (s.starter[n].LoopSettle? || !InLoop(s.starter[n]))
    case ProbeStep(_, _) => true
    case RequestStep(k, _) => k < |s.requests| && ChecksNext(s.requests[k].pc)
    case _ => false
  }

  /**
   Some goroutine of startup can take a step, and one that stops nothing. That such steps get
   somewhere, and need no Restart to be asked for, is StartupEnds.StartupSettles.
   */
  ghost predicate CanStep(cfg: Config, s: State) {
    exists a :: StartupAction(s, a) && Next(cfg, s, a).Some? && !Next(cfg, s, a).value.shared.cancelled
  }

  lemma StartSteps(cfg: Config, s: State)
    requires Invariant(cfg, s) && !s.shared.cancelled && !s.start.Up?
    ensures CanStep(cfg, s)
  {
    assert StartupAction(s, StartStep(true)) && Next(cfg, s, StartStep(true)).Some?;
  }

  lemma ProbeSteps(cfg: Config, s: State, n: string)
    requires !s.shared.cancelled && n in s.shared.probing
    ensures CanStep(cfg, s)
  {
    var a := ProbeStep(n, Ready);
    assert StartupAction(s, a) && Next(cfg, s, a).Some? && !Next(cfg, s, a).value.shared.cancelled;
  }

  lemma RequestSteps(cfg: Config, s: State, k: nat)
    requires !s.shared.cancelled && k < |s.requests|
    requires ChecksNext(s.requests[k].pc)
    ensures CanStep(cfg, s)
  {
    var a := RequestStep(k, true);
    assert StartupAction(s, a) && Next(cfg, s, a).Some? && !Next(cfg, s, a).value.shared.cancelled;
  }

  /** A starter can always step, unless it waits: for the lock, in a select, or for another's halt. */
  lemma StarterSteps(cfg: Config, s: State, n: string, pick: Pick)
    requires !s.shared.cancelled && n in s.starter
      && MoveStarter(cfg, s.shared, Locked(s), n, s.starter[n], pick, true).Some?
    requires s.starter[n].LoopSettle? || !InLoop(s.starter[n])
    ensures CanStep(cfg, s)
  {
    var a := StarterStep(n, pick, true);
    MoveCancelsNothing(cfg, s.shared, Locked(s), n, s.starter[n], pick, true);
    hide MoveStarter, Apply;
    assert StartupAction(s, a) && Next(cfg, s, a).Some? && !Next(cfg, s, a).value.shared.cancelled;
  }

  lemma MoveCancelsNothing(cfg: Config, sh: Shared, locked: bool, n: string, pc: Pc, pick: Pick, forked: bool)
    requires MoveStarter(cfg, sh, locked, n, pc, pick, forked).Some?
    ensures Apply(sh, MoveStarter(cfg, sh, locked, n, pc, pick, forked).value.effect).cancelled == sh.cancelled
  {
  }

  /** A claimed check that is undecided has a goroutine that can step. */
  lemma CheckedSteps(cfg: Config, s: State, d: string)
    requires Invariant(cfg, s) && !s.shared.cancelled && s.start.Up?
    requires d in s.shared.cells.checked && d !in s.shared.cells.decided
    ensures CanStep(cfg, s)
  {
    hide NamesOk, OnceOk, DealtOk, UndealtOk, GatesOk;
    if d in s.shared.probing {
      ProbeSteps(cfg, s, d);
    } else if d in s.starter && s.starter[d].Checking? {
      StarterSteps(cfg, s, d, TheDependency);
    } else {
      var k :| 0 <= k < |s.requests| && IsAtCheck(s.requests[k], d);
      RequestSteps(cfg, s, k);
    }
  }

  lemma CheckerSteps(cfg: Config, s: State, d: string)
    requires Invariant(cfg, s) && !s.shared.cancelled && s.start.Up?
    requires HasChecker(s, d) && d !in s.shared.cells.decided
    ensures CanStep(cfg, s)
  {
    if d in s.shared.cells.checked {
      CheckedSteps(cfg, s, d);
    } else if d in s.starter && IsCheckerPc(s.starter[d]) {
      StarterSteps(cfg, s, d, TheDependency);
    } else {
      var k :| 0 <= k < |s.requests| && IsChecker(s.requests[k], d);
      RequestSteps(cfg, s, k);
    }
  }

  lemma OnceSteps(cfg: Config, s: State)
    requires Invariant(cfg, s) && !s.shared.cancelled && s.shared.once.Held?
    ensures CanStep(cfg, s)
  {
    StarterSteps(cfg, s, s.shared.once.holder, TheDependency);
  }

  /** An undecided dependency is still pending, or something can step. */
  lemma DependencySteps(cfg: Config, s: State, d: string)
    requires WellFormed(cfg) && Invariant(cfg, s) && !s.shared.cancelled && s.start.Up? && s.shared.once.Free?
    requires d !in s.shared.cells.decided && d in cfg.procs && !cfg.procs[d].recurring
    ensures d in s.shared.cells.pending || CanStep(cfg, s)
  {
    assert NameOk(cfg, s, d);
    if Deps(cfg, d) == [] {
      assert DealtWith(cfg, s, d);
      CheckedSteps(cfg, s, d);
    } else if d !in s.shared.cells.pending {
      assert d in s.shared.cells.closed;
      hide NamesOk, OnceOk, DealtOk, UndealtOk, GatesOk, ChecksOk;
      if s.starter[d].ForkDecide? {
        StarterSteps(cfg, s, d, TheDependency);
      } else {
        CheckerSteps(cfg, s, d);
      }
    }
  }

  /** A pending process waits for another pending one, or something can step. */
  lemma PendingSteps(cfg: Config, s: State, n: string)
    requires WellFormed(cfg) && Accepted(cfg) && Invariant(cfg, s)
    requires !s.shared.cancelled && s.start.Up? && s.shared.once.Free?
    requires n in s.shared.cells.pending
    ensures WaitsInside(cfg.procs, s.shared.cells.pending, n) || CanStep(cfg, s)
  {
    assert n in cfg.procs && Deps(cfg, n) != [];
    assert NameOk(cfg, s, n) && DealtWith(cfg, s, n);
    hide OnceOk, DealtOk, UndealtOk, GatesOk, CheckerOk;
    var pc := s.starter[n];
    if pc.Select? && Deps(cfg, n)[pc.i] !in s.shared.cells.decided {
      var d := Deps(cfg, n)[pc.i];
      if d in cfg.procs {
        DependencySteps(cfg, s, d);
        assert Edge(cfg.procs, n, d);
      } else {
        CheckedSteps(cfg, s, d);
      }
    } else {
      StarterSteps(cfg, s, n, TheDependency);
    }
  }

  /** No deadlock: the acyclicity that findCycle checks is what makes this so. */
  lemma NoDeadlock(cfg: Config, s: State)
    requires WellFormed(cfg) && Accepted(cfg) && Reachable(cfg, s)
    requires !s.shared.cancelled && s.shared.cells.pending != {}
    ensures CanStep(cfg, s)
  {
    var acts :| Execute(cfg, InitialState(cfg), acts) == Some(s);
    InvariantHolds(cfg, acts);
    InvariantSteps(cfg, s);
  }

  lemma InvariantSteps(cfg: Config, s: State)
    requires WellFormed(cfg) && Accepted(cfg) && Invariant(cfg, s)
    requires !s.shared.cancelled && s.shared.cells.pending != {}
    ensures CanStep(cfg, s)
  {
    if !s.start.Up? {
      StartSteps(cfg, s);
    } else if s.shared.once.Held? {
      OnceSteps(cfg, s);
    } else if !CanStep(cfg, s) {
      forall n | n in s.shared.cells.pending ensures WaitsInside(cfg.procs, s.shared.cells.pending, n) {
        PendingSteps(cfg, s, n);
      }
      StuckSetHasCycle(cfg.procs, s.shared.cells.pending);
    }
  }
}
