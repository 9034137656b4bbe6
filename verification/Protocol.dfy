/**
 The startup and lifecycle protocol of internal/process/startup.go and manager.go as a
 step relation. Each lock region, channel operation or fork of a goroutine is one step;
 `Next` is what one step of one goroutine does, and a run is any sequence of steps.

 The goroutines: Start itself; one starter per process with dependencies (gate) or an
 interval (startRecurringProcess); one probe per healthcheck; one waiter per process
 once Wait is called; any number of Restart and Stop calls. Whether a fork, a probe or
 a process succeeds, and which ready branch a select takes, is part of the step.
 */
module Protocol {
  import opened Wrappers
  import opened Depends
  import opened Startup

  /** The manager's configuration: the processes by name, and their names in order. */
  datatype Config = Config(procs: Procs, order: seq<string>)

  ghost predicate WellFormed(cfg: Config) {
    Distinct(cfg.order) && forall n :: n in cfg.order <==> n in cfg.procs
  }

  function Deps(cfg: Config, n: string): seq<string> {
    if n in cfg.procs then cfg.procs[n].dependsOn else []
  }

  predicate Recurring(cfg: Config, n: string) {
    n in cfg.procs && cfg.procs[n].recurring
  }

  predicate HasCheck(cfg: Config, n: string) {
    n in cfg.procs && cfg.procs[n].hasCheck
  }

  /** A process the manager holds back in its own goroutine (gate). */
  predicate GateOnly(cfg: Config, n: string) {
    n in cfg.procs && !cfg.procs[n].recurring && cfg.procs[n].dependsOn != []
  }

  // ---------------------------------------------------------------- state

  /** A run of a process: a wrapper never started, one that is going, one that is over. */
  datatype Run = Unstarted | Live | Finished

  /** haltOnce: not used, in use by one goroutine, used. */
  datatype Once = Free | Held(holder: string) | Over

  datatype Cause = AtStart | ByGate | ByLoop | AfterCrash | ByRestart

  /** One successful fork. */
  datatype Launch = Launch(name: string, cause: Cause)

  datatype StartPc = NextProcess(i: nat) | StartAdopt(i: nat, r: nat) | StartMark(i: nat) | StartCheck(i: nat) | Up | StartFailed

  datatype Pc =
    | Idle
    | Await(i: nat) | Select(i: nat)                        // awaitDependencies
    | Broken(why: Reason) | ToHalt(why: Reason)             // it returned an error
    | Halting(why: Reason) | Blocking(rest: seq<string>, why: Reason)
    | Lookup | SettleRunning | ToFork                       // gate, dependencies ready
    | ForkFailed(why: Reason) | ForkDecide(why: Reason)
    | Adopting(r: nat) | Discarding(r: nat) | Settling | Marking | Checking
    | LoopSettle | LoopRun | LoopFork | LoopAdopt(r: nat) | LoopDiscard(r: nat) | LoopWait(r: nat) | LoopSelect
    | End

  datatype WaitPc =
    | AwaitStarted | ReadStatus | Current | Watching(r: nat) | Exited | Refork
    | Readopting(r: nat) | Rediscarding(r: nat) | Gone

  datatype RequestPc =
    | Asked | Take | StopOld(r: nat) | RestartFork | RestartAdopt(r: nat) | RestartDiscard(r: nat)
    | RestartStarted | RestartMark | RestartCheck | Served

  datatype Request = Request(name: string, pc: RequestPc)

  datatype StopPc = ToCancel | ToSweep | Stopped

  /** What the goroutines share. */
  datatype Shared = Shared(
    cells: Cells,
    haltErr: Option<Reason>,     // Some once halted is closed
    once: Once,
    cancelled: bool,
    processes: map<string, nat>, // the registered run of each process
    runs: seq<Run>,
    probing: set<string>,        // the healthchecks running
    swept: bool,                 // some Stop has swept the registered runs
    launches: seq<Launch>,       // history: every fork so far
    orphans: set<nat>)           // history: runs replaced in the map while going

  datatype State = State(
    shared: Shared,
    start: StartPc,
    starter: map<string, Pc>,
    waiter: map<string, WaitPc>,
    waitCalled: bool,
    requests: seq<Request>,
    stops: seq<StopPc>)

  function InitialState(cfg: Config): State {
    State(Shared(Initial(cfg.procs), None, Free, false, map[], [], {}, false, [], {}),
          NextProcess(0), map n | n in cfg.procs :: Idle, map[], false, [], [])
  }

  /** m.mu is held by Start from its first step to its last. */
  predicate Locked(s: State) {
    !s.start.Up? && !s.start.StartFailed?
  }

  predicate IsLive(sh: Shared, r: nat) {
    r < |sh.runs| && sh.runs[r] == Live
  }

  // ---------------------------------------------------------------- effects

  /** What one step does to the shared state. */
  datatype Effect =
    | Nothing
    | Claim(name: string)                    // checkHealth: checked[name] = true
    | ClaimService(name: string)             // awaitService: claimed, and its goroutine launched
    | Probe(name: string)                    // a healthcheck goroutine is launched
    | ProbeEnds(name: string, v: Verdict)
    | Decided(name: string, v: Verdict)
    | Settled(name: string, reason: string)
    | StartedNow(name: string)
    | TakeHalt(holder: string, haltedBy: Reason)  // haltOnce entered, haltErr set, halted closed
    | EndHalt
    | ForkRun(name: string, cause: Cause)
    | RegisterRun(name: string, r: nat)
    | RegisterPlaceholder(name: string)
    | Unregister(name: string)
    | StopRun(r: nat)
    | CancelAll
    | Sweep
    | FailStart                              // Start gives up: cancel, stop all, forget all

  function Fork(sh: Shared, n: string, cause: Cause): Shared {
    sh.(runs := sh.runs + [Live], launches := sh.launches + [Launch(n, cause)])
  }

  function Finish(sh: Shared, r: nat): Shared {
    if IsLive(sh, r) then sh.(runs := sh.runs[r := Finished]) else sh
  }

  /** m.processes[n] = w, remembering a run that is replaced while it is going. */
  function Register(sh: Shared, n: string, r: nat): Shared {
    sh.(processes := sh.processes[n := r],
        orphans := if n in sh.processes && IsLive(sh, sh.processes[n]) then sh.orphans + {sh.processes[n]}
                   else sh.orphans)
  }

  /** stopAllLocked: every registered run is stopped. */
  function StopAll(sh: Shared): Shared {
    sh.(runs := seq(|sh.runs|, i requires 0 <= i < |sh.runs| =>
          if sh.runs[i] == Live && i in sh.processes.Values then Finished else sh.runs[i]))
  }

  function Apply(sh: Shared, e: Effect): Shared {
    match e
    case Nothing => sh
    case Claim(n) => sh.(cells := MarkChecked(sh.cells, n))
    case ClaimService(n) => sh.(cells := MarkChecked(sh.cells, n), probing := sh.probing + {n})
    case Probe(n) => sh.(probing := sh.probing + {n})
    case ProbeEnds(n, v) => sh.(probing := sh.probing - {n}, cells := Decide(sh.cells, n, v))
    case Decided(n, v) => sh.(cells := Decide(sh.cells, n, v))
    case Settled(n, why) => sh.(cells := Settle(sh.cells, n, why))
    case StartedNow(n) => sh.(cells := StartedOutside(sh.cells, n))
    case TakeHalt(n, why) => sh.(once := Held(n), haltErr := Some(why))
    case EndHalt => sh.(once := Over)
    case ForkRun(n, cause) => Fork(sh, n, cause)
    case RegisterRun(n, r) => Register(sh, n, r)
    case RegisterPlaceholder(n) => Register(sh.(runs := sh.runs + [Unstarted]), n, |sh.runs|)
    case Unregister(n) => sh.(processes := sh.processes - {n})
    case StopRun(r) => Finish(sh, r)
    case CancelAll => sh.(cancelled := true)
    case Sweep => StopAll(sh).(swept := true)
    case FailStart => StopAll(sh).(cancelled := true, processes := map[])
  }

  /** The part of checkHealth after the check is claimed: a process without one is ready at once. */
  function LaunchCheck(cfg: Config, n: string): Effect {
    if HasCheck(cfg, n) then Probe(n) else Decided(n, Ready)
  }

  // ---------------------------------------------------------------- Start

  /** Start's next place, what it does, and the goroutine it launches. */
  datatype StartMove = StartMove(pc: StartPc, effect: Effect, spawn: Option<Pc>)

  function MoveStart(cfg: Config, sh: Shared, pc: StartPc, forked: bool): Option<StartMove> {
    match pc
    case NextProcess(i) =>
      if i >= |cfg.order| then Some(StartMove(Up, Nothing, None))
      else
        var n := cfg.order[i];
        if Recurring(cfg, n) then
          Some(StartMove(NextProcess(i + 1), RegisterPlaceholder(n), Some(if Deps(cfg, n) == [] then LoopRun else Await(0))))
        else if Deps(cfg, n) != [] then Some(StartMove(NextProcess(i + 1), Nothing, Some(Await(0))))
        else if forked then Some(StartMove(StartAdopt(i, |sh.runs|), ForkRun(n, AtStart), None))
        else Some(StartMove(StartFailed, FailStart, None))
    case StartAdopt(i, r) =>
      if i >= |cfg.order| then None else Some(StartMove(StartMark(i), RegisterRun(cfg.order[i], r), None))
    case StartMark(i) =>
      if i >= |cfg.order| then None
      else if cfg.order[i] in sh.cells.checked then Some(StartMove(NextProcess(i + 1), Nothing, None))
      else Some(StartMove(StartCheck(i), Claim(cfg.order[i]), None))
    case StartCheck(i) =>
      if i >= |cfg.order| then None
      else Some(StartMove(NextProcess(i + 1), LaunchCheck(cfg, cfg.order[i]), None))
    case Up => None
    case StartFailed => None
  }

  // ---------------------------------------------------------------- gate and the recurring loop

  /** Which ready branch of a select is taken. */
  datatype Pick = TheDependency | Halted | Cancelled

  datatype Move = Move(pc: Pc, effect: Effect)

  function MoveAwait(cfg: Config, sh: Shared, n: string, pc: Pc, pick: Pick): Option<Move> {
    match pc
    case Await(i) =>
      if i >= |Deps(cfg, n)| then Some(Move(if Recurring(cfg, n) then LoopSettle else Lookup, Nothing))
      else
        var d := Deps(cfg, n)[i];
        Some(Move(Select(i), if d in cfg.procs || d in sh.cells.checked then Nothing else ClaimService(d)))
    case Select(i) =>
      if i >= |Deps(cfg, n)| then None
      else
        var d := Deps(cfg, n)[i];
        (match pick
         case TheDependency =>
           if d !in sh.cells.decided then None
           else if sh.cells.decided[d].Ready? then Some(Move(Await(i + 1), Nothing))
           else Some(Move(Broken(sh.cells.decided[d].why), Nothing))
         case Halted => if sh.haltErr.Some? then Some(Move(Broken(sh.haltErr.value), Nothing)) else None
         case Cancelled => if sh.cancelled then Some(Move(Broken("context canceled"), Nothing)) else None)
    case Broken(why) => Some(Move(if sh.cancelled then End else ToHalt(why), Nothing))
    case _ => None
  }

  /** halt: a second caller of haltOnce.Do waits for the first to finish. */
  function MoveHalt(cfg: Config, sh: Shared, n: string, pc: Pc): Option<Move> {
    match pc
    case ToHalt(why) =>
      (match sh.once
       case Free => Some(Move(Halting(why), TakeHalt(n, why)))
       case Held(_) => None
       case Over => Some(Move(End, Nothing)))
    case Halting(why) => Some(Move(Blocking(Waiting(cfg.order, sh.cells.pending), why), Nothing))
    case Blocking(rest, why) =>
      if rest == [] then Some(Move(End, EndHalt))
      else Some(Move(Blocking(rest[1..], why), Settled(rest[0], why)))
    case _ => None
  }

  /** gate, from the lookup to checkHealth. */
  function MoveGate(cfg: Config, sh: Shared, locked: bool, n: string, pc: Pc, forked: bool): Option<Move> {
    match pc
    case Lookup => if locked then None else Some(Move(if n in sh.processes then SettleRunning else ToFork, Nothing))
    case SettleRunning => Some(Move(End, Settled(n, "")))
    case ToFork =>
      if forked then Some(Move(Adopting(|sh.runs|), ForkRun(n, ByGate)))
      else Some(Move(ForkFailed("failed to start"), Nothing))
    case ForkFailed(why) => Some(Move(ForkDecide(why), Settled(n, why)))
    case ForkDecide(why) => Some(Move(ToHalt(why), Decided(n, Failed(why))))
    case Adopting(r) =>
      if locked then None
      else if sh.cancelled then Some(Move(Discarding(r), Nothing))
      else Some(Move(Settling, RegisterRun(n, r)))
    case Discarding(r) => Some(Move(End, StopRun(r)))
    case Settling => Some(Move(Marking, Settled(n, "")))
    case Marking => if n in sh.cells.checked then Some(Move(End, Nothing)) else Some(Move(Checking, Claim(n)))
    case Checking => Some(Move(End, LaunchCheck(cfg, n)))
    case _ => None
  }

  /** startRecurringProcess after its dependencies, and runRecurringProcess. */
  function MoveLoop(sh: Shared, locked: bool, n: string, pc: Pc, pick: Pick, forked: bool): Option<Move> {
    match pc
    case LoopSettle => Some(Move(LoopRun, Settled(n, "")))
    case LoopRun => Some(Move(if sh.cancelled then LoopSelect else LoopFork, Nothing))
    case LoopFork =>
      if forked then Some(Move(LoopAdopt(|sh.runs|), ForkRun(n, ByLoop))) else Some(Move(LoopSelect, Nothing))
    case LoopAdopt(r) =>
      if locked then None
      else if sh.cancelled then Some(Move(LoopDiscard(r), Nothing))
      else Some(Move(LoopWait(r), RegisterRun(n, r)))
    case LoopDiscard(r) => Some(Move(LoopSelect, StopRun(r)))
    case LoopWait(r) => if IsLive(sh, r) then None else Some(Move(LoopSelect, Nothing))
    case LoopSelect =>
      if pick != Cancelled then Some(Move(LoopRun, Nothing)) // the ticker
      else if sh.cancelled then Some(Move(End, Nothing))
      else None
    case _ => None
  }

  predicate InAwait(pc: Pc) { pc.Await? || pc.Select? || pc.Broken? }

  predicate InHalt(pc: Pc) { pc.ToHalt? || pc.Halting? || pc.Blocking? }

  predicate InLoop(pc: Pc) {
    || pc.LoopSettle? || pc.LoopRun? || pc.LoopFork? || pc.LoopAdopt? || pc.LoopDiscard? || pc.LoopWait?
    || pc.LoopSelect?
  }

  function MoveStarter(cfg: Config, sh: Shared, locked: bool, n: string, pc: Pc, pick: Pick,
                       forked: bool): Option<Move> {
    if InAwait(pc) then MoveAwait(cfg, sh, n, pc, pick)
    else if InHalt(pc) then MoveHalt(cfg, sh, n, pc)
    else if InLoop(pc) then MoveLoop(sh, locked, n, pc, pick, forked)
    else MoveGate(cfg, sh, locked, n, pc, forked)
  }

  // ---------------------------------------------------------------- Wait's waiters

  datatype WaitMove = WaitMove(pc: WaitPc, effect: Effect)

  /** Wait lists the processes started or waiting to be, but not the recurring ones. */
  function Waiters(cfg: Config, sh: Shared): map<string, WaitPc> {
    map n | n in cfg.procs && !cfg.procs[n].recurring && (n in sh.processes || GateOnly(cfg, n)) :: AwaitStarted
  }

  /** `outcome` is whether the run crashed, at its exit, and whether the fork succeeded, at a fork. */
  function MoveWaiter(cfg: Config, sh: Shared, locked: bool, n: string, pc: WaitPc, pick: Pick,
                      outcome: bool): Option<WaitMove> {
    match pc
    case AwaitStarted =>
      if Deps(cfg, n) == [] then Some(WaitMove(Current, Nothing))
      else if pick == Cancelled then (if sh.cancelled then Some(WaitMove(Gone, Nothing)) else None)
      else if n in sh.cells.closed then Some(WaitMove(ReadStatus, Nothing)) else None
    case ReadStatus => Some(WaitMove(if n in sh.cells.blocked then Gone else Current, Nothing))
    case Current =>
      if locked then None
      else Some(WaitMove(if n in sh.processes && n in cfg.procs then Watching(sh.processes[n]) else Gone, Nothing))
    case Watching(r) => if IsLive(sh, r) then None else Some(WaitMove(Exited, Nothing))
    case Exited =>
      var restart := n in cfg.procs && cfg.procs[n].restartOnCrash && outcome;
      Some(WaitMove(if !sh.cancelled && restart then Refork else Gone, Nothing))
    case Refork =>
      if outcome then Some(WaitMove(Readopting(|sh.runs|), ForkRun(n, AfterCrash))) else Some(WaitMove(Gone, Nothing))
    case Readopting(r) =>
      if locked then None
      else if sh.cancelled then Some(WaitMove(Rediscarding(r), Nothing))
      else Some(WaitMove(Current, RegisterRun(n, r)))
    case Rediscarding(r) => Some(WaitMove(Gone, StopRun(r)))
    case Gone => None
  }

  // ---------------------------------------------------------------- Restart

  datatype RequestMove = RequestMove(pc: RequestPc, effect: Effect)

  function MoveRequest(cfg: Config, sh: Shared, locked: bool, q: Request, forked: bool): Option<RequestMove> {
    var n := q.name;
    match q.pc
    case Asked => Some(RequestMove(if sh.cancelled then Served else Take, Nothing))
    case Take =>
      if locked then None
      else if n !in cfg.procs then Some(RequestMove(Served, Nothing))
      else if n in sh.processes then Some(RequestMove(StopOld(sh.processes[n]), Unregister(n)))
      else Some(RequestMove(RestartFork, Nothing))
    case StopOld(r) => Some(RequestMove(RestartFork, StopRun(r)))
    case RestartFork =>
      if forked then Some(RequestMove(RestartAdopt(|sh.runs|), ForkRun(n, ByRestart)))
      else Some(RequestMove(Served, Nothing))
    case RestartAdopt(r) =>
      if locked then None
      else if sh.cancelled then Some(RequestMove(RestartDiscard(r), Nothing))
      else Some(RequestMove(RestartStarted, RegisterRun(n, r)))
    case RestartDiscard(r) => Some(RequestMove(Served, StopRun(r)))
    case RestartStarted => Some(RequestMove(RestartMark, StartedNow(n)))
    case RestartMark =>
      if n in sh.cells.checked then Some(RequestMove(Served, Nothing)) else Some(RequestMove(RestartCheck, Claim(n)))
    case RestartCheck => Some(RequestMove(Served, LaunchCheck(cfg, n)))
    case Served => None
  }

  // ---------------------------------------------------------------- runs of the protocol

  datatype Action =
    | StartStep(forked: bool)
    | StarterStep(name: string, pick: Pick, forked: bool)
    | ProbeStep(name: string, verdict: Verdict)
    | CallWait
    | WaiterStep(name: string, pick: Pick, outcome: bool)
    | AskRestart(name: string)
    | RequestStep(k: nat, forked: bool)
    | AskStop
    | StopStep(k: nat)
    | RunExits(r: nat)

  function StepStart(cfg: Config, s: State, forked: bool): Option<State> {
    match MoveStart(cfg, s.shared, s.start, forked)
    case None => None
    case Some(m) =>
      Some(s.(shared := Apply(s.shared, m.effect), start := m.pc,
              starter := if m.spawn.Some? && s.start.NextProcess? && s.start.i < |cfg.order|
                         then s.starter[cfg.order[s.start.i] := m.spawn.value] else s.starter))
  }

  function StepStarter(cfg: Config, s: State, n: string, pick: Pick, forked: bool): Option<State> {
    if n !in s.starter then None
    else
      match MoveStarter(cfg, s.shared, Locked(s), n, s.starter[n], pick, forked)
      case None => None
      case Some(m) => Some(s.(shared := Apply(s.shared, m.effect), starter := s.starter[n := m.pc]))
  }

  /** A healthcheck ends within its timeout, passed or not. */
  function StepProbe(s: State, n: string, v: Verdict): Option<State> {
    if n !in s.shared.probing then None else Some(s.(shared := Apply(s.shared, ProbeEnds(n, v))))
  }

  function StepWaiter(cfg: Config, s: State, n: string, pick: Pick, outcome: bool): Option<State> {
    if n !in s.waiter then None
    else
      match MoveWaiter(cfg, s.shared, Locked(s), n, s.waiter[n], pick, outcome)
      case None => None
      case Some(m) => Some(s.(shared := Apply(s.shared, m.effect), waiter := s.waiter[n := m.pc]))
  }

  function StepRequest(cfg: Config, s: State, k: nat, forked: bool): Option<State> {
    if k >= |s.requests| then None
    else
      match MoveRequest(cfg, s.shared, Locked(s), s.requests[k], forked)
      case None => None
      case Some(m) =>
        Some(s.(shared := Apply(s.shared, m.effect), requests := s.requests[k := Request(s.requests[k].name, m.pc)]))
  }

  /** Stop: cancel, then stop every registered run under the lock. */
  function StepStop(s: State, k: nat): Option<State> {
    if k >= |s.stops| then None
    else
      match s.stops[k]
      case ToCancel => Some(s.(shared := Apply(s.shared, CancelAll), stops := s.stops[k := ToSweep]))
      case ToSweep =>
        if Locked(s) then None else Some(s.(shared := Apply(s.shared, Sweep), stops := s.stops[k := Stopped]))
      case Stopped => None
  }

  function Next(cfg: Config, s: State, a: Action): Option<State> {
    match a
    case StartStep(forked) => StepStart(cfg, s, forked)
    case StarterStep(n, pick, forked) => StepStarter(cfg, s, n, pick, forked)
    case ProbeStep(n, v) => StepProbe(s, n, v)
    case CallWait =>
      if s.waitCalled || Locked(s) then None
      else Some(s.(waitCalled := true, waiter := Waiters(cfg, s.shared)))
    case WaiterStep(n, pick, outcome) => StepWaiter(cfg, s, n, pick, outcome)
    case AskRestart(n) => Some(s.(requests := s.requests + [Request(n, Asked)]))
    case RequestStep(k, forked) => StepRequest(cfg, s, k, forked)
    case AskStop => Some(s.(stops := s.stops + [ToCancel]))
    case StopStep(k) => StepStop(s, k)
    case RunExits(r) => if IsLive(s.shared, r) then Some(s.(shared := Apply(s.shared, StopRun(r)))) else None
  }

  /** The state after a sequence of steps, or None if some step could not be taken. */
  function Execute(cfg: Config, s: State, acts: seq<Action>): Option<State> {
    if acts == [] then Some(s)
    else
      match Execute(cfg, s, acts[..|acts| - 1])
      case None => None
      case Some(t) => Next(cfg, t, acts[|acts| - 1])
  }

  /** The states of every run: any interleaving, any outcomes. */
  ghost predicate Reachable(cfg: Config, s: State) {
    exists acts :: Execute(cfg, InitialState(cfg), acts) == Some(s)
  }

  lemma NothingHappens(sh: Shared)
    ensures Apply(sh, Nothing) == sh
  {
  }

  /** Every step has one effect on the shared state. */
  lemma NextApplies(cfg: Config, s: State, a: Action) returns (e: Effect)
    requires Next(cfg, s, a).Some?
    ensures Next(cfg, s, a).value.shared == Apply(s.shared, e)
  {
    hide MoveStart, MoveStarter, MoveWaiter, MoveRequest, Apply;
    NothingHappens(s.shared);
    e := match a
      case StartStep(forked) => MoveStart(cfg, s.shared, s.start, forked).value.effect
      case StarterStep(n, pick, forked) => MoveStarter(cfg, s.shared, Locked(s), n, s.starter[n], pick, forked).value.effect
      case ProbeStep(n, v) => ProbeEnds(n, v)
      case WaiterStep(n, pick, outcome) => MoveWaiter(cfg, s.shared, Locked(s), n, s.waiter[n], pick, outcome).value.effect
      case RequestStep(k, forked) => MoveRequest(cfg, s.shared, Locked(s), s.requests[k], forked).value.effect
      case StopStep(k) => if s.stops[k].ToCancel? then CancelAll else Sweep
      case RunExits(r) => StopRun(r)
      case _ => Nothing;
  }

  /** A Restart, once asked for, is never forgotten: a run without one has had none. */
  lemma RequestsRemain(cfg: Config, s: State, a: Action)
    requires Next(cfg, s, a).Some?
    ensures |Next(cfg, s, a).value.requests| >= |s.requests|
  {
    hide MoveStart, MoveStarter, MoveWaiter, MoveRequest, Apply;
  }

  /** A step from a reachable state reaches another. */
  lemma StepReaches(cfg: Config, s: State, a: Action, t: State)
    requires Reachable(cfg, s) && Next(cfg, s, a) == Some(t)
    ensures Reachable(cfg, t)
  {
    var acts :| Execute(cfg, InitialState(cfg), acts) == Some(s);
    assert (acts + [a])[..|acts|] == acts;
    assert Execute(cfg, InitialState(cfg), acts + [a]) == Some(t);
  }

  lemma {:induction false} FirstStep(cfg: Config, s: State, a: Action, rest: seq<Action>)
    requires Next(cfg, s, a).Some?
    ensures Execute(cfg, s, [a] + rest) == Execute(cfg, Next(cfg, s, a).value, rest)
  {
    hide Next;
    if rest == [] {
      assert ([a] + rest)[..0] == [] && Execute(cfg, s, []) == Some(s);
      assert [a] + rest == [a];
    } else {
      var last := |rest| - 1;
      FirstStep(cfg, s, a, rest[..last]);
      assert ([a] + rest)[..|[a] + rest| - 1] == [a] + rest[..last];
    }
  }

  lemma {:induction false} ExecuteJoin(cfg: Config, s: State, a: seq<Action>, b: seq<Action>)
    requires Execute(cfg, s, a).Some?
    ensures Execute(cfg, s, a + b) == Execute(cfg, Execute(cfg, s, a).value, b)
  {
    hide Next;
    if b == [] {
      assert a + b == a;
    } else {
      assert (a + b)[..|a + b| - 1] == a + b[..|b| - 1];
      ExecuteJoin(cfg, s, a, b[..|b| - 1]);
    }
  }
}
