/**
 Which gates can still launch their process: for every state of every run of a validated
 configuration, and every way the run can go on. Being blocked is not in the condition.
 */
module GateLaunch {
  import opened Wrappers
  import opened Depends
  import opened Startup
  import opened Protocol
  import opened Progress
  import opened LaunchOrder
  import opened StartupEnds

  // ---------------------------------------------------------------- the condition

  /** The gate has not forked, failed or halted, or Start will yet make it. */
  predicate MayFork(s: State, pc: Pc) {
    pc.Await? || pc.Select? || pc.Lookup? || pc.ToFork? || (pc.Idle? && !s.start.StartFailed?)
  }

  /** Start has still to launch the check of `d`. */
  ghost predicate StartWill(cfg: Config, s: State, d: string) {
    && Locked(s) && !Recurring(cfg, d) && Deps(cfg, d) == []
    && exists j :: Dealt(cfg, s.start) <= j < |cfg.order| && cfg.order[j] == d
  }

  /** A Restart that has still to register its run. */
  predicate OnItsWay(q: Request, d: string) {
    q.name == d && (q.pc.Asked? || q.pc.Take? || q.pc.StopOld? || q.pc.RestartFork? || q.pc.RestartAdopt?)
  }

  /** Some goroutine will launch the check of `d`, or has; short of a Stop, one with a run to register will. */
  ghost predicate InHand(cfg: Config, s: State, d: string) {
    || HasChecker(s, d) || StartWill(cfg, s, d)
    || (!s.shared.cancelled && d in s.starter && s.starter[d].Adopting?)
    || (!s.shared.cancelled && exists k :: 0 <= k < |s.requests| && OnItsWay(s.requests[k], d))
  }

  /**
   `d` is ready or can still become so: its check is in hand, or, short of a Stop, a Restart may
   be asked for, or its own gate can launch it, dependencies likewise to the given depth.
   */
  ghost predicate CanBeReady(cfg: Config, s: State, asks: bool, d: string, depth: nat)
    decreases depth, 0
  {
    if d in s.shared.cells.decided then s.shared.cells.decided[d].Ready?
    else
      || d !in cfg.procs || InHand(cfg, s, d)
      || (!s.shared.cancelled && (asks || (depth > 0 && GateCan(cfg, s, asks, d, depth - 1))))
  }

  ghost predicate GateCan(cfg: Config, s: State, asks: bool, d: string, depth: nat)
    decreases depth, 1
  {
    && GateOnly(cfg, d) && d in s.starter && MayFork(s, s.starter[d])
    && forall e :: e in Deps(cfg, d) ==> CanBeReady(cfg, s, asks, e, depth)
  }

  /** A Restart that will take the registered run of `n` out, unless a Stop comes before it is let in. */
  predicate Takes(s: State, q: Request, n: string) {
    q.name == n && (q.pc.Take? || (q.pc.Asked? && !s.shared.cancelled))
  }

  /** `n` is registered, and no Restart will take it out. */
  ghost predicate Taken(s: State, asks: bool, n: string) {
    && n in s.shared.processes && (asks ==> s.shared.cancelled)
    && forall k :: 0 <= k < |s.requests| ==> !Takes(s, s.requests[k], n)
  }

  /** The condition; `asks` is whether a Restart may yet be asked for. */
  ghost predicate CanFork(cfg: Config, s: State, asks: bool, n: string) {
    && n in s.starter && MayFork(s, s.starter[n])
    && (!s.starter[n].ToFork? ==> !Taken(s, asks, n) && exists depth: nat :: GateCan(cfg, s, asks, n, depth))
  }

  // ---------------------------------------------------------------- more of what holds in every state

  /** A check is claimed before it is launched, and while Start holds the lock no gate's process is registered. */
  ghost predicate ClaimedOk(cfg: Config, s: State) {
    && s.shared.probing <= s.shared.cells.checked
    && (forall n :: n in s.starter && s.starter[n].Checking? ==> n in s.shared.cells.checked)
    && (forall k :: 0 <= k < |s.requests| && s.requests[k].pc.RestartCheck? ==>
      s.requests[k].name in s.shared.cells.checked)
    && (Locked(s) ==> forall n :: n in s.shared.processes ==> !GateOnly(cfg, n))
  }

  ghost predicate Good(cfg: Config, s: State) {
    Invariant(cfg, s) && StartersReady(cfg, s) && LaunchesReady(cfg, s.shared) && ClaimedOk(cfg, s)
  }

  lemma EffectClaims(sh: Shared, e: Effect)
    ensures Apply(sh, e).cells.checked == sh.cells.checked + Claims(e)
    ensures Apply(sh, e).probing <= sh.probing + (if Launches(e) then {e.name} else {})
    ensures Apply(sh, e).processes.Keys <= sh.processes.Keys + Registers(e)
  {
  }

  lemma StarterClaims(cfg: Config, sh: Shared, locked: bool, n: string, pc: Pc, pick: Pick, forked: bool, mv: Move)
    requires MoveStarter(cfg, sh, locked, n, pc, pick, forked) == Some(mv)
    ensures mv.pc.Checking? ==> mv.effect == Claim(n)
    ensures Launches(mv.effect) ==> mv.effect.ClaimService? || (pc.Checking? && mv.effect.name == n)
    ensures Registers(mv.effect) != {} ==> !locked
  {
  }

  lemma RequestClaims(cfg: Config, sh: Shared, locked: bool, q: Request, forked: bool, mv: RequestMove)
    requires MoveRequest(cfg, sh, locked, q, forked) == Some(mv)
    ensures mv.pc.RestartCheck? ==> mv.effect == Claim(q.name)
    ensures Launches(mv.effect) ==> q.pc.RestartCheck? && mv.effect.name == q.name
    ensures Registers(mv.effect) != {} ==> !locked
  {
  }

  lemma WaiterClaims(cfg: Config, sh: Shared, locked: bool, n: string, pc: WaitPc, pick: Pick, outcome: bool,
                     mv: WaitMove)
    requires MoveWaiter(cfg, sh, locked, n, pc, pick, outcome) == Some(mv)
    ensures !Launches(mv.effect) && (Registers(mv.effect) != {} ==> !locked)
  {
  }

  lemma StartClaims(cfg: Config, s: State, forked: bool, mv: StartMove)
    requires DealtOk(cfg, s) && MoveStart(cfg, s.shared, s.start, forked) == Some(mv)
    ensures Launches(mv.effect) ==> mv.effect.name in s.shared.cells.checked
    ensures forall n :: n in Registers(mv.effect) ==> !GateOnly(cfg, n)
    ensures mv.spawn.Some? ==> !mv.spawn.value.Checking?
  {
  }

  lemma ClaimsKept(cfg: Config, s: State, t: State, e: Effect)
    requires ClaimedOk(cfg, s) && t.shared == Apply(s.shared, e)
    requires Launches(e) && !e.ClaimService? ==> e.name in s.shared.cells.checked
    requires forall n :: n in t.starter && t.starter[n].Checking? ==>
               (n in s.starter && s.starter[n].Checking?) || n in Claims(e)
    requires forall k :: 0 <= k < |t.requests| && t.requests[k].pc.RestartCheck? ==>
               (k < |s.requests| && s.requests[k] == t.requests[k]) || t.requests[k].name in Claims(e)
    requires Locked(t) ==> Locked(s) && forall n :: n in Registers(e) ==> !GateOnly(cfg, n)
    ensures ClaimedOk(cfg, t)
  {
    EffectClaims(s.shared, e);
    hide Apply;
  }

  lemma NextClaims(cfg: Config, s: State, a: Action)
    requires ClaimedOk(cfg, s) && DealtOk(cfg, s) && Next(cfg, s, a).Some?
    ensures ClaimedOk(cfg, Next(cfg, s, a).value)
  {
    hide MoveStart, MoveStarter, MoveWaiter, MoveRequest, Apply, ClaimedOk, DealtOk;
    var t := Next(cfg, s, a).value;
    match a
    case StartStep(forked) =>
      var mv := MoveStart(cfg, s.shared, s.start, forked).value;
      StartClaims(cfg, s, forked, mv);
      StartLocks(cfg, s.shared, s.start, forked, mv);
      ClaimsKept(cfg, s, t, mv.effect);
    case StarterStep(n, pick, forked) =>
      var mv := MoveStarter(cfg, s.shared, Locked(s), n, s.starter[n], pick, forked).value;
      StarterClaims(cfg, s.shared, Locked(s), n, s.starter[n], pick, forked, mv);
      CheckingClaimed(cfg, s, n);
      ClaimsKept(cfg, s, t, mv.effect);
    case WaiterStep(n, pick, outcome) =>
      var mv := MoveWaiter(cfg, s.shared, Locked(s), n, s.waiter[n], pick, outcome).value;
      WaiterClaims(cfg, s.shared, Locked(s), n, s.waiter[n], pick, outcome, mv);
      ClaimsKept(cfg, s, t, mv.effect);
    case RequestStep(k, forked) =>
      var mv := MoveRequest(cfg, s.shared, Locked(s), s.requests[k], forked).value;
      RequestClaims(cfg, s.shared, Locked(s), s.requests[k], forked, mv);
      RequestClaimed(cfg, s, k);
      ClaimsKept(cfg, s, t, mv.effect);
    case ProbeStep(n, v) => ClaimsKept(cfg, s, t, ProbeEnds(n, v));
    case StopStep(k) => ClaimsKept(cfg, s, t, if s.stops[k].ToCancel? then CancelAll else Sweep);
    case RunExits(r) => ClaimsKept(cfg, s, t, StopRun(r));
    case _ => NothingHappens(s.shared); ClaimsKept(cfg, s, t, Nothing);
  }

  lemma CheckingClaimed(cfg: Config, s: State, n: string)
    requires ClaimedOk(cfg, s)
    ensures n in s.starter && s.starter[n].Checking? ==> n in s.shared.cells.checked
  {
  }

  lemma RequestClaimed(cfg: Config, s: State, k: nat)
    requires ClaimedOk(cfg, s)
    ensures k < |s.requests| && s.requests[k].pc.RestartCheck? ==> s.requests[k].name in s.shared.cells.checked
  {
  }

  lemma StartLocks(cfg: Config, sh: Shared, pc: StartPc, forked: bool, mv: StartMove)
    requires MoveStart(cfg, sh, pc, forked) == Some(mv)
    ensures !pc.Up? && !pc.StartFailed?
  {
  }

  lemma NextGood(cfg: Config, s: State, a: Action)
    requires WellFormed(cfg) && Good(cfg, s) && Next(cfg, s, a).Some?
    ensures Good(cfg, Next(cfg, s, a).value)
  {
    GoodParts(cfg, s);
    hide Next, Good, Invariant, StartersReady, LaunchesReady, ClaimedOk;
    NextKeeps(cfg, s, a);
    NextReadies(cfg, s, a);
    NextClaims(cfg, s, a);
    IsGood(cfg, Next(cfg, s, a).value);
  }

  lemma GoodParts(cfg: Config, s: State)
    requires Good(cfg, s)
    ensures Invariant(cfg, s) && StartersReady(cfg, s) && LaunchesReady(cfg, s.shared) && ClaimedOk(cfg, s)
      && DealtOk(cfg, s)
  {
  }

  lemma IsGood(cfg: Config, s: State)
    requires Invariant(cfg, s) && StartersReady(cfg, s) && LaunchesReady(cfg, s.shared) && ClaimedOk(cfg, s)
    ensures Good(cfg, s)
  {
  }

  lemma {:induction false} GoodHolds(cfg: Config, acts: seq<Action>)
    requires WellFormed(cfg) && Execute(cfg, InitialState(cfg), acts).Some?
    ensures Good(cfg, Execute(cfg, InitialState(cfg), acts).value)
  {
    if acts == [] {
      InitiallyInvariant(cfg);
    } else {
      hide Next, Good;
      GoodHolds(cfg, acts[..|acts| - 1]);
      NextGood(cfg, Execute(cfg, InitialState(cfg), acts[..|acts| - 1]).value, acts[|acts| - 1]);
    }
  }

  // ---------------------------------------------------------------- once it cannot, it never can

  // What the tables say of who takes a check in hand, and who decides.

  lemma StarterHand(cfg: Config, sh: Shared, locked: bool, n: string, pc: Pc, pick: Pick, forked: bool, mv: Move)
    requires MoveStarter(cfg, sh, locked, n, pc, pick, forked) == Some(mv)
    ensures IsCheckerPc(mv.pc) ==> IsCheckerPc(pc) || (pc.Adopting? && !sh.cancelled)
    ensures mv.pc.Adopting? ==> pc.ToFork?
    ensures forall x :: x in Claims(mv.effect) ==> (x == n && IsCheckerPc(pc)) || x !in cfg.procs
    ensures mv.effect.Decided? ==> mv.effect.name == n && (mv.effect.v.Failed? || pc.Checking?)
    ensures !mv.effect.ProbeEnds?
  {
  }

  lemma RequestHand(cfg: Config, sh: Shared, locked: bool, q: Request, forked: bool, mv: RequestMove)
    requires MoveRequest(cfg, sh, locked, q, forked) == Some(mv)
    ensures var q' := Request(q.name, mv.pc);
            && (IsChecker(q', q.name) ==> IsChecker(q, q.name) || (q.pc.RestartAdopt? && !sh.cancelled))
            && (OnItsWay(q', q.name) ==> OnItsWay(q, q.name))
    ensures forall x :: x in Claims(mv.effect) ==> IsChecker(q, x)
    ensures mv.effect.Decided? ==> mv.effect.name == q.name && q.pc.RestartCheck?
    ensures !mv.effect.ProbeEnds?
  {
  }

  lemma WaiterHand(cfg: Config, sh: Shared, locked: bool, n: string, pc: WaitPc, pick: Pick, outcome: bool,
                   mv: WaitMove)
    requires MoveWaiter(cfg, sh, locked, n, pc, pick, outcome) == Some(mv)
    ensures !mv.effect.ProbeEnds? && !mv.effect.Decided? && Claims(mv.effect) == {}
  {
  }

  lemma StartHand(cfg: Config, s: State, forked: bool, mv: StartMove, d: string)
    requires DealtOk(cfg, s) && MoveStart(cfg, s.shared, s.start, forked) == Some(mv)
    ensures d in Claims(mv.effect) ==> StartWill(cfg, s, d)
    ensures mv.effect.Decided? ==> mv.effect.name in s.shared.cells.checked
    ensures !mv.effect.ProbeEnds? && (mv.spawn.Some? ==> !IsCheckerPc(mv.spawn.value) && !mv.spawn.value.Adopting?)
    ensures StartWill(cfg, s.(start := mv.pc), d) ==> StartWill(cfg, s, d)
  {
  }

  lemma EffectDecisions(sh: Shared, e: Effect, d: string)
    requires d !in sh.cells.decided
    ensures d in Apply(sh, e).cells.decided ==>
              ((e.Decided? && Apply(sh, e).cells.decided[d] == e.v) || e.ProbeEnds?) && e.name == d
    ensures sh.cancelled ==> Apply(sh, e).cancelled
  {
  }

  lemma WillStays(cfg: Config, s: State, t: State, d: string)
    ensures t.start == s.start && StartWill(cfg, t, d) ==> StartWill(cfg, s, d)
  {
  }

  /** The gate of `d` is about to fork. */
  predicate AtFork(s: State, d: string) {
    !s.shared.cancelled && d in s.starter && s.starter[d].ToFork?
  }

  /** Where a check in hand, or a readiness, comes from: it was in hand, or a gate has just forked. */
  lemma HandCame(cfg: Config, s: State, t: State, e: Effect, d: string)
    requires d !in s.shared.cells.decided && t.shared == Apply(s.shared, e)
    requires e.Decided? && e.name == d ==> e.v.Failed? || InHand(cfg, s, d)
    requires e.ProbeEnds? && e.name == d ==> InHand(cfg, s, d)
    requires d in Claims(e) ==> InHand(cfg, s, d)
    requires d in t.starter && IsCheckerPc(t.starter[d]) ==> InHand(cfg, s, d)
    requires d in t.starter && t.starter[d].Adopting? && !s.shared.cancelled ==> InHand(cfg, s, d) || AtFork(s, d)
    requires forall k :: 0 <= k < |t.requests| && IsChecker(t.requests[k], d) ==> InHand(cfg, s, d)
    requires !s.shared.cancelled ==> forall k :: 0 <= k < |t.requests| && OnItsWay(t.requests[k], d) ==> InHand(cfg, s, d)
    requires StartWill(cfg, t, d) ==> StartWill(cfg, s, d)
    ensures InHand(cfg, t, d) || IsReady(t.shared, d) ==> InHand(cfg, s, d) || AtFork(s, d)
  {
    EffectDecisions(s.shared, e, d);
    EffectClaims(s.shared, e);
    assert d in s.shared.cells.checked ==> HasChecker(s, d);
    hide Apply, StartWill;
  }

  lemma StarterCame(cfg: Config, s: State, n: string, pick: Pick, forked: bool, d: string)
    requires ClaimedOk(cfg, s) && d in cfg.procs && d !in s.shared.cells.decided
      && StepStarter(cfg, s, n, pick, forked).Some?
    ensures var t := StepStarter(cfg, s, n, pick, forked).value;
            InHand(cfg, t, d) || IsReady(t.shared, d) ==> InHand(cfg, s, d) || AtFork(s, d)
  {
    var mv := MoveStarter(cfg, s.shared, Locked(s), n, s.starter[n], pick, forked).value;
    var t := AfterStarter(s, n, mv);
    StarterHand(cfg, s.shared, Locked(s), n, s.starter[n], pick, forked, mv);
    CheckingClaimed(cfg, s, n);
    WillStays(cfg, s, t, d);
    hide MoveStarter, Apply, StartWill, ClaimedOk;
    HandCame(cfg, s, t, mv.effect, d);
  }

  lemma RequestCame(cfg: Config, s: State, k: nat, forked: bool, d: string)
    requires ClaimedOk(cfg, s) && d !in s.shared.cells.decided && StepRequest(cfg, s, k, forked).Some?
    ensures var t := StepRequest(cfg, s, k, forked).value;
            InHand(cfg, t, d) || IsReady(t.shared, d) ==> InHand(cfg, s, d) || AtFork(s, d)
  {
    var mv := MoveRequest(cfg, s.shared, Locked(s), s.requests[k], forked).value;
    var t := AfterRequest(s, k, mv);
    RequestHand(cfg, s.shared, Locked(s), s.requests[k], forked, mv);
    RequestClaimed(cfg, s, k);
    WillStays(cfg, s, t, d);
    hide MoveRequest, Apply, StartWill, ClaimedOk;
    HandCame(cfg, s, t, mv.effect, d);
  }

  lemma StartCame(cfg: Config, s: State, forked: bool, d: string)
    requires DealtOk(cfg, s) && d !in s.shared.cells.decided && StepStart(cfg, s, forked).Some?
    ensures var t := StepStart(cfg, s, forked).value;
            InHand(cfg, t, d) || IsReady(t.shared, d) ==> InHand(cfg, s, d) || AtFork(s, d)
  {
    var mv := MoveStart(cfg, s.shared, s.start, forked).value;
    var t := AfterStart(cfg, s, mv);
    StartHand(cfg, s, forked, mv, d);
    WillStays(cfg, s.(start := mv.pc), t, d);
    hide MoveStart, Apply, StartWill, DealtOk;
    HandCame(cfg, s, t, mv.effect, d);
  }

  lemma OtherCame(cfg: Config, s: State, t: State, e: Effect, d: string)
    requires ClaimedOk(cfg, s) && d !in s.shared.cells.decided && t.shared == Apply(s.shared, e)
    requires Claims(e) == {} && !e.Decided? && (e.ProbeEnds? ==> e.name in s.shared.probing)
    requires t.starter == s.starter && t.start == s.start && t.requests == s.requests
    ensures InHand(cfg, t, d) || IsReady(t.shared, d) ==> InHand(cfg, s, d) || AtFork(s, d)
  {
    WillStays(cfg, s, t, d);
    hide Apply, StartWill;
    HandCame(cfg, s, t, e, d);
  }

  lemma AskCame(cfg: Config, s: State, n: string, d: string)
    requires d !in s.shared.cells.decided
    ensures var t := s.(requests := s.requests + [Request(n, Asked)]);
            InHand(cfg, t, d) || IsReady(t.shared, d) ==> InHand(cfg, s, d) || !s.shared.cancelled
  {
    WillStays(cfg, s, s.(requests := s.requests + [Request(n, Asked)]), d);
    hide StartWill;
  }

  lemma NextCame(cfg: Config, s: State, a: Action, d: string)
    requires ClaimedOk(cfg, s) && DealtOk(cfg, s) && Next(cfg, s, a).Some?
    requires d in cfg.procs && d !in s.shared.cells.decided
    ensures var t := Next(cfg, s, a).value;
            InHand(cfg, t, d) || IsReady(t.shared, d) ==>
              InHand(cfg, s, d) || AtFork(s, d) || (a.AskRestart? && !s.shared.cancelled)
  {
    var t := Next(cfg, s, a).value;
    match a
    case StartStep(forked) => StartCame(cfg, s, forked, d);
    case StarterStep(n, pick, forked) => StarterCame(cfg, s, n, pick, forked, d);
    case WaiterStep(n, pick, outcome) =>
      var mv := MoveWaiter(cfg, s.shared, Locked(s), n, s.waiter[n], pick, outcome).value;
      WaiterHand(cfg, s.shared, Locked(s), n, s.waiter[n], pick, outcome, mv);
      hide *;
      OtherCame(cfg, s, t, mv.effect, d);
    case RequestStep(k, forked) => RequestCame(cfg, s, k, forked, d);
    case ProbeStep(n, v) => OtherCame(cfg, s, t, ProbeEnds(n, v), d);
    case StopStep(k) => OtherCame(cfg, s, t, if s.stops[k].ToCancel? then CancelAll else Sweep, d);
    case RunExits(r) => OtherCame(cfg, s, t, StopRun(r), d);
    case AskRestart(n) => AskCame(cfg, s, n, d);
    case _ => NothingHappens(s.shared); OtherCame(cfg, s, t, Nothing, d);
  }

  // What the tables say of the place of a gate's starter, and of registered processes.

  lemma StarterPlaces(cfg: Config, sh: Shared, locked: bool, n: string, pc: Pc, pick: Pick, forked: bool, mv: Move)
    requires MoveStarter(cfg, sh, locked, n, pc, pick, forked) == Some(mv)
    ensures mv.pc.Await? || mv.pc.Select? || mv.pc.Lookup? || mv.pc.ToFork? ==> pc.Await? || pc.Select? || pc.Lookup?
    ensures mv.pc.ToFork? ==> pc.Lookup? && n !in sh.processes
    ensures mv.effect.ForkRun? && mv.effect.cause.ByGate? ==> pc.ToFork? && mv.effect.name == n
    ensures !mv.effect.Unregister? && !mv.effect.FailStart?
  {
  }

  lemma RequestPlaces(cfg: Config, sh: Shared, locked: bool, q: Request, forked: bool, mv: RequestMove)
    requires MoveRequest(cfg, sh, locked, q, forked) == Some(mv)
    ensures mv.pc.Take? ==> q.pc.Asked? && !sh.cancelled
    ensures !mv.pc.Asked? && !mv.effect.CancelAll?
    ensures mv.effect.Unregister? ==> q.pc.Take? && mv.effect.name == q.name
    ensures !mv.effect.FailStart? && (mv.effect.ForkRun? ==> !mv.effect.cause.ByGate?)
  {
  }

  lemma WaiterPlaces(cfg: Config, sh: Shared, locked: bool, n: string, pc: WaitPc, pick: Pick, outcome: bool,
                     mv: WaitMove)
    requires MoveWaiter(cfg, sh, locked, n, pc, pick, outcome) == Some(mv)
    ensures !mv.effect.Unregister? && !mv.effect.FailStart? && (mv.effect.ForkRun? ==> !mv.effect.cause.ByGate?)
  {
  }

  lemma StartPlaces(cfg: Config, sh: Shared, pc: StartPc, forked: bool, mv: StartMove)
    requires MoveStart(cfg, sh, pc, forked) == Some(mv)
    ensures !pc.StartFailed? && !pc.Up? && !mv.effect.Unregister? && (mv.effect.ForkRun? ==> !mv.effect.cause.ByGate?)
  {
  }

  lemma EffectRegistered(sh: Shared, e: Effect, n: string)
    requires n in sh.processes && !(e.Unregister? && e.name == n) && !e.FailStart?
    ensures n in Apply(sh, e).processes
  {
  }

  /** What is registered, with no Restart to take it out, stays so. */
  lemma TakenKept(s: State, t: State, asks: bool, e: Effect, n: string)
    requires Taken(s, asks, n) && t.shared == Apply(s.shared, e)
    requires !(e.Unregister? && e.name == n) && !e.FailStart?
    requires forall k :: 0 <= k < |t.requests| && Takes(t, t.requests[k], n) ==>
      k < |s.requests| && Takes(s, s.requests[k], n)
    ensures Taken(t, asks, n)
  {
    EffectRegistered(s.shared, e, n);
    CancelStays(s.shared, e);
    hide Apply;
  }

  lemma CancelStays(sh: Shared, e: Effect)
    ensures sh.cancelled ==> Apply(sh, e).cancelled
  {
  }

  lemma TakenStays(cfg: Config, s: State, asks: bool, a: Action, n: string)
    requires ClaimedOk(cfg, s) && GateOnly(cfg, n) && Taken(s, asks, n) && Next(cfg, s, a).Some?
    requires a.AskRestart? ==> asks
    ensures Taken(Next(cfg, s, a).value, asks, n)
  {
    forall e { CancelStays(s.shared, e); }
    hide MoveStart, MoveStarter, MoveWaiter, MoveRequest, Apply;
    var t := Next(cfg, s, a).value;
    match a
    case StartStep(forked) =>
      StartPlaces(cfg, s.shared, s.start, forked, MoveStart(cfg, s.shared, s.start, forked).value);
      assert false;
    case StarterStep(m, pick, forked) =>
      var mv := MoveStarter(cfg, s.shared, Locked(s), m, s.starter[m], pick, forked).value;
      StarterPlaces(cfg, s.shared, Locked(s), m, s.starter[m], pick, forked, mv);
      TakenKept(s, t, asks, mv.effect, n);
    case WaiterStep(m, pick, outcome) =>
      var mv := MoveWaiter(cfg, s.shared, Locked(s), m, s.waiter[m], pick, outcome).value;
      WaiterPlaces(cfg, s.shared, Locked(s), m, s.waiter[m], pick, outcome, mv);
      TakenKept(s, t, asks, mv.effect, n);
    case RequestStep(k, forked) =>
      var mv := MoveRequest(cfg, s.shared, Locked(s), s.requests[k], forked).value;
      RequestPlaces(cfg, s.shared, Locked(s), s.requests[k], forked, mv);
      TakenKept(s, t, asks, mv.effect, n);
    case ProbeStep(m, v) => TakenKept(s, t, asks, ProbeEnds(m, v), n);
    case StopStep(k) => TakenKept(s, t, asks, if s.stops[k].ToCancel? then CancelAll else Sweep, n);
    case RunExits(r) => TakenKept(s, t, asks, StopRun(r), n);
    case _ => NothingHappens(s.shared); TakenKept(s, t, asks, Nothing, n);
  }

  lemma StartSpawns(cfg: Config, sh: Shared, pc: StartPc, forked: bool, mv: StartMove)
    requires MoveStart(cfg, sh, pc, forked) == Some(mv)
    ensures mv.spawn.Some? ==> pc.NextProcess? && pc.i < |cfg.order| && !mv.spawn.value.ToFork?
  {
  }

  lemma PlaceStays(cfg: Config, s: State, a: Action, n: string)
    requires UndealtOk(cfg, s) && n in s.starter && Next(cfg, s, a).Some?
    ensures var t := Next(cfg, s, a).value;
            && n in t.starter && (MayFork(t, t.starter[n]) ==> MayFork(s, s.starter[n]))
            && (t.starter[n].ToFork? ==> s.starter[n].ToFork? || (s.starter[n].Lookup? && n !in s.shared.processes))
            && (s.shared.cancelled ==> t.shared.cancelled)
  {
    forall e { CancelStays(s.shared, e); }
    hide MoveStart, MoveStarter, MoveWaiter, MoveRequest, Apply;
    match a
    case StartStep(forked) =>
      var mv := MoveStart(cfg, s.shared, s.start, forked).value;
      StartPlaces(cfg, s.shared, s.start, forked, mv);
      StartSpawns(cfg, s.shared, s.start, forked, mv);
    case StarterStep(m, pick, forked) =>
      var mv := MoveStarter(cfg, s.shared, Locked(s), m, s.starter[m], pick, forked).value;
      StarterPlaces(cfg, s.shared, Locked(s), m, s.starter[m], pick, forked, mv);
      StarterEffects(cfg, s.shared, Locked(s), m, s.starter[m], pick, forked, mv);
    case _ =>
  }

  /** A gate that has looked its process up had all its dependencies ready. */
  lemma LookedUp(cfg: Config, s: State, asks: bool, n: string, depth: nat)
    requires StartersReady(cfg, s) && NamesOk(cfg, s) && n in s.starter && (s.starter[n].Lookup? || s.starter[n].ToFork?)
    ensures GateCan(cfg, s, asks, n, depth)
  {
    assert ReadyOk(cfg, s.shared, n, s.starter[n]) && NameOk(cfg, s, n);
    hide StartersReady, NamesOk, NameOk;
  }

  ghost predicate Core(cfg: Config, s: State) {
    StartersReady(cfg, s) && NamesOk(cfg, s) && ClaimedOk(cfg, s) && DealtOk(cfg, s) && UndealtOk(cfg, s)
  }

  /** What can become ready after a step could before, at most one gate deeper. */
  lemma {:induction false} ReadyBefore(cfg: Config, s: State, asks: bool, a: Action, d: string, depth: nat)
    requires Core(cfg, s) && Next(cfg, s, a).Some? && (a.AskRestart? ==> asks)
    requires CanBeReady(cfg, Next(cfg, s, a).value, asks, d, depth)
    ensures CanBeReady(cfg, s, asks, d, depth + 1)
    decreases depth
  {
    var t := Next(cfg, s, a).value;
    NextDecides(cfg, s, a);
    if d !in s.shared.cells.decided && d in cfg.procs {
      NextCame(cfg, s, a, d);
      if AtFork(s, d) {
        LookedUp(cfg, s, asks, d, depth);
      }
      if d in s.starter {
        PlaceStays(cfg, s, a, d);
      }
      hide Next, Core, InHand, AtFork;
      if d !in t.shared.cells.decided && !InHand(cfg, t, d) && !asks {
        forall e | e in Deps(cfg, d) ensures CanBeReady(cfg, s, asks, e, depth) {
          ReadyBefore(cfg, s, asks, a, e, depth - 1);
        }
      }
    }
  }

  lemma GoodIsCore(cfg: Config, s: State)
    requires Good(cfg, s)
    ensures Core(cfg, s) && Invariant(cfg, s)
  {
  }

  lemma CoreParts(cfg: Config, s: State)
    requires Core(cfg, s)
    ensures StartersReady(cfg, s) && NamesOk(cfg, s) && ClaimedOk(cfg, s) && UndealtOk(cfg, s)
  {
  }

  lemma CannotForkStays(cfg: Config, s: State, asks: bool, a: Action, n: string)
    requires Core(cfg, s) && GateOnly(cfg, n) && n in s.starter && !CanFork(cfg, s, asks, n)
    requires Next(cfg, s, a).Some? && (a.AskRestart? ==> asks)
    ensures n in Next(cfg, s, a).value.starter && !CanFork(cfg, Next(cfg, s, a).value, asks, n)
  {
    CoreParts(cfg, s);
    PlaceStays(cfg, s, a, n);
    hide Next, Core, StartersReady, NamesOk, ClaimedOk, UndealtOk, Taken, GateCan, CanBeReady;
    var t := Next(cfg, s, a).value;
    if MayFork(s, s.starter[n]) && MayFork(t, t.starter[n]) {
      if Taken(s, asks, n) {
        TakenStays(cfg, s, asks, a, n);
        assert s.starter[n].Lookup? ==> n in s.shared.processes by { TakenIsRegistered(s, asks, n); }
      } else {
        if s.starter[n].Lookup? {
          LookedUp(cfg, s, asks, n, 0);
        }
        forall depth: nat | GateCan(cfg, t, asks, n, depth) ensures GateCan(cfg, s, asks, n, depth + 1) {
          GateBefore(cfg, s, asks, a, n, depth);
        }
      }
    }
  }

  lemma TakenIsRegistered(s: State, asks: bool, n: string)
    requires Taken(s, asks, n)
    ensures n in s.shared.processes
  {
  }

  lemma GateBefore(cfg: Config, s: State, asks: bool, a: Action, n: string, depth: nat)
    requires Core(cfg, s) && Next(cfg, s, a).Some? && (a.AskRestart? ==> asks) && n in s.starter
    requires GateCan(cfg, Next(cfg, s, a).value, asks, n, depth)
    ensures GateCan(cfg, s, asks, n, depth + 1)
  {
    CoreParts(cfg, s);
    PlaceStays(cfg, s, a, n);
    hide Next, Core, CanBeReady;
    forall e | e in Deps(cfg, n) ensures CanBeReady(cfg, s, asks, e, depth + 1) {
      ReadyBefore(cfg, s, asks, a, e, depth);
    }
  }

  lemma NoLaunch(cfg: Config, s: State, asks: bool, a: Action, n: string)
    requires n in s.starter && !CanFork(cfg, s, asks, n) && Next(cfg, s, a).Some?
    ensures var before, after := s.shared.launches, Next(cfg, s, a).value.shared.launches;
            after == before || (exists l :: after == before + [l] && l != Launch(n, ByGate))
  {
    hide MoveStart, MoveStarter, MoveWaiter, MoveRequest;
    forall e { EffectLaunches(s.shared, e); }
    hide Apply;
    match a
    case StartStep(forked) => StartPlaces(cfg, s.shared, s.start, forked, MoveStart(cfg, s.shared, s.start, forked).value);
    case StarterStep(m, pick, forked) =>
      var mv := MoveStarter(cfg, s.shared, Locked(s), m, s.starter[m], pick, forked).value;
      StarterPlaces(cfg, s.shared, Locked(s), m, s.starter[m], pick, forked, mv);
    case WaiterStep(m, pick, outcome) =>
      WaiterPlaces(cfg, s.shared, Locked(s), m, s.waiter[m], pick, outcome,
                   MoveWaiter(cfg, s.shared, Locked(s), m, s.waiter[m], pick, outcome).value);
    case RequestStep(k, forked) =>
      RequestPlaces(cfg, s.shared, Locked(s), s.requests[k], forked,
                    MoveRequest(cfg, s.shared, Locked(s), s.requests[k], forked).value);
    case _ =>
  }

  predicate Allowed(asks: bool, acts: seq<Action>) {
    asks || forall k :: 0 <= k < |acts| ==> !acts[k].AskRestart?
  }

  /** A gate that cannot fork launches its process in no continuation. */
  lemma {:induction false} NeverLaunches(cfg: Config, s: State, asks: bool, n: string, acts: seq<Action>)
    requires WellFormed(cfg) && Good(cfg, s) && GateOnly(cfg, n) && n in s.starter && !CanFork(cfg, s, asks, n)
    requires Execute(cfg, s, acts).Some? && Allowed(asks, acts)
    ensures var t := Execute(cfg, s, acts).value;
            && Good(cfg, t) && n in t.starter && !CanFork(cfg, t, asks, n)
            && |s.shared.launches| <= |t.shared.launches|
            && forall k :: |s.shared.launches| <= k < |t.shared.launches| ==> t.shared.launches[k] != Launch(n, ByGate)
  {
    hide Next, Good, CanFork, Core, Invariant;
    if acts != [] {
      var before, a := acts[..|acts| - 1], acts[|acts| - 1];
      NeverLaunches(cfg, s, asks, n, before);
      var t := Execute(cfg, s, before).value;
      NextGood(cfg, t, a);
      NoLaunch(cfg, t, asks, a, n);
      GoodIsCore(cfg, t);
      CannotForkStays(cfg, t, asks, a, n);
    }
  }
}
