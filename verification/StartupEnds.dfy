/**
 Startup ends: every startup step uses up part of a measure that no other step but a new
 Restart request adds to, so a run has only so many of them; and since one can always be
 taken while a process is pending (module Progress), startup settles every process.
 */
module StartupEnds {
  import opened Wrappers
  import opened Depends
  import opened Startup
  import opened Protocol
  import opened Progress

  // ---------------------------------------------------------------- the measure

  function Remaining(cfg: Config, n: string, i: nat): nat {
    if i <= |Deps(cfg, n)| then |Deps(cfg, n)| - i else 0
  }

  /** At most how many more steps a starter takes before it settles and ends, probes it launches included. */
  function StarterWeight(cfg: Config, n: string, pc: Pc): nat {
    var size := |cfg.order|;
    match pc
    case Idle => size + 15 + 3 * |Deps(cfg, n)|
    case Await(i) => size + 14 + 3 * Remaining(cfg, n, i)
    case Select(i) => size + 12 + 3 * Remaining(cfg, n, i)
    case Lookup => size + 13
    case ToFork => size + 12
    case Adopting(_) => size + 11
    case ForkFailed(_) => size + 9
    case ForkDecide(_) => size + 8
    case Broken(_) => size + 6
    case ToHalt(_) => size + 5
    case Halting(_) => size + 4
    case Blocking(rest, _) => |rest| + 2
    case Settling => 9
    case Marking => 8
    case Checking => 6
    case SettleRunning => 1
    case Discarding(_) => 1
    case LoopSettle => 1
    case _ => 0
  }

  function StartWeight(cfg: Config, pc: StartPc): nat {
    var left := if Dealt(cfg, pc) <= |cfg.order| then |cfg.order| - Dealt(cfg, pc) else 0;
    match pc
    case NextProcess(_) => 8 * left + 1
    case StartAdopt(_, _) => 8 * left
    case StartMark(_) => if left == 0 then 0 else 8 * left - 1
    case StartCheck(_) => if left == 0 then 0 else 8 * left - 2
    case Up => 0
    case StartFailed => 0
  }

  function RequestWeight(pc: RequestPc): nat {
    match pc
    case Asked => 10
    case Take => 9
    case StopOld(_) => 8
    case RestartFork => 7
    case RestartAdopt(_) => 6
    case RestartStarted => 5
    case RestartMark => 4
    case RestartCheck => 3
    case RestartDiscard(_) => 1
    case Served => 0
  }

  function SumStarters(cfg: Config, starter: map<string, Pc>, names: seq<string>): nat {
    if names == [] then 0
    else
      var n := names[0];
      (if n in starter then StarterWeight(cfg, n, starter[n]) else 0) + SumStarters(cfg, starter, names[1..])
  }

  function SumProbing(probing: set<string>, names: seq<string>): nat {
    if names == [] then 0 else (if names[0] in probing then 1 else 0) + SumProbing(probing, names[1..])
  }

  function SumRequests(requests: seq<Request>): nat {
    if requests == [] then 0
    else SumRequests(requests[..|requests| - 1]) + RequestWeight(requests[|requests| - 1].pc)
  }

  /** `names` lists everything that can be probed: the processes and what they depend on. */
  ghost predicate Covers(cfg: Config, names: seq<string>) {
    && Distinct(names)
    && (forall n :: n in cfg.procs ==> n in names)
    && (forall n, d :: n in cfg.procs && d in cfg.procs[n].dependsOn ==> d in names)
  }

  function Measure(cfg: Config, names: seq<string>, s: State): nat {
    StartWeight(cfg, s.start) + SumStarters(cfg, s.starter, cfg.order)
    + SumProbing(s.shared.probing, names) + SumRequests(s.requests)
  }

  // ---------------------------------------------------------------- sums change where they are changed

  lemma {:induction false} StarterElsewhere(cfg: Config, starter: map<string, Pc>, names: seq<string>, n: string,
                                            pc: Pc)
    requires n !in names
    ensures SumStarters(cfg, starter[n := pc], names) == SumStarters(cfg, starter, names)
  {
    if names != [] {
      assert names[0] in names;
      StarterElsewhere(cfg, starter, names[1..], n, pc);
    }
  }

  lemma {:induction false} StarterMoves(cfg: Config, starter: map<string, Pc>, names: seq<string>, n: string, pc: Pc)
    requires Distinct(names) && n in names && n in starter
    ensures SumStarters(cfg, starter[n := pc], names) + StarterWeight(cfg, n, starter[n])
         == SumStarters(cfg, starter, names) + StarterWeight(cfg, n, pc)
  {
    if names[0] == n {
      StarterElsewhere(cfg, starter, names[1..], n, pc);
    } else {
      StarterMoves(cfg, starter, names[1..], n, pc);
    }
  }

  lemma {:induction false} ProbingElsewhere(probing: set<string>, names: seq<string>, x: string)
    requires x !in names
    ensures SumProbing(probing + {x}, names) == SumProbing(probing, names) == SumProbing(probing - {x}, names)
  {
    if names != [] {
      assert names[0] in names;
      ProbingElsewhere(probing, names[1..], x);
    }
  }

  lemma {:induction false} ProbingChanges(probing: set<string>, names: seq<string>, x: string)
    requires Distinct(names) && x in names
    ensures SumProbing(probing + {x}, names) <= SumProbing(probing, names) + 1
    ensures SumProbing(probing - {x}, names) == SumProbing(probing, names) - (if x in probing then 1 else 0)
  {
    if names[0] == x {
      ProbingElsewhere(probing, names[1..], x);
    } else {
      ProbingChanges(probing, names[1..], x);
    }
  }

  lemma {:induction false} RequestMoves(requests: seq<Request>, k: nat, q: Request)
    requires k < |requests|
    ensures SumRequests(requests[k := q]) + RequestWeight(requests[k].pc)
         == SumRequests(requests) + RequestWeight(q.pc)
  {
    var last := |requests| - 1;
    if k == last {
      assert requests[k := q][..last] == requests[..last];
    } else {
      assert requests[k := q][..last] == requests[..last][k := q];
      RequestMoves(requests[..last], k, q);
    }
  }

  // ---------------------------------------------------------------- what is probed is known

  ghost predicate ProbingKnown(cfg: Config, names: seq<string>, s: State) {
    forall x :: x in s.shared.probing ==> x in names
  }

  predicate Launches(e: Effect) { e.ClaimService? || e.Probe? }

  lemma EffectProbing(sh: Shared, e: Effect, names: seq<string>)
    requires Distinct(names) && (Launches(e) || e.ProbeEnds? ==> e.name in names)
    ensures SumProbing(Apply(sh, e).probing, names) <= SumProbing(sh.probing, names) + (if Launches(e) then 1 else 0)
    ensures e.ProbeEnds? && e.name in sh.probing ==>
              SumProbing(Apply(sh, e).probing, names) < SumProbing(sh.probing, names)
    ensures Apply(sh, e).probing <= sh.probing + (if Launches(e) then {e.name} else {})
  {
    if Launches(e) || e.ProbeEnds? {
      ProbingChanges(sh.probing, names, e.name);
    }
  }

  /** A starter's step uses up some of its weight, a probe it launches included, until it loops. */
  ghost predicate Uses(cfg: Config, n: string, pc: Pc, mv: Move) {
    && (Launches(mv.effect) ==>
          || mv.effect.name in cfg.procs
          || (pc.Await? && pc.i < |Deps(cfg, n)| && mv.effect.name == Deps(cfg, n)[pc.i]))
    && !mv.effect.ProbeEnds?
    && (if InLoop(pc) && !pc.LoopSettle? then !Launches(mv.effect) && StarterWeight(cfg, n, mv.pc) == 0
        else StarterWeight(cfg, n, mv.pc) + (if Launches(mv.effect) then 1 else 0) < StarterWeight(cfg, n, pc))
  }

  lemma AwaitUses(cfg: Config, sh: Shared, n: string, pc: Pc, pick: Pick, mv: Move)
    requires MoveAwait(cfg, sh, n, pc, pick) == Some(mv)
    ensures Uses(cfg, n, pc, mv)
  {
  }

  lemma HaltUses(cfg: Config, sh: Shared, n: string, pc: Pc, mv: Move)
    requires MoveHalt(cfg, sh, n, pc) == Some(mv)
    ensures Uses(cfg, n, pc, mv)
  {
  }

  lemma GateUses(cfg: Config, sh: Shared, locked: bool, n: string, pc: Pc, forked: bool, mv: Move)
    requires MoveGate(cfg, sh, locked, n, pc, forked) == Some(mv)
    ensures Uses(cfg, n, pc, mv)
  {
  }

  lemma LoopUses(cfg: Config, sh: Shared, locked: bool, n: string, pc: Pc, pick: Pick, forked: bool, mv: Move)
    requires MoveLoop(sh, locked, n, pc, pick, forked) == Some(mv)
    ensures Uses(cfg, n, pc, mv)
  {
  }

  lemma StarterUses(cfg: Config, sh: Shared, locked: bool, n: string, pc: Pc, pick: Pick, forked: bool, mv: Move)
    requires MoveStarter(cfg, sh, locked, n, pc, pick, forked) == Some(mv)
    ensures Uses(cfg, n, pc, mv)
  {
    hide MoveAwait, MoveHalt, MoveGate, MoveLoop, Uses;
    if InAwait(pc) {
      AwaitUses(cfg, sh, n, pc, pick, mv);
    } else if InHalt(pc) {
      HaltUses(cfg, sh, n, pc, mv);
    } else if InLoop(pc) {
      LoopUses(cfg, sh, locked, n, pc, pick, forked, mv);
    } else {
      GateUses(cfg, sh, locked, n, pc, forked, mv);
    }
  }

  lemma WaiterUses(cfg: Config, sh: Shared, locked: bool, n: string, pc: WaitPc, pick: Pick, outcome: bool,
                   mv: WaitMove)
    requires MoveWaiter(cfg, sh, locked, n, pc, pick, outcome) == Some(mv)
    ensures !Launches(mv.effect) && !mv.effect.ProbeEnds?
  {
  }

  lemma RequestUses(cfg: Config, sh: Shared, locked: bool, q: Request, forked: bool, mv: RequestMove)
    requires MoveRequest(cfg, sh, locked, q, forked) == Some(mv)
    ensures Launches(mv.effect) ==> mv.effect.name in cfg.procs
    ensures !mv.effect.ProbeEnds?
    ensures RequestWeight(mv.pc) + (if Launches(mv.effect) then 1 else 0) < RequestWeight(q.pc)
  {
  }

  lemma StartUses(cfg: Config, sh: Shared, pc: StartPc, forked: bool, mv: StartMove)
    requires MoveStart(cfg, sh, pc, forked) == Some(mv)
    ensures Launches(mv.effect) ==> mv.effect.name in cfg.procs
    ensures !mv.effect.ProbeEnds?
    ensures StartWeight(cfg, mv.pc) + (if Launches(mv.effect) then 1 else 0) < StartWeight(cfg, pc)
    ensures mv.spawn.Some? ==>
              && pc.NextProcess? && pc.i < |cfg.order|
              && StarterWeight(cfg, cfg.order[pc.i], mv.spawn.value) <= StarterWeight(cfg, cfg.order[pc.i], Idle)
  {
  }

  // ---------------------------------------------------------------- every step

  /** What one action may add to the measure. */
  function Adds(a: Action): nat { if a.AskRestart? then 10 else 0 }

  ghost predicate Spent(cfg: Config, names: seq<string>, s: State, a: Action, t: State) {
    && ProbingKnown(cfg, names, t)
    && Measure(cfg, names, t) <= Measure(cfg, names, s) + Adds(a)
    && (StartupAction(s, a) ==> Measure(cfg, names, t) < Measure(cfg, names, s))
  }

  lemma StarterSpends(cfg: Config, names: seq<string>, s: State, n: string, pick: Pick, forked: bool)
    requires WellFormed(cfg) && Covers(cfg, names) && ProbingKnown(cfg, names, s) && s.starter.Keys == cfg.procs.Keys
    requires StepStarter(cfg, s, n, pick, forked).Some?
    ensures Spent(cfg, names, s, StarterStep(n, pick, forked), StepStarter(cfg, s, n, pick, forked).value)
  {
    var mv := MoveStarter(cfg, s.shared, Locked(s), n, s.starter[n], pick, forked).value;
    StarterUses(cfg, s.shared, Locked(s), n, s.starter[n], pick, forked, mv);
    assert Launches(mv.effect) ==> mv.effect.name in names;
    hide MoveStarter, Apply;
    EffectProbing(s.shared, mv.effect, names);
    StarterMoves(cfg, s.starter, cfg.order, n, mv.pc);
    hide StarterWeight;
  }

  lemma StartSpends(cfg: Config, names: seq<string>, s: State, forked: bool)
    requires WellFormed(cfg) && Covers(cfg, names) && ProbingKnown(cfg, names, s) && UndealtOk(cfg, s)
    requires StepStart(cfg, s, forked).Some?
    ensures Spent(cfg, names, s, StartStep(forked), StepStart(cfg, s, forked).value)
  {
    var mv := MoveStart(cfg, s.shared, s.start, forked).value;
    StartUses(cfg, s.shared, s.start, forked, mv);
    hide MoveStart, Apply, StarterWeight;
    EffectProbing(s.shared, mv.effect, names);
    if mv.spawn.Some? {
      StarterMoves(cfg, s.starter, cfg.order, cfg.order[s.start.i], mv.spawn.value);
    }
  }

  lemma RequestSpends(cfg: Config, names: seq<string>, s: State, k: nat, forked: bool)
    requires WellFormed(cfg) && Covers(cfg, names) && ProbingKnown(cfg, names, s)
    requires StepRequest(cfg, s, k, forked).Some?
    ensures Spent(cfg, names, s, RequestStep(k, forked), StepRequest(cfg, s, k, forked).value)
  {
    var mv := MoveRequest(cfg, s.shared, Locked(s), s.requests[k], forked).value;
    RequestUses(cfg, s.shared, Locked(s), s.requests[k], forked, mv);
    hide MoveRequest, Apply, StarterWeight;
    EffectProbing(s.shared, mv.effect, names);
    RequestMoves(s.requests, k, Request(s.requests[k].name, mv.pc));
  }

  lemma WaiterSpends(cfg: Config, names: seq<string>, s: State, n: string, pick: Pick, outcome: bool)
    requires Covers(cfg, names) && ProbingKnown(cfg, names, s) && StepWaiter(cfg, s, n, pick, outcome).Some?
    ensures Spent(cfg, names, s, WaiterStep(n, pick, outcome), StepWaiter(cfg, s, n, pick, outcome).value)
  {
    var mv := MoveWaiter(cfg, s.shared, Locked(s), n, s.waiter[n], pick, outcome).value;
    WaiterUses(cfg, s.shared, Locked(s), n, s.waiter[n], pick, outcome, mv);
    hide MoveWaiter, Apply;
    EffectProbing(s.shared, mv.effect, names);
  }

  /** Every startup step uses up some of the measure, and only asking for a Restart adds to it. */
  lemma StepsSpend(cfg: Config, names: seq<string>, s: State, a: Action)
    requires WellFormed(cfg) && Covers(cfg, names) && Invariant(cfg, s) && ProbingKnown(cfg, names, s)
    requires Next(cfg, s, a).Some?
    ensures Spent(cfg, names, s, a, Next(cfg, s, a).value)
  {
    hide StepStart, StepStarter, StepWaiter, StepRequest, PlaceOk, CheckerOk, OnceOk, DealtOk, ChecksOk, GatesOk, Measure, Spent;
    match a
    case StartStep(forked) => StartSpends(cfg, names, s, forked);
    case StarterStep(n, pick, forked) => StarterSpends(cfg, names, s, n, pick, forked);
    case WaiterStep(n, pick, outcome) => WaiterSpends(cfg, names, s, n, pick, outcome);
    case RequestStep(k, forked) => RequestSpends(cfg, names, s, k, forked);
    case _ => OtherSpends(cfg, names, s, a);
  }

  lemma OtherSpends(cfg: Config, names: seq<string>, s: State, a: Action)
    requires Covers(cfg, names) && ProbingKnown(cfg, names, s) && Next(cfg, s, a).Some?
    requires !a.StartStep? && !a.StarterStep? && !a.WaiterStep? && !a.RequestStep?
    ensures Spent(cfg, names, s, a, Next(cfg, s, a).value)
  {
    hide StarterWeight, StartWeight, SumStarters;
    match a
    case ProbeStep(n, v) => EffectProbing(s.shared, ProbeEnds(n, v), names);
    case AskRestart(n) => assert (s.requests + [Request(n, Asked)])[..|s.requests|] == s.requests;
    case _ =>
  }

  // ---------------------------------------------------------------- every run

  /** How many of the actions of a run are steps of startup. */
  function StartupSteps(cfg: Config, acts: seq<Action>): nat {
    if acts == [] then 0
    else
      var before := Execute(cfg, InitialState(cfg), acts[..|acts| - 1]);
      StartupSteps(cfg, acts[..|acts| - 1]) + (if before.Some? && StartupAction(before.value, acts[|acts| - 1]) then 1 else 0)
  }

  function RestartsAsked(acts: seq<Action>): nat {
    if acts == [] then 0
    else RestartsAsked(acts[..|acts| - 1]) + (if acts[|acts| - 1].AskRestart? then 1 else 0)
  }

  /** A run has only so many startup steps: what the configuration allows, and ten for each Restart. */
  lemma {:induction false} StartupStepsAreBounded(cfg: Config, names: seq<string>, acts: seq<Action>)
    requires WellFormed(cfg) && Covers(cfg, names) && Execute(cfg, InitialState(cfg), acts).Some?
    ensures ProbingKnown(cfg, names, Execute(cfg, InitialState(cfg), acts).value)
    ensures StartupSteps(cfg, acts) + Measure(cfg, names, Execute(cfg, InitialState(cfg), acts).value)
         <= Measure(cfg, names, InitialState(cfg)) + 10 * RestartsAsked(acts)
  {
    hide Next, Measure, Invariant;
    if acts != [] {
      var before := acts[..|acts| - 1];
      StartupStepsAreBounded(cfg, names, before);
      InvariantHolds(cfg, before);
      StepsSpend(cfg, names, Execute(cfg, InitialState(cfg), before).value, acts[|acts| - 1]);
    }
  }

  /** A run that leaves nothing pending, and asks for no Restart. */
  ghost predicate SettlesAll(cfg: Config, s: State, acts: seq<Action>) {
    && (forall k :: 0 <= k < |acts| ==> !acts[k].AskRestart?)
    && Execute(cfg, s, acts).Some? && Execute(cfg, s, acts).value.shared.cells.pending == {}
  }

  lemma AsksNothing(s: State, a: Action)
    requires StartupAction(s, a)
    ensures !a.AskRestart?
  {
  }

  /** A schedule of at most Measure startup steps that leaves no process pending. */
  lemma {:induction false} SettlesFrom(cfg: Config, names: seq<string>, s: State) returns (acts: seq<Action>)
    requires WellFormed(cfg) && Accepted(cfg) && Covers(cfg, names) && Invariant(cfg, s) && ProbingKnown(cfg, names, s)
    requires !s.shared.cancelled
    ensures SettlesAll(cfg, s, acts) && |acts| <= Measure(cfg, names, s)
    decreases Measure(cfg, names, s)
  {
    hide Measure, Next, Invariant, Covers, StartupAction;
    if s.shared.cells.pending == {} {
      return [];
    }
    InvariantSteps(cfg, s);
    var a :| StartupAction(s, a) && Next(cfg, s, a).Some? && !Next(cfg, s, a).value.shared.cancelled;
    AsksNothing(s, a);
    NextKeeps(cfg, s, a);
    StepsSpend(cfg, names, s, a);
    var rest := SettlesFrom(cfg, names, Next(cfg, s, a).value);
    FirstStep(cfg, s, a, rest);
    return [a] + rest;
  }

  /** From every state that has not been stopped, startup can still settle every process. */
  lemma StartupSettles(cfg: Config, names: seq<string>, s: State)
    requires WellFormed(cfg) && Accepted(cfg) && Covers(cfg, names) && Reachable(cfg, s) && !s.shared.cancelled
    ensures exists acts :: SettlesAll(cfg, s, acts) && |acts| <= Measure(cfg, names, s)
  {
    var before :| Execute(cfg, InitialState(cfg), before) == Some(s);
    InvariantHolds(cfg, before);
    StartupStepsAreBounded(cfg, names, before);
    hide Measure, Invariant;
    var acts := SettlesFrom(cfg, names, s);
  }

  /** A waiter of Wait is never left waiting for a start: once its gate is settled, or Stop cancels, it can go on. */
  lemma WaiterIsReleased(cfg: Config, s: State, n: string)
    requires WellFormed(cfg) && Reachable(cfg, s) && n in s.waiter && s.waiter[n].AwaitStarted?
    ensures n !in s.shared.cells.pending || s.shared.cancelled ==>
              exists pick :: Next(cfg, s, WaiterStep(n, pick, false)).Some?
    ensures n in s.shared.cells.pending && !s.shared.cancelled ==>
              forall pick :: Next(cfg, s, WaiterStep(n, pick, false)).None?
  {
    var before :| Execute(cfg, InitialState(cfg), before) == Some(s);
    InvariantHolds(cfg, before);
    hide NamesOk, OnceOk, ChecksOk, DealtOk, UndealtOk;
    if s.shared.cancelled {
      assert Next(cfg, s, WaiterStep(n, Cancelled, false)).Some?;
    } else if n !in s.shared.cells.pending {
      assert Next(cfg, s, WaiterStep(n, TheDependency, false)).Some?;
    }
  }
}
