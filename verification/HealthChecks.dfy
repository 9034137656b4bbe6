/**
 Ready means checked. In every run, a process with a healthcheck, or a service, that has been
 decided ready had its check launched once, after the process, and the check passed; what is
 decided failed had its check or its fork fail. So a launch comes after the checks of all it
 depends on have passed.
 */
module HealthChecks {
  import opened Wrappers
  import opened Depends
  import opened Startup
  import opened Protocol
  import opened Progress
  import opened LaunchOrder
  import opened StartupEnds
  import opened GateLaunch

  // ---------------------------------------------------------------- checked processes have been launched

  predicate PastFork(pc: RequestPc) { pc.RestartAdopt? || pc.RestartStarted? || pc.RestartMark? || pc.RestartCheck? }

  predicate PastTake(pc: RequestPc) { pc.StopOld? || pc.RestartFork? || PastFork(pc) }

  /** Whoever is on the way to a check has a launched process; Restarts get no further with an unknown name. */
  ghost predicate LaunchedFirst(cfg: Config, s: State) {
    && (forall n :: n in s.starter && HoldsLaunched(s.starter[n]) ==> Launched(s.shared, n))
    && (forall n :: StartHolds(cfg, s.start, n) ==> Launched(s.shared, n))
    && (forall k :: 0 <= k < |s.requests| && PastFork(s.requests[k].pc) ==> Launched(s.shared, s.requests[k].name))
    && (forall k :: 0 <= k < |s.requests| && PastTake(s.requests[k].pc) ==> s.requests[k].name in cfg.procs)
    && (forall n :: n in s.shared.probing && n in cfg.procs ==> Launched(s.shared, n))
  }

  lemma StarterLaunched(cfg: Config, sh: Shared, locked: bool, n: string, pc: Pc, pick: Pick, forked: bool, mv: Move)
    requires MoveStarter(cfg, sh, locked, n, pc, pick, forked) == Some(mv)
    ensures HoldsLaunched(mv.pc) ==> HoldsLaunched(pc) || (mv.effect.ForkRun? && mv.effect.name == n)
    ensures Launches(mv.effect) ==> (mv.effect.name == n && pc.Checking?) || mv.effect.name !in cfg.procs
  {
  }

  lemma RequestLaunched(cfg: Config, sh: Shared, locked: bool, q: Request, forked: bool, mv: RequestMove)
    requires MoveRequest(cfg, sh, locked, q, forked) == Some(mv)
    ensures PastFork(mv.pc) ==> PastFork(q.pc) || (mv.effect.ForkRun? && mv.effect.name == q.name)
    ensures PastTake(mv.pc) ==> PastTake(q.pc) || q.name in cfg.procs
    ensures Launches(mv.effect) ==> mv.effect.name == q.name && PastFork(q.pc)
  {
  }

  lemma StartLaunched(cfg: Config, sh: Shared, pc: StartPc, forked: bool, mv: StartMove)
    requires MoveStart(cfg, sh, pc, forked) == Some(mv)
    ensures forall n :: StartHolds(cfg, mv.pc, n) ==> StartHolds(cfg, pc, n) || (mv.effect.ForkRun? && mv.effect.name == n)
    ensures Launches(mv.effect) ==> StartHolds(cfg, pc, mv.effect.name)
    ensures mv.spawn.Some? ==> !HoldsLaunched(mv.spawn.value)
  {
  }

  lemma LaunchedFirstKept(cfg: Config, s: State, t: State, e: Effect)
    requires LaunchedFirst(cfg, s) && t.shared == Apply(s.shared, e)
    requires forall n :: n in t.starter && HoldsLaunched(t.starter[n]) ==>
               (n in s.starter && HoldsLaunched(s.starter[n])) || (e.ForkRun? && e.name == n)
    requires forall n :: StartHolds(cfg, t.start, n) ==> StartHolds(cfg, s.start, n) || (e.ForkRun? && e.name == n)
    requires forall k :: 0 <= k < |t.requests| && PastFork(t.requests[k].pc) ==>
               (e.ForkRun? && e.name == t.requests[k].name)
               || (k < |s.requests| && s.requests[k].name == t.requests[k].name && PastFork(s.requests[k].pc))
    requires forall k :: 0 <= k < |t.requests| && PastTake(t.requests[k].pc) ==> t.requests[k].name in cfg.procs
    requires Launches(e) ==> e.name !in cfg.procs || Launched(s.shared, e.name)
    ensures LaunchedFirst(cfg, t)
  {
    forall n | Launched(s.shared, n) ensures Launched(t.shared, n) {
      LaunchedKept(s.shared, e, n);
    }
    if e.ForkRun? {
      ForkLaunches(s.shared, e.name, e.cause);
    }
    EffectClaims(s.shared, e);
    hide Apply, Launched, StartHolds;
  }

  lemma NextLaunchedFirst(cfg: Config, s: State, a: Action)
    requires LaunchedFirst(cfg, s) && Next(cfg, s, a).Some?
    ensures LaunchedFirst(cfg, Next(cfg, s, a).value)
  {
    hide MoveStart, MoveStarter, MoveWaiter, MoveRequest, Apply, Launched, StartHolds;
    var t := Next(cfg, s, a).value;
    match a
    case StartStep(forked) =>
      var mv := MoveStart(cfg, s.shared, s.start, forked).value;
      StartLaunched(cfg, s.shared, s.start, forked, mv);
      LaunchedFirstKept(cfg, s, t, mv.effect);
    case StarterStep(n, pick, forked) =>
      var mv := MoveStarter(cfg, s.shared, Locked(s), n, s.starter[n], pick, forked).value;
      StarterLaunched(cfg, s.shared, Locked(s), n, s.starter[n], pick, forked, mv);
      LaunchedFirstKept(cfg, s, t, mv.effect);
    case WaiterStep(n, pick, outcome) =>
      var mv := MoveWaiter(cfg, s.shared, Locked(s), n, s.waiter[n], pick, outcome).value;
      WaiterClaims(cfg, s.shared, Locked(s), n, s.waiter[n], pick, outcome, mv);
      LaunchedFirstKept(cfg, s, t, mv.effect);
    case RequestStep(k, forked) =>
      var mv := MoveRequest(cfg, s.shared, Locked(s), s.requests[k], forked).value;
      RequestLaunched(cfg, s.shared, Locked(s), s.requests[k], forked, mv);
      LaunchedFirstKept(cfg, s, t, mv.effect);
    case ProbeStep(n, v) => LaunchedFirstKept(cfg, s, t, ProbeEnds(n, v));
    case StopStep(k) => LaunchedFirstKept(cfg, s, t, if s.stops[k].ToCancel? then CancelAll else Sweep);
    case RunExits(r) => LaunchedFirstKept(cfg, s, t, StopRun(r));
    case _ => NothingHappens(s.shared); LaunchedFirstKept(cfg, s, t, Nothing);
  }

  lemma {:induction false} LaunchedFirstHolds(cfg: Config, acts: seq<Action>)
    requires Execute(cfg, InitialState(cfg), acts).Some?
    ensures LaunchedFirst(cfg, Execute(cfg, InitialState(cfg), acts).value)
  {
    hide Next;
    if acts != [] {
      LaunchedFirstHolds(cfg, acts[..|acts| - 1]);
      NextLaunchedFirst(cfg, Execute(cfg, InitialState(cfg), acts[..|acts| - 1]).value, acts[|acts| - 1]);
    }
  }

  // ---------------------------------------------------------------- where a decision comes from

  /** A step that decides `n` ready: its check passes, or it is a process without one, launched already. */
  ghost predicate MakesReady(cfg: Config, s: State, a: Action, n: string) {
    && (a == ProbeStep(n, Ready) || (n in cfg.procs && !cfg.procs[n].hasCheck))
    && (n in cfg.procs ==> Launched(s.shared, n))
  }

  /** A step that decides `n` failed: its check fails, or its fork has. */
  ghost predicate MakesFailed(s: State, a: Action, n: string, why: Reason) {
    a == ProbeStep(n, Failed(why)) || (a.StarterStep? && a.name == n && n in s.starter && s.starter[n] == ForkDecide(why))
  }

  ghost predicate Makes(cfg: Config, s: State, a: Action, n: string, v: Verdict) {
    match v
    case Ready => MakesReady(cfg, s, a, n)
    case Failed(why) => MakesFailed(s, a, n, why)
  }

  lemma StarterDecides(cfg: Config, sh: Shared, locked: bool, n: string, pc: Pc, pick: Pick, forked: bool, mv: Move)
    requires MoveStarter(cfg, sh, locked, n, pc, pick, forked) == Some(mv) && mv.effect.Decided?
    ensures mv.effect.name == n
    ensures if mv.effect.v.Ready? then pc.Checking? && !HasCheck(cfg, n) else pc == ForkDecide(mv.effect.v.why)
    ensures pc.Checking? ==> mv.effect.v.Ready?
  {
  }

  lemma RequestDecides(cfg: Config, sh: Shared, locked: bool, q: Request, forked: bool, mv: RequestMove)
    requires MoveRequest(cfg, sh, locked, q, forked) == Some(mv) && mv.effect.Decided?
    ensures mv.effect.name == q.name && q.pc.RestartCheck? && mv.effect.v.Ready? && !HasCheck(cfg, q.name)
  {
  }

  lemma StartDecides(cfg: Config, sh: Shared, pc: StartPc, forked: bool, mv: StartMove)
    requires MoveStart(cfg, sh, pc, forked) == Some(mv) && mv.effect.Decided?
    ensures StartHolds(cfg, pc, mv.effect.name) && mv.effect.v.Ready? && !HasCheck(cfg, mv.effect.name)
  {
  }

  lemma StarterMakes(cfg: Config, s: State, m: string, pick: Pick, forked: bool, n: string)
    requires LaunchedFirst(cfg, s) && s.starter.Keys == cfg.procs.Keys && StepStarter(cfg, s, m, pick, forked).Some?
    requires n !in s.shared.cells.decided && n in StepStarter(cfg, s, m, pick, forked).value.shared.cells.decided
    ensures Makes(cfg, s, StarterStep(m, pick, forked), n, StepStarter(cfg, s, m, pick, forked).value.shared.cells.decided[n])
  {
    var mv := MoveStarter(cfg, s.shared, Locked(s), m, s.starter[m], pick, forked).value;
    StarterHand(cfg, s.shared, Locked(s), m, s.starter[m], pick, forked, mv);
    EffectDecisions(s.shared, mv.effect, n);
    StarterDecides(cfg, s.shared, Locked(s), m, s.starter[m], pick, forked, mv);
    hide MoveStarter, Apply, Launched;
  }

  lemma RequestMakes(cfg: Config, s: State, k: nat, forked: bool, n: string)
    requires LaunchedFirst(cfg, s) && StepRequest(cfg, s, k, forked).Some?
    requires n !in s.shared.cells.decided && n in StepRequest(cfg, s, k, forked).value.shared.cells.decided
    ensures Makes(cfg, s, RequestStep(k, forked), n, StepRequest(cfg, s, k, forked).value.shared.cells.decided[n])
  {
    var mv := MoveRequest(cfg, s.shared, Locked(s), s.requests[k], forked).value;
    RequestHand(cfg, s.shared, Locked(s), s.requests[k], forked, mv);
    EffectDecisions(s.shared, mv.effect, n);
    RequestDecides(cfg, s.shared, Locked(s), s.requests[k], forked, mv);
    hide MoveRequest, Apply, Launched;
  }

  lemma StartMakes(cfg: Config, s: State, forked: bool, n: string)
    requires WellFormed(cfg) && LaunchedFirst(cfg, s) && StepStart(cfg, s, forked).Some?
    requires n !in s.shared.cells.decided && n in StepStart(cfg, s, forked).value.shared.cells.decided
    ensures Makes(cfg, s, StartStep(forked), n, StepStart(cfg, s, forked).value.shared.cells.decided[n])
  {
    var mv := MoveStart(cfg, s.shared, s.start, forked).value;
    StartEffects(cfg, s.shared, s.start, forked, mv);
    EffectDecisions(s.shared, mv.effect, n);
    StartDecides(cfg, s.shared, s.start, forked, mv);
    hide MoveStart, Apply, Launched;
  }

  /** The remaining steps decide nothing, but for a check that ends. */
  lemma OtherMakes(cfg: Config, s: State, a: Action, n: string)
    requires LaunchedFirst(cfg, s) && Next(cfg, s, a).Some?
    requires !a.StartStep? && !a.StarterStep? && !a.RequestStep?
    requires n !in s.shared.cells.decided && n in Next(cfg, s, a).value.shared.cells.decided
    ensures Makes(cfg, s, a, n, Next(cfg, s, a).value.shared.cells.decided[n])
  {
    if a.WaiterStep? {
      var pc := s.waiter[a.name];
      var mv := MoveWaiter(cfg, s.shared, Locked(s), a.name, pc, a.pick, a.outcome).value;
      WaiterHand(cfg, s.shared, Locked(s), a.name, pc, a.pick, a.outcome, mv);
      EffectDecisions(s.shared, mv.effect, n);
      assert false;
    }
  }

  lemma NextMakes(cfg: Config, s: State, a: Action, n: string)
    requires WellFormed(cfg) && LaunchedFirst(cfg, s) && s.starter.Keys == cfg.procs.Keys && Next(cfg, s, a).Some?
    requires n !in s.shared.cells.decided && n in Next(cfg, s, a).value.shared.cells.decided
    ensures Makes(cfg, s, a, n, Next(cfg, s, a).value.shared.cells.decided[n])
  {
    hide LaunchedFirst, StepStart, StepStarter, StepRequest, Makes;
    match a
    case StartStep(forked) => StartMakes(cfg, s, forked, n);
    case StarterStep(m, pick, forked) => StarterMakes(cfg, s, m, pick, forked, n);
    case RequestStep(k, forked) => RequestMakes(cfg, s, k, forked, n);
    case _ => OtherMakes(cfg, s, a, n);
  }

  // ---------------------------------------------------------------- ready means checked

  function After(cfg: Config, acts: seq<Action>): Option<State> {
    Execute(cfg, InitialState(cfg), acts)
  }

  /** The step that decided `n`. */
  lemma {:induction false} DecidedAt(cfg: Config, acts: seq<Action>, n: string) returns (i: nat)
    requires WellFormed(cfg) && After(cfg, acts).Some? && n in After(cfg, acts).value.shared.cells.decided
    ensures i < |acts| && After(cfg, acts[..i]).Some?
    ensures Makes(cfg, After(cfg, acts[..i]).value, acts[i], n, After(cfg, acts).value.shared.cells.decided[n])
  {
    hide Next, Makes, Invariant, LaunchedFirst;
    var last := |acts| - 1;
    var before := After(cfg, acts[..last]).value;
    NextDecides(cfg, before, acts[last]);
    if n in before.shared.cells.decided {
      i := DecidedAt(cfg, acts[..last], n);
      assert acts[..last][..i] == acts[..i];
    } else {
      i := last;
      LaunchedFirstHolds(cfg, acts[..last]);
      InvariantHolds(cfg, acts[..last]);
      assert before.starter.Keys == cfg.procs.Keys by { InvariantNames(cfg, before); }
      NextMakes(cfg, before, acts[last], n);
    }
  }

  lemma InvariantNames(cfg: Config, s: State)
    requires Invariant(cfg, s)
    ensures s.starter.Keys == cfg.procs.Keys
  {
  }

  /** At step `i` the check of `n` passes, and if `n` is a process it has been launched before. */
  ghost predicate PassesAt(cfg: Config, acts: seq<Action>, n: string, i: nat) {
    && i < |acts| && acts[i] == ProbeStep(n, Ready) && After(cfg, acts[..i]).Some?
    && (n in cfg.procs ==>
          exists k :: 0 <= k < |After(cfg, acts[..i]).value.shared.launches|
                      && After(cfg, acts[..i]).value.shared.launches[k].name == n)
  }

  /**
   In every run, a process with a healthcheck, or a service, is decided ready only by its check
   passing, and a process is launched before its check passes. A process without a healthcheck
   is ready only once launched.
   */
  lemma ReadyWasChecked(cfg: Config, acts: seq<Action>, n: string)
    requires WellFormed(cfg) && After(cfg, acts).Some? && IsReady(After(cfg, acts).value.shared, n)
    ensures n !in cfg.procs || cfg.procs[n].hasCheck ==> exists i: nat :: PassesAt(cfg, acts, n, i)
    ensures n in cfg.procs ==>
              exists i: nat :: i < |acts| && After(cfg, acts[..i]).Some? && Launched(After(cfg, acts[..i]).value.shared, n)
  {
    hide Execute;
    var i := DecidedAt(cfg, acts, n);
    if n !in cfg.procs || cfg.procs[n].hasCheck {
      assert PassesAt(cfg, acts, n, i);
    }
  }

  /** And what is decided failed had its check fail, for the same reason, or its own fork. */
  lemma FailedWasTried(cfg: Config, acts: seq<Action>, n: string)
    requires WellFormed(cfg) && After(cfg, acts).Some? && IsFailed(After(cfg, acts).value.shared, n)
    ensures var why := After(cfg, acts).value.shared.cells.decided[n].why;
            exists i :: && 0 <= i < |acts| && After(cfg, acts[..i]).Some?
                        && (acts[i] == ProbeStep(n, Failed(why))
                            || (n in cfg.procs && IsForkFailure(After(cfg, acts[..i]).value, n, why)))
  {
    hide Execute;
    var i := DecidedAt(cfg, acts, n);
    InvariantHolds(cfg, acts[..i]);
    InvariantNames(cfg, After(cfg, acts[..i]).value);
    hide Invariant;
    var why := After(cfg, acts).value.shared.cells.decided[n].why;
    assert acts[i] == ProbeStep(n, Failed(why)) || IsForkFailure(After(cfg, acts[..i]).value, n, why);
  }

  /** The gate of `n` has tried to fork and failed. */
  predicate IsForkFailure(s: State, n: string, why: Reason) {
    n in s.starter && s.starter[n] == ForkDecide(why)
  }

  /** The step of launch `k`: before it there were `k` launches. */
  lemma {:induction false} LaunchedAt(cfg: Config, acts: seq<Action>, k: nat) returns (j: nat)
    requires After(cfg, acts).Some? && k < |After(cfg, acts).value.shared.launches|
    ensures j < |acts| && After(cfg, acts[..j]).Some? && After(cfg, acts[..j + 1]).Some?
    ensures |After(cfg, acts[..j]).value.shared.launches| == k
    ensures After(cfg, acts[..j + 1]).value.shared.launches == After(cfg, acts).value.shared.launches[..k + 1]
    ensures After(cfg, acts[..j + 1]).value.shared.cells.decided == After(cfg, acts[..j]).value.shared.cells.decided
  {
    hide Next;
    var last := |acts| - 1;
    var before, after := After(cfg, acts[..last]).value, After(cfg, acts).value;
    NextLaunch(cfg, before, acts[last]);
    if k < |before.shared.launches| {
      j := LaunchedAt(cfg, acts[..last], k);
      assert acts[..last][..j] == acts[..j] && acts[..last][..j + 1] == acts[..j + 1];
      assert after.shared.launches[..k + 1] == before.shared.launches[..k + 1];
    } else {
      j := last;
      assert acts[..last + 1] == acts && after.shared.launches[..k + 1] == after.shared.launches;
    }
  }

  /** A step launches at most one process, and then decides nothing. */
  lemma NextLaunch(cfg: Config, s: State, a: Action)
    requires Next(cfg, s, a).Some?
    ensures var t := Next(cfg, s, a).value;
            || t.shared.launches == s.shared.launches
            || (t.shared.cells.decided == s.shared.cells.decided
                && exists l :: t.shared.launches == s.shared.launches + [l])
  {
    hide *;
    var e := NextApplies(cfg, s, a);
    EffectLaunch(s.shared, e);
  }

  lemma EffectLaunch(sh: Shared, e: Effect)
    ensures || Apply(sh, e).launches == sh.launches
            || (Apply(sh, e).cells.decided == sh.cells.decided && exists l :: Apply(sh, e).launches == sh.launches + [l])
  {
  }

  /**
   So a gate or a recurring loop launches a process only after the check of each of its
   dependencies that has one has passed, and after those dependencies were launched.
   */
  lemma LaunchAwaitsChecks(cfg: Config, acts: seq<Action>, k: nat, d: string) returns (j: nat)
    requires WellFormed(cfg) && After(cfg, acts).Some? && k < |After(cfg, acts).value.shared.launches|
    requires var l := After(cfg, acts).value.shared.launches[k]; l.cause in {ByGate, ByLoop} && d in Deps(cfg, l.name)
    requires d !in cfg.procs || cfg.procs[d].hasCheck
    ensures j < |acts| && After(cfg, acts[..j]).Some? && |After(cfg, acts[..j]).value.shared.launches| == k
    ensures exists i: nat :: i < j && PassesAt(cfg, acts, d, i)
  {
    hide Execute;
    j := LaunchedAt(cfg, acts, k);
    var u, t := After(cfg, acts[..j]).value, After(cfg, acts[..j + 1]).value;
    LaunchedReady(cfg, acts[..j + 1]);
    assert t.shared.launches[k] == After(cfg, acts).value.shared.launches[k];
    assert IsReady(t.shared, d) && IsReady(u.shared, d);
    ReadyWasChecked(cfg, acts[..j], d);
    var i: nat :| PassesAt(cfg, acts[..j], d, i);
    assert acts[..j][..i] == acts[..i];
    assert PassesAt(cfg, acts, d, i);
  }

  // ---------------------------------------------------------------- a check runs once

  /** How often the check of `n` has ended. */
  function Ends(acts: seq<Action>, n: string): nat {
    if acts == [] then 0
    else Ends(acts[..|acts| - 1], n) + (if acts[|acts| - 1].ProbeStep? && acts[|acts| - 1].name == n then 1 else 0)
  }

  function AtCheckCount(requests: seq<Request>, n: string): nat {
    if requests == [] then 0
    else AtCheckCount(requests[..|requests| - 1], n) + (if IsAtCheck(requests[|requests| - 1], n) then 1 else 0)
  }

  lemma {:induction false} CountChanges(requests: seq<Request>, k: nat, q: Request, n: string)
    requires k < |requests|
    ensures AtCheckCount(requests[k := q], n) + (if IsAtCheck(requests[k], n) then 1 else 0)
         == AtCheckCount(requests, n) + (if IsAtCheck(q, n) then 1 else 0)
  {
    var last := |requests| - 1;
    if k == last {
      assert requests[k := q][..last] == requests[..last];
    } else {
      assert requests[k := q][..last] == requests[..last][k := q];
      CountChanges(requests[..last], k, q, n);
    }
  }

  /** Goroutines about to launch the check of `n`, and the check itself if it is running. */
  function Checkers(cfg: Config, s: State, n: string): nat {
    (if s.start.StartCheck? && s.start.i < |cfg.order| && cfg.order[s.start.i] == n then 1 else 0)
    + (if n in s.starter && s.starter[n].Checking? then 1 else 0)
    + AtCheckCount(s.requests, n) + (if n in s.shared.probing then 1 else 0)
  }

  /** One more than before only if the check has just been claimed, for the first time. */
  ghost predicate KeepsCount(cfg: Config, s: State, t: State, a: Action, n: string) {
    && (n in s.shared.cells.checked ==> n in t.shared.cells.checked)
    && Checkers(cfg, t, n) + (if a.ProbeStep? && a.name == n then 1 else 0) <=
       Checkers(cfg, s, n) + (if n in t.shared.cells.checked && n !in s.shared.cells.checked then 1 else 0)
  }

  lemma StarterChecking(cfg: Config, sh: Shared, locked: bool, n: string, pc: Pc, pick: Pick, forked: bool, mv: Move)
    requires MoveStarter(cfg, sh, locked, n, pc, pick, forked) == Some(mv)
    ensures mv.pc.Checking? ==> mv.effect == Claim(n) && n !in sh.cells.checked && !pc.Checking?
    ensures Launches(mv.effect) ==>
              || (mv.effect == ClaimService(mv.effect.name) && mv.effect.name !in sh.cells.checked)
              || (mv.effect == Probe(n) && pc.Checking?)
  {
  }

  lemma RequestChecking(cfg: Config, sh: Shared, locked: bool, q: Request, forked: bool, mv: RequestMove)
    requires MoveRequest(cfg, sh, locked, q, forked) == Some(mv)
    ensures mv.pc.RestartCheck? ==> mv.effect == Claim(q.name) && q.name !in sh.cells.checked && !q.pc.RestartCheck?
    ensures Launches(mv.effect) ==> mv.effect == Probe(q.name) && q.pc.RestartCheck?
  {
  }

  lemma StartChecking(cfg: Config, sh: Shared, pc: StartPc, forked: bool, mv: StartMove)
    requires MoveStart(cfg, sh, pc, forked) == Some(mv)
    ensures mv.pc.StartCheck? ==>
              && mv.pc.i < |cfg.order| && mv.effect == Claim(cfg.order[mv.pc.i])
              && cfg.order[mv.pc.i] !in sh.cells.checked && !pc.StartCheck?
    ensures Launches(mv.effect) ==> pc.StartCheck? && pc.i < |cfg.order| && mv.effect == Probe(cfg.order[pc.i])
    ensures mv.spawn.Some? ==> !mv.spawn.value.Checking? && pc.NextProcess? && pc.i < |cfg.order|
  {
  }

  lemma EffectChecking(sh: Shared, e: Effect, n: string)
    ensures n in Apply(sh, e).cells.checked <==> n in sh.cells.checked || n in Claims(e)
    ensures n in Apply(sh, e).probing ==> (n in sh.probing && !(e.ProbeEnds? && e.name == n)) || (Launches(e) && e.name == n)
  {
  }

  lemma StarterCounts(cfg: Config, s: State, m: string, pick: Pick, forked: bool, n: string)
    requires StepStarter(cfg, s, m, pick, forked).Some?
    ensures KeepsCount(cfg, s, StepStarter(cfg, s, m, pick, forked).value, StarterStep(m, pick, forked), n)
  {
    var mv := MoveStarter(cfg, s.shared, Locked(s), m, s.starter[m], pick, forked).value;
    StarterChecking(cfg, s.shared, Locked(s), m, s.starter[m], pick, forked, mv);
    EffectChecking(s.shared, mv.effect, n);
    hide MoveStarter, Apply, AtCheckCount;
  }

  lemma RequestCounts(cfg: Config, s: State, k: nat, forked: bool, n: string)
    requires StepRequest(cfg, s, k, forked).Some?
    ensures KeepsCount(cfg, s, StepRequest(cfg, s, k, forked).value, RequestStep(k, forked), n)
  {
    var mv := MoveRequest(cfg, s.shared, Locked(s), s.requests[k], forked).value;
    RequestChecking(cfg, s.shared, Locked(s), s.requests[k], forked, mv);
    CountChanges(s.requests, k, Request(s.requests[k].name, mv.pc), n);
    EffectChecking(s.shared, mv.effect, n);
    hide MoveRequest, Apply, AtCheckCount;
  }

  lemma StartCounts(cfg: Config, s: State, forked: bool, n: string)
    requires StepStart(cfg, s, forked).Some?
    ensures KeepsCount(cfg, s, StepStart(cfg, s, forked).value, StartStep(forked), n)
  {
    var mv := MoveStart(cfg, s.shared, s.start, forked).value;
    StartChecking(cfg, s.shared, s.start, forked, mv);
    EffectChecking(s.shared, mv.effect, n);
    hide MoveStart, Apply, AtCheckCount;
  }

  lemma OtherCounts(cfg: Config, s: State, a: Action, n: string)
    requires Next(cfg, s, a).Some? && !a.StartStep? && !a.StarterStep? && !a.RequestStep?
    ensures KeepsCount(cfg, s, Next(cfg, s, a).value, a, n)
  {
    hide MoveWaiter, AtCheckCount, StepStart, StepStarter, StepRequest, Waiters;
    match a
    case WaiterStep(m, pick, outcome) =>
      var mv := MoveWaiter(cfg, s.shared, Locked(s), m, s.waiter[m], pick, outcome).value;
      WaiterClaims(cfg, s.shared, Locked(s), m, s.waiter[m], pick, outcome, mv);
      WaiterEffects(cfg, s.shared, Locked(s), m, s.waiter[m], pick, outcome, mv);
      EffectChecking(s.shared, mv.effect, n);
      hide Apply;
    case AskRestart(m) => AskedCount(s.requests, m, n);
    case _ =>
  }

  lemma NextCounts(cfg: Config, s: State, a: Action, n: string)
    requires Next(cfg, s, a).Some?
    ensures KeepsCount(cfg, s, Next(cfg, s, a).value, a, n)
  {
    hide StepStart, StepStarter, StepRequest, KeepsCount;
    match a
    case StartStep(forked) => StartCounts(cfg, s, forked, n);
    case StarterStep(m, pick, forked) => StarterCounts(cfg, s, m, pick, forked, n);
    case RequestStep(k, forked) => RequestCounts(cfg, s, k, forked, n);
    case _ => OtherCounts(cfg, s, a, n);
  }

  lemma AskedCount(requests: seq<Request>, m: string, n: string)
    ensures AtCheckCount(requests + [Request(m, Asked)], n) == AtCheckCount(requests, n)
  {
    assert (requests + [Request(m, Asked)])[..|requests|] == requests;
  }

  lemma {:induction false} ChecksCounted(cfg: Config, acts: seq<Action>, n: string)
    requires After(cfg, acts).Some?
    ensures var s := After(cfg, acts).value;
            Checkers(cfg, s, n) + Ends(acts, n) <= if n in s.shared.cells.checked then 1 else 0
  {
    hide Next, Checkers;
    if acts == [] {
      assert Checkers(cfg, InitialState(cfg), n) == 0 by { NoCheckers(cfg, n); }
    } else {
      var last := |acts| - 1;
      ChecksCounted(cfg, acts[..last], n);
      NextCounts(cfg, After(cfg, acts[..last]).value, acts[last], n);
    }
  }

  lemma NoCheckers(cfg: Config, n: string)
    ensures Checkers(cfg, InitialState(cfg), n) == 0
  {
  }

  lemma {:induction false} EndsCount(acts: seq<Action>, n: string, i: nat, j: nat)
    requires i < |acts| && acts[i].ProbeStep? && acts[i].name == n
    requires i < j < |acts| ==> acts[j].ProbeStep? && acts[j].name == n
    ensures Ends(acts, n) >= if i < j < |acts| then 2 else 1
  {
    var last := |acts| - 1;
    if i < last {
      EndsCount(acts[..last], n, i, j);
    }
  }

  /** However a run goes, and whatever is restarted, the check of a name ends at most once: its first verdict stands. */
  lemma ACheckEndsOnce(cfg: Config, acts: seq<Action>, i: nat, j: nat)
    requires After(cfg, acts).Some? && i < j < |acts| && acts[i].ProbeStep? && acts[j].ProbeStep?
    ensures acts[i].name != acts[j].name
  {
    if acts[i].name == acts[j].name {
      ChecksCounted(cfg, acts, acts[i].name);
      EndsCount(acts, acts[i].name, i, j);
    }
  }
}
