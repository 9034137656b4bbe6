/**
 Nothing outlives Stop. Every run that is going is registered, in the hands of the
 goroutine that forked it, or was replaced in the process map while it was going (an
 orphan). After Stop's sweep nothing registered is going and nothing more registers, so
 once no goroutine holds a run, only an orphan can still be going. Without Restart there
 are no orphans (module NoOverlap).
 */
module Stopping {
  import opened Wrappers
  import opened Depends
  import opened Startup
  import opened Protocol
  import opened Progress

  // ---------------------------------------------------------------- who holds a run

  /** The run a starter has forked and not registered, or is about to stop. */
  predicate PcHolds(pc: Pc, r: nat) {
    pc == Adopting(r) || pc == Discarding(r) || pc == LoopAdopt(r) || pc == LoopDiscard(r)
  }

  predicate WaiterHoldsRun(pc: WaitPc, r: nat) {
    pc == Readopting(r) || pc == Rediscarding(r)
  }

  predicate RequestHoldsRun(pc: RequestPc, r: nat) {
    pc == StopOld(r) || pc == RestartAdopt(r) || pc == RestartDiscard(r)
  }

  ghost predicate HeldRun(s: State, r: nat) {
    || (s.start.StartAdopt? && s.start.r == r)
    || (exists n :: n in s.starter && PcHolds(s.starter[n], r))
    || (exists n :: n in s.waiter && WaiterHoldsRun(s.waiter[n], r))
    || (exists k :: 0 <= k < |s.requests| && RequestHoldsRun(s.requests[k].pc, r))
  }

  ghost predicate Registered(sh: Shared, r: nat) {
    exists n :: n in sh.processes && sh.processes[n] == r
  }

  ghost predicate Accounted(s: State) {
    forall r: nat :: IsLive(s.shared, r) ==> Registered(s.shared, r) || HeldRun(s, r) || r in s.shared.orphans
  }

  /** Registered and held runs exist. */
  ghost predicate RunsKnown(s: State) {
    && (forall n :: n in s.shared.processes ==> s.shared.processes[n] < |s.shared.runs|)
    && (forall r: nat :: HeldRun(s, r) ==> r < |s.shared.runs|)
  }

  /** After the sweep: cancelled, Start over, and nothing registered is going. */
  ghost predicate SweptOk(s: State) {
    && (forall k :: 0 <= k < |s.stops| && !s.stops[k].ToCancel? ==> s.shared.cancelled)
    && (s.shared.swept ==>
          && s.shared.cancelled && !Locked(s)
          && forall n :: n in s.shared.processes ==> !IsLive(s.shared, s.shared.processes[n]))
  }

  // ---------------------------------------------------------------- effects on runs

  lemma EffectRuns(sh: Shared, e: Effect)
    ensures |Apply(sh, e).runs| >= |sh.runs|
    ensures forall r: nat :: r < |sh.runs| && IsLive(Apply(sh, e), r) ==> IsLive(sh, r)
    ensures forall r: nat :: r >= |sh.runs| && IsLive(Apply(sh, e), r) ==> e.ForkRun? && r == |sh.runs|
    ensures e.ForkRun? ==> |Apply(sh, e).runs| == |sh.runs| + 1
    ensures e.StopRun? ==> !IsLive(Apply(sh, e), e.r)
  {
  }

  lemma EffectRegistered(sh: Shared, e: Effect)
    requires forall n :: n in sh.processes ==> sh.processes[n] < |sh.runs|
    ensures forall r: nat :: r < |sh.runs| && Registered(sh, r) && IsLive(Apply(sh, e), r) ==>
              || Registered(Apply(sh, e), r) || r in Apply(sh, e).orphans
              || (e.Unregister? && e.name in sh.processes && sh.processes[e.name] == r)
    ensures sh.orphans <= Apply(sh, e).orphans
    ensures e.RegisterRun? ==> Registered(Apply(sh, e), e.r)
    ensures forall n :: n in Apply(sh, e).processes ==>
              || (n in sh.processes && Apply(sh, e).processes[n] == sh.processes[n])
              || (e.RegisterRun? && n == e.name && Apply(sh, e).processes[n] == e.r)
              || (e.RegisterPlaceholder? && n == e.name && Apply(sh, e).processes[n] == |sh.runs|)
    ensures e.RegisterPlaceholder? ==> |Apply(sh, e).runs| == |sh.runs| + 1 && !IsLive(Apply(sh, e), |sh.runs|)
  {
    var th := Apply(sh, e);
    forall r: nat | r < |sh.runs| && Registered(sh, r) && IsLive(th, r)
      ensures Registered(th, r) || r in th.orphans || (e.Unregister? && e.name in sh.processes && sh.processes[e.name] == r)
    {
      var n :| n in sh.processes && sh.processes[n] == r;
      StillRegistered(sh, e, n);
    }
    if e.RegisterRun? {
      assert th.processes[e.name] == e.r;
    }
  }

  lemma StillRegistered(sh: Shared, e: Effect, n: string)
    requires n in sh.processes && sh.processes[n] < |sh.runs| && IsLive(Apply(sh, e), sh.processes[n])
    ensures || (n in Apply(sh, e).processes && Apply(sh, e).processes[n] == sh.processes[n])
            || sh.processes[n] in Apply(sh, e).orphans
            || (e.Unregister? && e.name == n)
  {
  }

  // ---------------------------------------------------------------- one step

  /** What a step must say of the runs in hand. */
  ghost predicate HandsOk(s: State, t: State, e: Effect) {
    && t.shared == Apply(s.shared, e)
    && (forall r: nat :: HeldRun(s, r) ==> HeldRun(t, r) || e == StopRun(r) || (e.RegisterRun? && e.r == r))
    && (forall r: nat :: HeldRun(t, r) ==>
          || HeldRun(s, r) || (e.ForkRun? && r == |s.shared.runs|)
          || (e.Unregister? && e.name in s.shared.processes && r == s.shared.processes[e.name]))
    && (e.ForkRun? ==> HeldRun(t, |s.shared.runs|))
    && (e.RegisterRun? ==> HeldRun(s, e.r))
    && (e.Unregister? && e.name in s.shared.processes ==> HeldRun(t, s.shared.processes[e.name]))
  }

  lemma AccountedKept(s: State, t: State, e: Effect)
    requires Accounted(s) && RunsKnown(s) && HandsOk(s, t, e)
    ensures Accounted(t)
  {
    EffectRuns(s.shared, e);
    EffectRegistered(s.shared, e);
    hide Apply, HeldRun, Registered;
  }

  lemma RunsKnownKept(s: State, t: State, e: Effect)
    requires RunsKnown(s) && HandsOk(s, t, e)
    ensures RunsKnown(t)
  {
    EffectRuns(s.shared, e);
    EffectRegistered(s.shared, e);
    hide Apply, HeldRun, Registered;
  }

  /** After the sweep nothing registers, so nothing registered is going. */
  lemma SweptKept(s: State, t: State, e: Effect)
    requires SweptOk(s) && RunsKnown(s) && t.shared == Apply(s.shared, e)
    requires s.shared.cancelled || !e.Sweep?
    requires e.Sweep? ==> !Locked(t)
    requires s.shared.swept ==> !e.RegisterRun? && !e.RegisterPlaceholder? && !Locked(t)
    requires forall k :: 0 <= k < |t.stops| && !t.stops[k].ToCancel? ==> t.shared.cancelled
    ensures SweptOk(t)
  {
  }

  // ---------------------------------------------------------------- each goroutine

  predicate Ordinary(e: Effect) { !e.Sweep? && !e.FailStart? && !e.RegisterPlaceholder? && !e.CancelAll? }

  /** A starter lets go of a run only by registering or stopping it, and takes one only by forking it. */
  ghost predicate Hands(sh: Shared, locked: bool, pc: Pc, mv: Move) {
    && Ordinary(mv.effect) && !mv.effect.Unregister?
    && (mv.effect.ForkRun? ==> PcHolds(mv.pc, |sh.runs|))
    && (mv.effect.RegisterRun? ==> PcHolds(pc, mv.effect.r) && !sh.cancelled && !locked)
    && (forall r: nat :: PcHolds(pc, r) ==>
          PcHolds(mv.pc, r) || mv.effect == StopRun(r) || (mv.effect.RegisterRun? && mv.effect.r == r))
    && (forall r: nat :: PcHolds(mv.pc, r) ==> PcHolds(pc, r) || (mv.effect.ForkRun? && r == |sh.runs|))
  }

  lemma GateHands(cfg: Config, sh: Shared, locked: bool, n: string, pc: Pc, forked: bool, mv: Move)
    requires MoveGate(cfg, sh, locked, n, pc, forked) == Some(mv)
    ensures Hands(sh, locked, pc, mv)
  {
  }

  lemma LoopHands(sh: Shared, locked: bool, n: string, pc: Pc, pick: Pick, forked: bool, mv: Move)
    requires MoveLoop(sh, locked, n, pc, pick, forked) == Some(mv)
    ensures Hands(sh, locked, pc, mv)
  {
  }

  lemma StarterHands(cfg: Config, sh: Shared, locked: bool, n: string, pc: Pc, pick: Pick, forked: bool, mv: Move)
    requires MoveStarter(cfg, sh, locked, n, pc, pick, forked) == Some(mv)
    ensures Hands(sh, locked, pc, mv)
  {
    hide MoveGate, MoveLoop;
    if InAwait(pc) || InHalt(pc) {
    } else if InLoop(pc) {
      LoopHands(sh, locked, n, pc, pick, forked, mv);
    } else {
      GateHands(cfg, sh, locked, n, pc, forked, mv);
    }
  }

  lemma WaiterHands(cfg: Config, sh: Shared, locked: bool, n: string, pc: WaitPc, pick: Pick, outcome: bool,
                    mv: WaitMove)
    requires MoveWaiter(cfg, sh, locked, n, pc, pick, outcome) == Some(mv)
    ensures Ordinary(mv.effect) && !mv.effect.Unregister?
    ensures mv.effect.ForkRun? ==> WaiterHoldsRun(mv.pc, |sh.runs|)
    ensures mv.effect.RegisterRun? ==> WaiterHoldsRun(pc, mv.effect.r) && !sh.cancelled && !locked
    ensures forall r: nat :: WaiterHoldsRun(pc, r) ==>
              WaiterHoldsRun(mv.pc, r) || mv.effect == StopRun(r) || (mv.effect.RegisterRun? && mv.effect.r == r)
    ensures forall r: nat :: WaiterHoldsRun(mv.pc, r) ==> WaiterHoldsRun(pc, r) || (mv.effect.ForkRun? && r == |sh.runs|)
  {
  }

  lemma RequestHands(cfg: Config, sh: Shared, locked: bool, q: Request, forked: bool, mv: RequestMove)
    requires MoveRequest(cfg, sh, locked, q, forked) == Some(mv)
    ensures Ordinary(mv.effect)
    ensures mv.effect.ForkRun? ==> RequestHoldsRun(mv.pc, |sh.runs|)
    ensures mv.effect.RegisterRun? ==> RequestHoldsRun(q.pc, mv.effect.r) && !sh.cancelled && !locked
    ensures mv.effect.Unregister? ==>
              mv.effect.name in sh.processes && RequestHoldsRun(mv.pc, sh.processes[mv.effect.name])
    ensures forall r: nat :: RequestHoldsRun(q.pc, r) ==>
              RequestHoldsRun(mv.pc, r) || mv.effect == StopRun(r) || (mv.effect.RegisterRun? && mv.effect.r == r)
    ensures forall r: nat :: RequestHoldsRun(mv.pc, r) ==>
              || RequestHoldsRun(q.pc, r) || (mv.effect.ForkRun? && r == |sh.runs|)
              || (mv.effect.Unregister? && r == sh.processes[mv.effect.name])
  {
  }

  lemma StarterHandsOk(cfg: Config, s: State, m: string, pick: Pick, forked: bool, mv: Move)
    requires m in s.starter && MoveStarter(cfg, s.shared, Locked(s), m, s.starter[m], pick, forked) == Some(mv)
    ensures HandsOk(s, AfterStarter(s, m, mv), mv.effect)
  {
    var t := AfterStarter(s, m, mv);
    StarterHands(cfg, s.shared, Locked(s), m, s.starter[m], pick, forked, mv);
    hide MoveStarter, Apply, PcHolds;
    assert t.starter[m] == mv.pc;
    forall r: nat | HeldRun(s, r)
      ensures HeldRun(t, r) || mv.effect == StopRun(r) || (mv.effect.RegisterRun? && mv.effect.r == r)
    {
      if n :| n in s.starter && PcHolds(s.starter[n], r) {
        assert n != m ==> PcHolds(t.starter[n], r);
      }
    }
    forall r: nat | HeldRun(t, r) ensures HeldRun(s, r) || (mv.effect.ForkRun? && r == |s.shared.runs|) {
      if n :| n in t.starter && PcHolds(t.starter[n], r) {
        assert n != m ==> PcHolds(s.starter[n], r);
      }
    }
  }

  lemma WaiterHandsOk(cfg: Config, s: State, m: string, pick: Pick, outcome: bool, mv: WaitMove)
    requires m in s.waiter && MoveWaiter(cfg, s.shared, Locked(s), m, s.waiter[m], pick, outcome) == Some(mv)
    ensures HandsOk(s, AfterWaiter(s, m, mv), mv.effect)
  {
    var t := AfterWaiter(s, m, mv);
    WaiterHands(cfg, s.shared, Locked(s), m, s.waiter[m], pick, outcome, mv);
    hide MoveWaiter, Apply, WaiterHoldsRun;
    assert t.waiter[m] == mv.pc;
    forall r: nat | HeldRun(s, r)
      ensures HeldRun(t, r) || mv.effect == StopRun(r) || (mv.effect.RegisterRun? && mv.effect.r == r)
    {
      if n :| n in s.waiter && WaiterHoldsRun(s.waiter[n], r) {
        assert n != m ==> WaiterHoldsRun(t.waiter[n], r);
      }
    }
    forall r: nat | HeldRun(t, r) ensures HeldRun(s, r) || (mv.effect.ForkRun? && r == |s.shared.runs|) {
      if n :| n in t.waiter && WaiterHoldsRun(t.waiter[n], r) {
        assert n != m ==> WaiterHoldsRun(s.waiter[n], r);
      }
    }
  }

  lemma RequestHandsOk(cfg: Config, s: State, k: nat, forked: bool, mv: RequestMove)
    requires k < |s.requests| && MoveRequest(cfg, s.shared, Locked(s), s.requests[k], forked) == Some(mv)
    ensures HandsOk(s, AfterRequest(s, k, mv), mv.effect)
  {
    var t := AfterRequest(s, k, mv);
    RequestHands(cfg, s.shared, Locked(s), s.requests[k], forked, mv);
    hide MoveRequest, Apply, RequestHoldsRun;
    assert t.requests[k].pc == mv.pc;
    forall r: nat | HeldRun(s, r)
      ensures HeldRun(t, r) || mv.effect == StopRun(r) || (mv.effect.RegisterRun? && mv.effect.r == r)
    {
      if j :| 0 <= j < |s.requests| && RequestHoldsRun(s.requests[j].pc, r) {
        assert j != k ==> RequestHoldsRun(t.requests[j].pc, r);
      }
    }
    forall r: nat | HeldRun(t, r)
      ensures || HeldRun(s, r) || (mv.effect.ForkRun? && r == |s.shared.runs|)
              || (mv.effect.Unregister? && r == s.shared.processes[mv.effect.name])
    {
      if j :| 0 <= j < |t.requests| && RequestHoldsRun(t.requests[j].pc, r) {
        assert j != k ==> RequestHoldsRun(s.requests[j].pc, r);
      }
    }
  }

  /** What Start's table says of the runs it holds. */
  lemma StartHands(cfg: Config, sh: Shared, pc: StartPc, forked: bool, mv: StartMove)
    requires MoveStart(cfg, sh, pc, forked) == Some(mv)
    ensures mv.effect.ForkRun? ==> pc.NextProcess? && mv.pc == StartAdopt(pc.i, |sh.runs|)
    ensures mv.effect.RegisterRun? ==> pc.StartAdopt? && mv.effect.r == pc.r
    ensures pc.StartAdopt? ==> mv.effect.RegisterRun? && !mv.pc.StartAdopt?
    ensures mv.pc.StartAdopt? ==> mv.effect.ForkRun?
    ensures !mv.effect.Sweep? && !mv.effect.StopRun? && !mv.effect.Unregister? && !pc.Up? && !pc.StartFailed?
    ensures forall r: nat :: mv.spawn.Some? ==> !PcHolds(mv.spawn.value, r) && !PcHolds(Idle, r)
    ensures mv.spawn.Some? ==> pc.NextProcess?
    ensures sh.cancelled ==> Apply(sh, mv.effect).cancelled
  {
  }

  lemma StartHandsOk(cfg: Config, s: State, forked: bool, mv: StartMove)
    requires UndealtOk(cfg, s) && MoveStart(cfg, s.shared, s.start, forked) == Some(mv)
    ensures HandsOk(s, AfterStart(cfg, s, mv), mv.effect)
    ensures !mv.effect.Sweep? && Locked(s)
    ensures s.shared.cancelled ==> Apply(s.shared, mv.effect).cancelled
  {
    StartHands(cfg, s.shared, s.start, forked, mv);
    hide MoveStart, Apply, PcHolds, UndealtOk;
    StartStartersSame(cfg, s, mv);
  }

  lemma StartStartersSame(cfg: Config, s: State, mv: StartMove)
    requires UndealtOk(cfg, s)
    requires forall r: nat :: mv.spawn.Some? ==> !PcHolds(mv.spawn.value, r) && !PcHolds(Idle, r)
    requires s.start.NextProcess? || mv.spawn.None?
    ensures forall r: nat, n :: n in s.starter && PcHolds(s.starter[n], r) ==>
              n in AfterStart(cfg, s, mv).starter && PcHolds(AfterStart(cfg, s, mv).starter[n], r)
    ensures forall r: nat, n :: n in AfterStart(cfg, s, mv).starter && PcHolds(AfterStart(cfg, s, mv).starter[n], r) ==>
              n in s.starter && PcHolds(s.starter[n], r)
  {
    hide PcHolds, Apply;
  }

  // ---------------------------------------------------------------- every state of every run

  /** Nobody waits before Wait is called. */
  predicate WaitOk(s: State) { !s.waitCalled ==> s.waiter == map[] }

  ghost predicate StopsOk(s: State) {
    Accounted(s) && RunsKnown(s) && SweptOk(s) && WaitOk(s)
  }

  /** A step whose hands are in order keeps every run accounted for. */
  lemma StepStops(s: State, t: State, e: Effect)
    requires StopsOk(s) && HandsOk(s, t, e)
    requires s.shared.cancelled || !e.Sweep?
    requires e.Sweep? ==> !Locked(t)
    requires s.shared.swept ==> !e.RegisterRun? && !e.RegisterPlaceholder? && !Locked(t)
    requires forall k :: 0 <= k < |t.stops| && !t.stops[k].ToCancel? ==> t.shared.cancelled
    requires WaitOk(t)
    ensures StopsOk(t)
  {
    AccountedKept(s, t, e);
    RunsKnownKept(s, t, e);
    SweptKept(s, t, e);
  }

  lemma StillCancelled(sh: Shared, e: Effect)
    ensures sh.cancelled ==> Apply(sh, e).cancelled
  {
  }

  lemma NextStops(cfg: Config, s: State, a: Action)
    requires StopsOk(s) && UndealtOk(cfg, s) && Next(cfg, s, a).Some?
    ensures StopsOk(Next(cfg, s, a).value)
  {
    var t := Next(cfg, s, a).value;
    hide MoveStart, MoveStarter, MoveWaiter, MoveRequest, Apply, Accounted, RunsKnown, HeldRun, UndealtOk, PcHolds,
         WaiterHoldsRun, RequestHoldsRun;
    match a
    case StartStep(forked) =>
      var mv := MoveStart(cfg, s.shared, s.start, forked).value;
      StartHandsOk(cfg, s, forked, mv);
      hide HandsOk;
      StepStops(s, t, mv.effect);
    case StarterStep(n, pick, forked) =>
      var mv := MoveStarter(cfg, s.shared, Locked(s), n, s.starter[n], pick, forked).value;
      StarterHands(cfg, s.shared, Locked(s), n, s.starter[n], pick, forked, mv);
      StarterHandsOk(cfg, s, n, pick, forked, mv);
      StillCancelled(s.shared, mv.effect);
      hide HandsOk;
      StepStops(s, t, mv.effect);
    case WaiterStep(n, pick, outcome) =>
      var mv := MoveWaiter(cfg, s.shared, Locked(s), n, s.waiter[n], pick, outcome).value;
      WaiterHands(cfg, s.shared, Locked(s), n, s.waiter[n], pick, outcome, mv);
      WaiterHandsOk(cfg, s, n, pick, outcome, mv);
      StillCancelled(s.shared, mv.effect);
      hide HandsOk;
      StepStops(s, t, mv.effect);
    case RequestStep(k, forked) =>
      var mv := MoveRequest(cfg, s.shared, Locked(s), s.requests[k], forked).value;
      RequestHands(cfg, s.shared, Locked(s), s.requests[k], forked, mv);
      RequestHandsOk(cfg, s, k, forked, mv);
      StillCancelled(s.shared, mv.effect);
      hide HandsOk;
      StepStops(s, t, mv.effect);
    case _ =>
      OtherStops(cfg, s, a);
  }

  /** The remaining steps hold no run and register none. */
  lemma OtherStops(cfg: Config, s: State, a: Action)
    requires StopsOk(s) && Next(cfg, s, a).Some?
    requires !a.StartStep? && !a.StarterStep? && !a.WaiterStep? && !a.RequestStep?
    ensures StopsOk(Next(cfg, s, a).value)
  {
    var t := Next(cfg, s, a).value;
    var e :=
      match a
      case ProbeStep(n, v) => ProbeEnds(n, v)
      case StopStep(k) => if s.stops[k].ToCancel? then CancelAll else Sweep
      case RunExits(r) => StopRun(r)
      case _ => Nothing;
    assert t.shared == Apply(s.shared, e);
    assert e.CancelAll? ==> t.shared.cancelled;
    StillCancelled(s.shared, e);
    assert e.Sweep? ==> s.shared.cancelled && !Locked(t);
    hide Apply, Accounted, RunsKnown;
    forall r: nat ensures HeldRun(s, r) <==> HeldRun(t, r) {
      OtherHolds(cfg, s, a, r);
    }
    hide HeldRun;
    StepStops(s, t, e);
  }

  lemma OtherHolds(cfg: Config, s: State, a: Action, r: nat)
    requires Next(cfg, s, a).Some? && WaitOk(s)
    requires !a.StartStep? && !a.StarterStep? && !a.WaiterStep? && !a.RequestStep?
    ensures HeldRun(s, r) <==> HeldRun(Next(cfg, s, a).value, r)
  {
    var t := Next(cfg, s, a).value;
    assert t.start == s.start && t.starter == s.starter;
    assert forall n :: n in t.waiter && WaiterHoldsRun(t.waiter[n], r) <==> n in s.waiter && WaiterHoldsRun(s.waiter[n], r);
    assert a.AskRestart? || t.requests == s.requests;
    if k :| 0 <= k < |s.requests| && RequestHoldsRun(s.requests[k].pc, r) {
      assert t.requests[k] == s.requests[k];
    }
    hide Apply, Next;
  }

  lemma {:induction false} StopsHold(cfg: Config, acts: seq<Action>)
    requires WellFormed(cfg) && Execute(cfg, InitialState(cfg), acts).Some?
    ensures StopsOk(Execute(cfg, InitialState(cfg), acts).value)
  {
    if acts != [] {
      hide Next;
      StopsHold(cfg, acts[..|acts| - 1]);
      InvariantHolds(cfg, acts[..|acts| - 1]);
      NextStops(cfg, Execute(cfg, InitialState(cfg), acts[..|acts| - 1]).value, acts[|acts| - 1]);
    }
  }

  // ---------------------------------------------------------------- the theorem

  /** Every goroutine that forked a run has registered, stopped or discarded it. */
  ghost predicate NoneInFlight(s: State) {
    forall r: nat :: !HeldRun(s, r)
  }

  /** After Stop's sweep, a run still going is in flight or was replaced while going. */
  lemma OnlyOrphansOutliveStop(cfg: Config, s: State, r: nat)
    requires WellFormed(cfg) && Reachable(cfg, s) && s.shared.swept && IsLive(s.shared, r)
    ensures s.shared.cancelled
    ensures HeldRun(s, r) || r in s.shared.orphans
  {
    var acts :| Execute(cfg, InitialState(cfg), acts) == Some(s);
    StopsHold(cfg, acts);
    hide HeldRun;
  }

  /** Once nothing is in flight, every run has ended exactly if every orphan has. */
  lemma NothingOutlivesStop(cfg: Config, s: State)
    requires WellFormed(cfg) && Reachable(cfg, s) && s.shared.swept && NoneInFlight(s)
    ensures (forall r: nat :: !IsLive(s.shared, r)) <==> (forall r :: r in s.shared.orphans ==> !IsLive(s.shared, r))
  {
    forall r: nat | IsLive(s.shared, r) ensures r in s.shared.orphans {
      OnlyOrphansOutliveStop(cfg, s, r);
    }
  }
}
