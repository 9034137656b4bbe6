/**
 A gate that can still launch its process, in the sense of module GateLaunch, does so in some
 continuation of the run: the schedule that brings its dependencies up, and then the gate.
 */
module StillLaunches {
  import opened Wrappers
  import opened Depends
  import opened Startup
  import opened Protocol
  import opened Progress
  import opened LaunchOrder
  import opened StartupEnds
  import opened GateLaunch

  // ---------------------------------------------------------------- steps that take nothing away

  /** No name that could become ready loses that, and none fails. */
  ghost predicate Gains(cfg: Config, s: State, t: State) {
    && t.shared.cancelled == s.shared.cancelled
    && (forall x :: x in s.shared.cells.decided ==>
                      x in t.shared.cells.decided && t.shared.cells.decided[x] == s.shared.cells.decided[x])
    && (forall x :: x in t.shared.cells.decided && x !in s.shared.cells.decided ==> t.shared.cells.decided[x].Ready?)
    && (forall x :: InHand(cfg, s, x) ==> InHand(cfg, t, x))
    && (forall x :: x in s.starter && GateOnly(cfg, x) && MayFork(s, s.starter[x]) ==>
                      x in t.starter && (MayFork(t, t.starter[x]) || InHand(cfg, t, x) || s.shared.cancelled))
  }

  lemma {:induction false} ReadyAfter(cfg: Config, s: State, t: State, asks: bool, d: string, depth: nat)
    requires Gains(cfg, s, t) && CanBeReady(cfg, s, asks, d, depth)
    ensures CanBeReady(cfg, t, asks, d, depth)
    decreases depth
  {
    hide InHand;
    if d !in t.shared.cells.decided && d in cfg.procs && !InHand(cfg, t, d) && !asks {
      forall e | e in Deps(cfg, d) ensures CanBeReady(cfg, t, asks, e, depth - 1) {
        ReadyAfter(cfg, s, t, asks, e, depth - 1);
      }
    }
  }

  /** What a step of one goroutine must keep for nothing to be lost. */
  lemma GainsBy(cfg: Config, s: State, t: State, e: Effect)
    requires t.shared == Apply(s.shared, e) && !e.CancelAll? && !e.FailStart?
    requires e.Decided? || e.ProbeEnds? ==> e.v.Ready?
    requires t.starter.Keys == s.starter.Keys && |t.requests| >= |s.requests|
    requires forall x :: x in s.starter && IsCheckerPc(s.starter[x]) ==>
      IsCheckerPc(t.starter[x]) || x in Claims(e) + s.shared.cells.checked
    requires forall x :: x in s.starter && s.starter[x].Adopting? && !s.shared.cancelled ==>
      t.starter[x].Adopting? || IsCheckerPc(t.starter[x])
    requires forall k, x :: 0 <= k < |s.requests| && IsChecker(s.requests[k], x) ==>
               IsChecker(t.requests[k], x) || x in Claims(e) + s.shared.cells.checked
    requires !s.shared.cancelled ==> forall k, x :: 0 <= k < |s.requests| && OnItsWay(s.requests[k], x) ==>
               OnItsWay(t.requests[k], x) || IsChecker(t.requests[k], x)
    requires forall x :: StartWill(cfg, s, x) ==> StartWill(cfg, t, x) || x in Claims(e) + s.shared.cells.checked
    requires forall x :: x in s.starter && GateOnly(cfg, x) && MayFork(s, s.starter[x]) ==>
               MayFork(t, t.starter[x]) || t.starter[x].Adopting?
    ensures Gains(cfg, s, t)
  {
    EffectDecides(s.shared, e);
    EffectDecidesWell(s.shared, e);
    EffectClaims(s.shared, e);
    assert t.shared.cells.checked == Claims(e) + s.shared.cells.checked;
    hide Apply, StartWill, IsReady, Claims;
    forall x | InHand(cfg, s, x) ensures InHand(cfg, t, x) {
      if k :| 0 <= k < |s.requests| && IsChecker(s.requests[k], x) {
        assert IsChecker(t.requests[k], x) || x in Claims(e) + s.shared.cells.checked;
      }
      if !s.shared.cancelled {
        if k :| 0 <= k < |s.requests| && OnItsWay(s.requests[k], x) {
          assert OnItsWay(t.requests[k], x) || IsChecker(t.requests[k], x);
        }
      }
      hide OnItsWay, IsChecker;
    }
  }

  lemma EffectDecidesWell(sh: Shared, e: Effect)
    requires !e.CancelAll? && !e.FailStart? && (e.Decided? || e.ProbeEnds? ==> e.v.Ready?)
    ensures forall x :: x in Apply(sh, e).cells.decided && x !in sh.cells.decided ==> Apply(sh, e).cells.decided[x].Ready?
    ensures Apply(sh, e).cancelled == sh.cancelled
  {
  }

  // ---------------------------------------------------------------- steps beside the starters of `w`

  /** `t` comes after `s` with the starters of `w` where they were, and nothing against the first of them. */
  ghost predicate Kept(cfg: Config, s: State, asks: bool, w: seq<string>, t: State) {
    && t.start == s.start && t.shared.cancelled == s.shared.cancelled
    && (forall x :: x in w ==> x in s.starter && x in t.starter && t.starter[x] == s.starter[x])
    && (w != [] ==>
          && (w[0] in t.shared.processes ==> w[0] in s.shared.processes)
          && (w[0] in s.shared.cells.blocked ==> w[0] in t.shared.cells.blocked)
          && forall k :: 0 <= k < |s.requests| && s.requests[k].name == w[0] ==>
            k < |t.requests| && t.requests[k] == s.requests[k])
    && |s.shared.launches| <= |t.shared.launches|
    && (forall d :: IsReady(s.shared, d) ==> IsReady(t.shared, d))
    && forall d, k: nat :: CanBeReady(cfg, s, asks, d, k) ==> CanBeReady(cfg, t, asks, d, k)
  }

  ghost predicate Leads(cfg: Config, s: State, asks: bool, w: seq<string>, t: State, acts: seq<Action>) {
    Execute(cfg, s, acts) == Some(t) && Allowed(asks, acts) && Kept(cfg, s, asks, w, t) && Good(cfg, t)
  }

  /** Some run leads from `s` to `t`, beside the starters of `w`. */
  ghost predicate Quiet(cfg: Config, s: State, asks: bool, w: seq<string>, t: State) {
    exists acts :: Leads(cfg, s, asks, w, t, acts)
  }

  lemma KeptTrans(cfg: Config, s: State, asks: bool, w: seq<string>, t: State, v: seq<string>, u: State)
    requires Kept(cfg, s, asks, w, t) && Kept(cfg, t, asks, v, u) && (forall x :: x in w ==> x in v)
    requires w != [] ==> v != [] && v[0] == w[0]
    ensures Kept(cfg, s, asks, w, u)
  {
    hide CanBeReady, IsReady;
    if w != [] {
      forall k | 0 <= k < |s.requests| && s.requests[k].name == w[0] ensures k < |u.requests| && u.requests[k] == s.requests[k] {
        assert t.requests[k] == s.requests[k];
      }
    }
  }

  lemma QuietTrans(cfg: Config, s: State, asks: bool, w: seq<string>, t: State, v: seq<string>, u: State)
    requires Quiet(cfg, s, asks, w, t) && Quiet(cfg, t, asks, v, u) && (forall x :: x in w ==> x in v)
    requires w != [] ==> v != [] && v[0] == w[0]
    ensures Quiet(cfg, s, asks, w, u)
  {
    var a :| Leads(cfg, s, asks, w, t, a);
    var b :| Leads(cfg, t, asks, v, u, b);
    hide Next, Execute, Good, Kept;
    KeptTrans(cfg, s, asks, w, t, v, u);
    ExecuteJoin(cfg, s, a, b);
    assert Leads(cfg, s, asks, w, u, a + b);
  }

  lemma QuietStep(cfg: Config, s: State, asks: bool, w: seq<string>, a: Action, t: State)
    requires WellFormed(cfg) && Good(cfg, s) && Next(cfg, s, a) == Some(t) && (a.AskRestart? ==> asks)
    requires Kept(cfg, s, asks, w, t)
    ensures Quiet(cfg, s, asks, w, t)
  {
    NextGood(cfg, s, a);
    assert [a][..0] == [] && Execute(cfg, s, [a]) == Some(t);
    hide Next, Execute, Good, Kept;
    assert Leads(cfg, s, asks, w, t, [a]);
  }

  lemma QuietGood(cfg: Config, s: State, asks: bool, w: seq<string>, t: State)
    requires Quiet(cfg, s, asks, w, t)
    ensures Good(cfg, t) && Kept(cfg, s, asks, w, t)
  {
  }

  /** A step that loses nothing, takes no starter of `w`, and does nothing to the first of them. */
  lemma KeptBy(cfg: Config, s: State, asks: bool, w: seq<string>, t: State, e: Effect)
    requires Gains(cfg, s, t) && t.shared == Apply(s.shared, e) && t.start == s.start
    requires forall x :: x in w ==> x in s.starter && x in t.starter && t.starter[x] == s.starter[x]
    requires w != [] ==>
               && w[0] !in Registers(e) && !(e.StartedNow? && e.name == w[0])
               && forall k :: 0 <= k < |s.requests| && s.requests[k].name == w[0] ==>
                 k < |t.requests| && t.requests[k] == s.requests[k]
    ensures Kept(cfg, s, asks, w, t)
  {
    forall d, k: nat | CanBeReady(cfg, s, asks, d, k) ensures CanBeReady(cfg, t, asks, d, k) {
      ReadyAfter(cfg, s, t, asks, d, k);
    }
    EffectClaims(s.shared, e);
    EffectLaunches(s.shared, e);
    if w != [] { EffectBlocked(s.shared, e, w[0]); }
    hide Apply, CanBeReady, InHand;
  }

  lemma EffectBlocked(sh: Shared, e: Effect, n: string)
    requires !(e.StartedNow? && e.name == n)
    ensures n in sh.cells.blocked ==> n in Apply(sh, e).cells.blocked
  {
  }

  // ---------------------------------------------------------------- one goroutine moves on

  /** Where the starter of `n` can go forward, towards its launch and its check. */
  predicate Forward(cfg: Config, sh: Shared, n: string, pc: Pc) {
    || pc.Await?
    || (pc.Select? && pc.i < |Deps(cfg, n)| && IsReady(sh, Deps(cfg, n)[pc.i]))
    || (pc.Lookup? && n !in sh.processes)
    || pc.ToFork? || (pc.Adopting? && !sh.cancelled) || pc.Settling? || (pc.Marking? && n !in sh.cells.checked) || pc.Checking?
  }

  /** And what it does then. */
  ghost predicate ForwardMove(cfg: Config, sh: Shared, n: string, pc: Pc, mv: Move) {
    && (mv.effect.Decided? ==> mv.effect.v.Ready? && pc.Checking?)
    && !mv.effect.ProbeEnds? && !mv.effect.CancelAll? && !mv.effect.FailStart? && !mv.effect.StartedNow?
    && Registers(mv.effect) <= {n}
    && (IsCheckerPc(pc) ==> IsCheckerPc(mv.pc) || n in Claims(mv.effect))
    && (pc.Adopting? ==> mv.pc.Settling?) && (pc.Settling? ==> mv.pc.Marking?)
    && (pc.Marking? ==> n in Claims(mv.effect)) && (pc.ToFork? ==> mv.pc.Adopting?)
    && (pc.Checking? ==> mv.effect == LaunchCheck(cfg, n))
    && (pc.Await? || pc.Select? ==> (mv.pc.Await? || mv.pc.Select? || mv.pc.Lookup?) && Registers(mv.effect) == {})
    && (pc.Lookup? ==> mv.pc.ToFork?)
  }

  lemma MovesForward(cfg: Config, sh: Shared, n: string, pc: Pc)
    requires GateOnly(cfg, n) && Forward(cfg, sh, n, pc)
    ensures var mv := MoveStarter(cfg, sh, false, n, pc, TheDependency, true);
            mv.Some? && ForwardMove(cfg, sh, n, pc, mv.value)
  {
  }

  /** The starter of `d` goes forward: nothing is lost, and nothing happens to `w`. */
  lemma StarterForward(cfg: Config, s: State, asks: bool, w: seq<string>, d: string) returns (t: State, mv: Move)
    requires WellFormed(cfg) && Good(cfg, s) && !Locked(s) && d !in w && GateOnly(cfg, d)
    requires forall x :: x in w ==> x in s.starter
    requires d in s.starter && Forward(cfg, s.shared, d, s.starter[d])
    ensures Quiet(cfg, s, asks, w, t) && Gains(cfg, s, t)
    ensures ForwardMove(cfg, s.shared, d, s.starter[d], mv) && t == AfterStarter(s, d, mv)
    ensures StarterWeight(cfg, d, mv.pc) < StarterWeight(cfg, d, s.starter[d])
    ensures Next(cfg, s, StarterStep(d, TheDependency, true)) == Some(t)
  {
    MovesForward(cfg, s.shared, d, s.starter[d]);
    mv := MoveStarter(cfg, s.shared, Locked(s), d, s.starter[d], TheDependency, true).value;
    t := AfterStarter(s, d, mv);
    StarterUses(cfg, s.shared, Locked(s), d, s.starter[d], TheDependency, true, mv);
    assert StarterWeight(cfg, d, mv.pc) < StarterWeight(cfg, d, s.starter[d]);
    hide MoveStarter, Good, StarterWeight, Uses;
    ForwardGains(cfg, s, d, mv);
    assert Next(cfg, s, StarterStep(d, TheDependency, true)) == Some(t);
    hide Apply, Forward, Gains;
    KeptBy(cfg, s, asks, w, t, mv.effect);
    hide ForwardMove, Kept;
    QuietStep(cfg, s, asks, w, StarterStep(d, TheDependency, true), t);
  }

  lemma ForwardGains(cfg: Config, s: State, d: string, mv: Move)
    requires d in s.starter && !Locked(s) && Forward(cfg, s.shared, d, s.starter[d])
    requires ForwardMove(cfg, s.shared, d, s.starter[d], mv)
    ensures Gains(cfg, s, AfterStarter(s, d, mv))
  {
    assert forall x :: !StartWill(cfg, s, x);
    hide Apply, StartWill;
    GainsBy(cfg, s, AfterStarter(s, d, mv), mv.effect);
  }

  /** A check that is running passes. */
  lemma ProbePasses(cfg: Config, s: State, asks: bool, w: seq<string>, d: string) returns (t: State)
    requires WellFormed(cfg) && Good(cfg, s) && d in s.shared.probing && d !in s.shared.cells.decided
    requires forall x :: x in w ==> x in s.starter
    ensures Quiet(cfg, s, asks, w, t) && IsReady(t.shared, d)
  {
    var a := ProbeStep(d, Ready);
    t := s.(shared := Apply(s.shared, ProbeEnds(d, Ready)));
    forall x | StartWill(cfg, s, x) ensures StartWill(cfg, t, x) {
      WillStays(cfg, t, s, x);
    }
    assert IsReady(t.shared, d) && Next(cfg, s, a) == Some(t);
    hide Apply, StartWill, Good, Next;
    GainsBy(cfg, s, t, ProbeEnds(d, Ready));
    KeptBy(cfg, s, asks, w, t, ProbeEnds(d, Ready));
    QuietStep(cfg, s, asks, w, a, t);
  }

  /** Where a Restart can go forward. */
  predicate GoesOn(cfg: Config, sh: Shared, q: Request) {
    || (q.pc.Asked? && !sh.cancelled) || (q.pc.Take? && q.name in cfg.procs) || q.pc.StopOld? || q.pc.RestartFork?
    || (q.pc.RestartAdopt? && !sh.cancelled) || q.pc.RestartStarted? || (q.pc.RestartMark? && q.name !in sh.cells.checked)
    || q.pc.RestartCheck?
  }

  ghost predicate RequestForward(cfg: Config, sh: Shared, q: Request, mv: RequestMove) {
    && (mv.effect.Decided? ==> mv.effect.v.Ready? && q.pc.RestartCheck?)
    && !mv.effect.ProbeEnds? && !mv.effect.CancelAll? && !mv.effect.FailStart? && Registers(mv.effect) <= {q.name}
    && (mv.effect.StartedNow? || mv.effect.Unregister? ==> mv.effect.name == q.name)
    && (OnItsWay(q, q.name) ==> OnItsWay(Request(q.name, mv.pc), q.name) || mv.pc.RestartStarted?)
    && (q.pc.RestartStarted? ==> mv.pc.RestartMark?)
    && (q.pc.RestartMark? ==> mv.effect == Claim(q.name) && mv.pc.RestartCheck?)
    && (q.pc.RestartCheck? ==> mv.effect == LaunchCheck(cfg, q.name))
    && (q.pc.Asked? ==> mv.pc.Take? && mv.effect == Nothing)
    && (q.pc.Take? ==> if q.name in sh.processes then mv.effect == Unregister(q.name) else mv.effect == Nothing)
  }

  lemma RequestMovesForward(cfg: Config, sh: Shared, q: Request)
    requires GoesOn(cfg, sh, q)
    ensures var mv := MoveRequest(cfg, sh, false, q, true); mv.Some? && RequestForward(cfg, sh, q, mv.value)
  {
  }

  lemma RequestGains(cfg: Config, s: State, k: nat, mv: RequestMove)
    requires k < |s.requests| && GoesOn(cfg, s.shared, s.requests[k]) && RequestForward(cfg, s.shared, s.requests[k], mv)
    ensures Gains(cfg, s, AfterRequest(s, k, mv))
  {
    var t := AfterRequest(s, k, mv);
    forall x | StartWill(cfg, s, x) ensures StartWill(cfg, t, x) {
      WillStays(cfg, t, s, x);
    }
    hide Apply, StartWill;
    GainsBy(cfg, s, t, mv.effect);
  }

  /** A Restart of `d` goes forward: nothing is lost, and nothing happens to `w`. */
  lemma RestartForward(cfg: Config, s: State, asks: bool, w: seq<string>, k: nat) returns (t: State, mv: RequestMove)
    requires WellFormed(cfg) && Good(cfg, s) && !Locked(s) && forall x :: x in w ==> x in s.starter
    requires k < |s.requests| && GoesOn(cfg, s.shared, s.requests[k]) && s.requests[k].name !in w
    ensures Quiet(cfg, s, asks, w, t) && Gains(cfg, s, t)
    ensures RequestForward(cfg, s.shared, s.requests[k], mv) && t == AfterRequest(s, k, mv)
    ensures RequestWeight(mv.pc) < RequestWeight(s.requests[k].pc)
  {
    RequestMovesForward(cfg, s.shared, s.requests[k]);
    mv := MoveRequest(cfg, s.shared, Locked(s), s.requests[k], true).value;
    t := AfterRequest(s, k, mv);
    RequestUses(cfg, s.shared, Locked(s), s.requests[k], true, mv);
    hide MoveRequest, Good, RequestWeight;
    RequestGains(cfg, s, k, mv);
    assert Next(cfg, s, RequestStep(k, true)) == Some(t);
    hide Apply, GoesOn, Gains;
    KeptBy(cfg, s, asks, w, t, mv.effect);
    hide RequestForward, Kept;
    QuietStep(cfg, s, asks, w, RequestStep(k, true), t);
  }

  /** A Restart is asked for. */
  lemma RestartAsked(cfg: Config, s: State, w: seq<string>, d: string) returns (t: State)
    requires WellFormed(cfg) && Good(cfg, s) && d !in w && forall x :: x in w ==> x in s.starter
    ensures Quiet(cfg, s, true, w, t) && t == s.(requests := s.requests + [Request(d, Asked)])
  {
    t := s.(requests := s.requests + [Request(d, Asked)]);
    forall x | StartWill(cfg, s, x) ensures StartWill(cfg, t, x) {
      WillStays(cfg, t, s, x);
    }
    NothingHappens(s.shared);
    assert Next(cfg, s, AskRestart(d)) == Some(t);
    hide Apply, StartWill, Good, Next;
    GainsBy(cfg, s, t, Nothing);
    KeptBy(cfg, s, true, w, t, Nothing);
    QuietStep(cfg, s, true, w, AskRestart(d), t);
  }

  // ---------------------------------------------------------------- a dependency becomes ready

  /** The state a schedule starts from: Start is over, and the starters of `w` exist. */
  ghost predicate Settled(cfg: Config, s: State, w: seq<string>) {
    WellFormed(cfg) && Good(cfg, s) && !Locked(s) && forall x :: x in w ==> x in s.starter
  }

  lemma StaysSettled(cfg: Config, s: State, asks: bool, w: seq<string>, t: State)
    requires Settled(cfg, s, w) && Quiet(cfg, s, asks, w, t)
    ensures Settled(cfg, t, w)
  {
    QuietGood(cfg, s, asks, w, t);
    hide Good, CanBeReady;
  }

  /** A check launched becomes ready: it is running, or there is none and `d` is ready at once. */
  lemma LaunchedLeads(cfg: Config, s: State, asks: bool, w: seq<string>, d: string, t: State) returns (u: State)
    requires Settled(cfg, s, w) && Quiet(cfg, s, asks, w, t) && t.shared == Apply(s.shared, LaunchCheck(cfg, d))
    requires d !in s.shared.cells.decided
    ensures Quiet(cfg, s, asks, w, u) && IsReady(u.shared, d)
  {
    StaysSettled(cfg, s, asks, w, t);
    if HasCheck(cfg, d) {
      hide Quiet;
      u := ProbePasses(cfg, t, asks, w, d);
      QuietTrans(cfg, s, asks, w, t, w, u);
    } else {
      u := t;
    }
  }

  lemma CheckedLeads(cfg: Config, s: State, asks: bool, w: seq<string>, d: string) returns (t: State)
    requires Settled(cfg, s, w) && d !in w && d in s.shared.cells.checked && d !in s.shared.cells.decided
    ensures Quiet(cfg, s, asks, w, t) && IsReady(t.shared, d)
  {
    GoodIsCore(cfg, s);
    hide Quiet, Good;
    if d in s.shared.probing {
      t := ProbePasses(cfg, s, asks, w, d);
    } else if d in s.starter && s.starter[d].Checking? {
      assert NameOk(cfg, s, d);
      var next, mv := StarterForward(cfg, s, asks, w, d);
      hide Settled, Apply, Core, Invariant, Gains;
      t := LaunchedLeads(cfg, s, asks, w, d, next);
    } else {
      var k :| 0 <= k < |s.requests| && IsAtCheck(s.requests[k], d);
      var next, mv := RestartForward(cfg, s, asks, w, k);
      hide Settled, Apply, Core, Invariant, Gains;
      t := LaunchedLeads(cfg, s, asks, w, d, next);
    }
  }

  /** A gate that has forked, and is not stopped, registers, settles, and has its process checked. */
  lemma {:induction false} ForkedLeads(cfg: Config, s: State, asks: bool, w: seq<string>, d: string) returns (t: State)
    requires Settled(cfg, s, w) && d !in w && GateOnly(cfg, d) && d !in s.shared.cells.decided && d in s.starter
    requires (s.starter[d].Adopting? && !s.shared.cancelled) || IsCheckerPc(s.starter[d])
    ensures Quiet(cfg, s, asks, w, t) && IsReady(t.shared, d)
    decreases StarterWeight(cfg, d, s.starter[d])
  {
    if d in s.shared.cells.checked {
      t := CheckedLeads(cfg, s, asks, w, d);
    } else {
      var next, mv := StarterForward(cfg, s, asks, w, d);
      StaysSettled(cfg, s, asks, w, next);
      EffectClaims(s.shared, mv.effect);
      if d in next.shared.cells.decided { EffectDecisions(s.shared, mv.effect, d); }
      assert next.shared.cancelled == s.shared.cancelled && next.starter[d] == mv.pc;
      hide Quiet, Settled, Gains, StarterWeight, Apply;
      if d in Claims(mv.effect) {
        t := CheckedLeads(cfg, next, asks, w, d);
      } else {
        t := ForkedLeads(cfg, next, asks, w, d);
      }
      hide ForwardMove;
      QuietTrans(cfg, s, asks, w, next, w, t);
    }
  }

  /** A Restart that can go forward has its process checked. */
  lemma {:induction false} RestartLeads(cfg: Config, s: State, asks: bool, w: seq<string>, d: string, k: nat)
    returns (t: State)
    requires Settled(cfg, s, w) && d !in w && d !in s.shared.cells.decided && d in cfg.procs
    requires k < |s.requests| && (IsChecker(s.requests[k], d) || (OnItsWay(s.requests[k], d) && !s.shared.cancelled))
    ensures Quiet(cfg, s, asks, w, t) && IsReady(t.shared, d)
    decreases RequestWeight(s.requests[k].pc)
  {
    if d in s.shared.cells.checked {
      t := CheckedLeads(cfg, s, asks, w, d);
    } else {
      var next, mv := RestartForward(cfg, s, asks, w, k);
      StaysSettled(cfg, s, asks, w, next);
      EffectClaims(s.shared, mv.effect);
      if d in next.shared.cells.decided { EffectDecisions(s.shared, mv.effect, d); }
      assert next.shared.cancelled == s.shared.cancelled && next.requests[k] == Request(d, mv.pc);
      hide Quiet, Settled, Gains, RequestWeight, Apply;
      if d in Claims(mv.effect) {
        t := CheckedLeads(cfg, next, asks, w, d);
      } else {
        t := RestartLeads(cfg, next, asks, w, d, k);
      }
      hide RequestForward;
      QuietTrans(cfg, s, asks, w, next, w, t);
    }
  }

  lemma InHandLeads(cfg: Config, s: State, asks: bool, w: seq<string>, d: string) returns (t: State)
    requires Settled(cfg, s, w) && d !in w && d !in s.shared.cells.decided && InHand(cfg, s, d)
    requires d in s.shared.cells.checked || (d in cfg.procs && !Recurring(cfg, d))
    ensures Quiet(cfg, s, asks, w, t) && IsReady(t.shared, d)
  {
    GoodIsCore(cfg, s);
    if d in s.shared.cells.checked {
      t := CheckedLeads(cfg, s, asks, w, d);
    } else if d in s.starter && (IsCheckerPc(s.starter[d]) || (s.starter[d].Adopting? && !s.shared.cancelled)) {
      assert NameOk(cfg, s, d);
      t := ForkedLeads(cfg, s, asks, w, d);
    } else if exists k :: 0 <= k < |s.requests| && IsChecker(s.requests[k], d) {
      var k :| 0 <= k < |s.requests| && IsChecker(s.requests[k], d);
      t := RestartLeads(cfg, s, asks, w, d, k);
    } else {
      var k :| 0 <= k < |s.requests| && OnItsWay(s.requests[k], d);
      t := RestartLeads(cfg, s, asks, w, d, k);
    }
  }

  /** A dependency of the last of a chain of waiting gates is not one of them. */
  lemma OffTheWalk(cfg: Config, w: seq<string>, d: string)
    requires Accepted(cfg) && IsWalk(cfg.procs, w) && w != [] && w[|w| - 1] in cfg.procs && d in Deps(cfg, w[|w| - 1])
    requires forall x :: x in w ==> x in cfg.procs
    ensures d !in w
    ensures d in cfg.procs ==> Edge(cfg.procs, w[|w| - 1], d) && IsWalk(cfg.procs, w + [d])
  {
    if d in cfg.procs {
      ExtendWalk(cfg.procs, w, d);
    }
    if i :| 0 <= i < |w| && w[i] == d {
      CloseWalk(cfg.procs, w, i);
    }
  }

  lemma CanStaysReady(cfg: Config, s: State, asks: bool, w: seq<string>, t: State, d: string, depth: nat)
    requires Kept(cfg, s, asks, w, t)
    ensures CanBeReady(cfg, s, asks, d, depth) ==> CanBeReady(cfg, t, asks, d, depth)
    ensures forall e :: e in Deps(cfg, d) && CanBeReady(cfg, s, asks, e, depth) ==> CanBeReady(cfg, t, asks, e, depth)
    ensures IsReady(s.shared, d) ==> IsReady(t.shared, d)
  {
  }

  /** What holds while the gate of `d` is brought to its fork. */
  ghost predicate Driven(cfg: Config, s: State, asks: bool, w: seq<string>, d: string, depth: nat) {
    && Settled(cfg, s, w) && Accepted(cfg) && GateOnly(cfg, d) && w != [] && IsWalk(cfg.procs, w + [d]) && d !in w
    && (forall x :: x in w + [d] ==> x in cfg.procs)
    && CanBeReady(cfg, s, asks, d, depth + 1)
    && (d !in s.shared.cells.decided && !InHand(cfg, s, d) ==> !s.shared.cancelled && GateCan(cfg, s, asks, d, depth))
  }

  lemma QuietRefl(cfg: Config, s: State, asks: bool, w: seq<string>)
    requires Settled(cfg, s, w)
    ensures Quiet(cfg, s, asks, w, s)
  {
    assert Execute(cfg, s, []) == Some(s);
    hide Good, CanBeReady;
    assert Leads(cfg, s, asks, w, s, []);
  }

  /** A gate still to fork, its dependency ready if it waits for one, goes forward. */
  lemma GateGoesForward(cfg: Config, s: State, asks: bool, d: string, depth: nat)
    requires Good(cfg, s) && !Locked(s) && GateCan(cfg, s, asks, d, depth) && !InHand(cfg, s, d)
    requires WellFormed(cfg)
    ensures s.starter[d].Select? ==> s.starter[d].i < |Deps(cfg, d)|
    ensures (s.starter[d].Select? ==> IsReady(s.shared, Deps(cfg, d)[s.starter[d].i])) ==>
      Forward(cfg, s.shared, d, s.starter[d])
    ensures s.starter[d].Select? ==>
              var e := Deps(cfg, d)[s.starter[d].i]; e in cfg.procs || e in s.shared.cells.checked
  {
    GoodIsCore(cfg, s);
    assert NameOk(cfg, s, d);
    assert DealtWith(cfg, s, d) || s.start.StartFailed?;
  }

  lemma DrivenOn(cfg: Config, s: State, asks: bool, w: seq<string>, d: string, depth: nat, t: State)
    requires Driven(cfg, s, asks, w, d, depth) && Quiet(cfg, s, asks, w, t)
    requires d !in s.shared.cells.decided && !InHand(cfg, s, d) && d in s.starter && d in t.starter
    requires t.starter[d] == s.starter[d] || MayFork(t, t.starter[d]) || InHand(cfg, t, d)
    ensures Driven(cfg, t, asks, w, d, depth)
  {
    hide Settled, Good, Quiet, InHand, Kept;
    StaysSettled(cfg, s, asks, w, t);
    QuietGood(cfg, s, asks, w, t);
    CanStaysReady(cfg, s, asks, w, t, d, depth + 1);
    CanStaysReady(cfg, s, asks, w, t, d, depth);
    KeptCancelled(cfg, s, asks, w, t);
  }

  lemma KeptCancelled(cfg: Config, s: State, asks: bool, w: seq<string>, t: State)
    requires Kept(cfg, s, asks, w, t)
    ensures t.shared.cancelled == s.shared.cancelled && t.start == s.start
    ensures forall x :: x in w ==> x in s.starter && x in t.starter && t.starter[x] == s.starter[x]
  {
    hide CanBeReady;
  }

  /** A dependency that can become ready does, beside the gates of `w` that wait for it. */
  lemma {:induction false} ReadyLeads(cfg: Config, s: State, asks: bool, w: seq<string>, d: string, depth: nat)
    returns (t: State)
    requires Settled(cfg, s, w) && Accepted(cfg) && w != [] && IsWalk(cfg.procs, w) && forall x :: x in w ==> x in cfg.procs
    requires d in Deps(cfg, w[|w| - 1]) && CanBeReady(cfg, s, asks, d, depth)
    requires d in cfg.procs || d in s.shared.cells.checked
    ensures Quiet(cfg, s, asks, w, t) && IsReady(t.shared, d)
    decreases depth, 0, 0
  {
    hide Settled, InHand, Quiet, IsWalk;
    OffTheWalk(cfg, w, d);
    assert d in cfg.procs[w[|w| - 1]].dependsOn;
    if d in s.shared.cells.decided {
      QuietRefl(cfg, s, asks, w);
      t := s;
    } else if InHand(cfg, s, d) {
      t := InHandLeads(cfg, s, asks, w, d);
    } else if d !in cfg.procs {
      CheckedIsInHand(cfg, s, d);
    } else if asks {
      t := AskedLeads(cfg, s, w, d);
    } else {
      t := GateLeads(cfg, s, asks, w, d, depth - 1);
    }
  }

  lemma CheckedIsInHand(cfg: Config, s: State, d: string)
    requires d in s.shared.cells.checked
    ensures InHand(cfg, s, d)
  {
  }

  lemma AskedLeads(cfg: Config, s: State, w: seq<string>, d: string) returns (t: State)
    requires Settled(cfg, s, w) && d !in w && d in cfg.procs && d !in s.shared.cells.decided && !s.shared.cancelled
    ensures Quiet(cfg, s, true, w, t) && IsReady(t.shared, d)
  {
    var next := RestartAsked(cfg, s, w, d);
    StaysSettled(cfg, s, true, w, next);
    hide Settled, Quiet;
    t := RestartLeads(cfg, next, true, w, d, |s.requests|);
    QuietTrans(cfg, s, true, w, next, w, t);
  }

  lemma {:induction false} GateLeads(cfg: Config, s: State, asks: bool, w: seq<string>, d: string, depth: nat)
    returns (t: State)
    requires Driven(cfg, s, asks, w, d, depth)
    ensures Quiet(cfg, s, asks, w, t) && IsReady(t.shared, d)
    decreases depth, 1, if d in s.starter then StarterWeight(cfg, d, s.starter[d]) else 0
  {
    hide Settled, InHand, Quiet, StarterWeight;
    QuietRefl(cfg, s, asks, w);
    if d in s.shared.cells.decided {
      return s;
    }
    if InHand(cfg, s, d) {
      t := DrivenInHand(cfg, s, asks, w, d, depth);
      return;
    }
    var u := GateWaits(cfg, s, asks, w, d, depth);
    if d in u.shared.cells.decided {
      t := u;
    } else if InHand(cfg, u, d) {
      t := DrivenInHand(cfg, u, asks, w, d, depth);
      QuietTrans(cfg, s, asks, w, u, w, t);
    } else {
      var next := GateSteps(cfg, u, asks, w, d, depth);
      t := GateLeads(cfg, next, asks, w, d, depth);
      QuietTrans(cfg, u, asks, w, next, w, t);
      QuietTrans(cfg, s, asks, w, u, w, t);
    }
  }

  lemma DrivenInHand(cfg: Config, s: State, asks: bool, w: seq<string>, d: string, depth: nat) returns (t: State)
    requires Driven(cfg, s, asks, w, d, depth) && d !in s.shared.cells.decided && InHand(cfg, s, d)
    ensures Quiet(cfg, s, asks, w, t) && IsReady(t.shared, d)
  {
    hide Settled, InHand, CanBeReady, GateCan, Quiet;
    t := InHandLeads(cfg, s, asks, w, d);
  }

  lemma IsDriven(cfg: Config, s: State, asks: bool, w: seq<string>, d: string, depth: nat)
    requires Driven(cfg, s, asks, w, d, depth) && d !in s.shared.cells.decided && !InHand(cfg, s, d)
    ensures Settled(cfg, s, w) && Settled(cfg, s, w + [d]) && Accepted(cfg) && w != [] && IsWalk(cfg.procs, w + [d])
    ensures (forall x :: x in w + [d] ==> x in cfg.procs) && GateCan(cfg, s, asks, d, depth)
    ensures WellFormed(cfg) && Good(cfg, s) && !Locked(s)
  {
    hide Good;
  }

  /** The gate of `d` waits until the dependency it is at is ready. */
  lemma {:induction false} GateWaits(cfg: Config, s: State, asks: bool, w: seq<string>, d: string, depth: nat)
    returns (u: State)
    requires Driven(cfg, s, asks, w, d, depth) && d !in s.shared.cells.decided && !InHand(cfg, s, d)
    ensures Quiet(cfg, s, asks, w, u) && Driven(cfg, u, asks, w, d, depth)
    ensures d in s.starter && d in u.starter && u.starter[d] == s.starter[d]
    ensures u.starter[d].Select? ==> u.starter[d].i < |Deps(cfg, d)| && IsReady(u.shared, Deps(cfg, d)[u.starter[d].i])
    decreases depth, 0, 1
  {
    IsDriven(cfg, s, asks, w, d, depth);
    GateGoesForward(cfg, s, asks, d, depth);
    hide Quiet, Good, InHand, IsWalk, Accepted, Driven;
    QuietRefl(cfg, s, asks, w);
    u := s;
    if s.starter[d].Select? && !IsReady(s.shared, Deps(cfg, d)[s.starter[d].i]) {
      var e := Deps(cfg, d)[s.starter[d].i];
      u := ReadyLeads(cfg, s, asks, w + [d], e, depth);
      QuietGood(cfg, s, asks, w + [d], u);
      KeptCancelled(cfg, s, asks, w + [d], u);
      assert d in w + [d];
      QuietTrans(cfg, s, asks, w, s, w + [d], u);
      DrivenOn(cfg, s, asks, w, d, depth, u);
    }
  }

  lemma GateSteps(cfg: Config, s: State, asks: bool, w: seq<string>, d: string, depth: nat) returns (t: State)
    requires Driven(cfg, s, asks, w, d, depth) && d !in s.shared.cells.decided && !InHand(cfg, s, d) && d in s.starter
    requires s.starter[d].Select? ==> s.starter[d].i < |Deps(cfg, d)| && IsReady(s.shared, Deps(cfg, d)[s.starter[d].i])
    ensures Quiet(cfg, s, asks, w, t) && Driven(cfg, t, asks, w, d, depth)
    ensures d in t.starter && StarterWeight(cfg, d, t.starter[d]) < StarterWeight(cfg, d, s.starter[d])
  {
    GateGoesForward(cfg, s, asks, d, depth);
    var next, mv := StarterForward(cfg, s, asks, w, d);
    t := next;
    hide Quiet, StarterWeight;
    assert MayFork(t, mv.pc) || InHand(cfg, t, d);
    DrivenOn(cfg, s, asks, w, d, depth, t);
  }

  // ---------------------------------------------------------------- the gate launches

  /** A run in which the gate of `n` launches its process, last; a process blocked at first is blocked still. */
  ghost predicate LaunchesLater(cfg: Config, s: State, asks: bool, n: string, acts: seq<Action>) {
    && Execute(cfg, s, acts).Some? && Allowed(asks, acts)
    && var t := Execute(cfg, s, acts).value;
       && |t.shared.launches| > |s.shared.launches| && t.shared.launches[|t.shared.launches| - 1] == Launch(n, ByGate)
       && (n in s.shared.cells.blocked ==> n in t.shared.cells.blocked)
  }

  /** Launching later from `t` is launching later from a state that leads to it. */
  lemma LaterFrom(cfg: Config, s: State, asks: bool, n: string, a: Action, t: State, acts: seq<Action>)
    requires Next(cfg, s, a) == Some(t) && (a.AskRestart? ==> asks) && LaunchesLater(cfg, t, asks, n, acts)
    requires |s.shared.launches| <= |t.shared.launches| && (n in s.shared.cells.blocked ==> n in t.shared.cells.blocked)
    ensures LaunchesLater(cfg, s, asks, n, [a] + acts)
  {
    hide Next;
    FirstStep(cfg, s, a, acts);
  }

  lemma LaterAfter(cfg: Config, s: State, asks: bool, n: string, t: State, acts: seq<Action>) returns (all: seq<Action>)
    requires Quiet(cfg, s, asks, [n], t) && LaunchesLater(cfg, t, asks, n, acts)
    ensures LaunchesLater(cfg, s, asks, n, all)
  {
    hide Next, Execute, Good, Kept, LaunchesLater, Allowed;
    var first :| Leads(cfg, s, asks, [n], t, first);
    all := first + acts;
    LaterJoins(cfg, s, asks, n, t, first, acts);
  }

  lemma LaterJoins(cfg: Config, s: State, asks: bool, n: string, t: State, first: seq<Action>, acts: seq<Action>)
    requires Execute(cfg, s, first) == Some(t) && Allowed(asks, first) && Kept(cfg, s, asks, [n], t)
    requires LaunchesLater(cfg, t, asks, n, acts)
    ensures LaunchesLater(cfg, s, asks, n, first + acts)
  {
    hide Next, CanBeReady, Taken, Execute, Kept, Allowed;
    ExecuteJoin(cfg, s, first, acts);
    KeptFirst(cfg, s, asks, n, t);
    AllowedJoin(asks, first, acts);
  }

  lemma AllowedJoin(asks: bool, a: seq<Action>, b: seq<Action>)
    requires Allowed(asks, a) && Allowed(asks, b)
    ensures Allowed(asks, a + b)
  {
  }

  lemma KeptFirst(cfg: Config, s: State, asks: bool, n: string, t: State)
    requires Kept(cfg, s, asks, [n], t)
    ensures |s.shared.launches| <= |t.shared.launches| && (n in s.shared.cells.blocked ==> n in t.shared.cells.blocked)
    ensures n in s.starter && n in t.starter && t.starter[n] == s.starter[n] && t.start == s.start
    ensures Taken(t, asks, n) ==> Taken(s, asks, n)
  {
    hide CanBeReady;
    if Taken(t, asks, n) {
      forall k | 0 <= k < |s.requests| ensures !Takes(s, s.requests[k], n) {
        if s.requests[k].name == n {
          assert t.requests[k] == s.requests[k];
        }
      }
    }
  }

  lemma ForkNow(cfg: Config, s: State, asks: bool, n: string) returns (acts: seq<Action>)
    requires n in s.starter && s.starter[n].ToFork?
    ensures LaunchesLater(cfg, s, asks, n, acts)
  {
    acts := [StarterStep(n, TheDependency, true)];
    assert acts[..0] == [] && Execute(cfg, s, []) == Some(s);
  }

  lemma LookupForks(cfg: Config, s: State, asks: bool, n: string) returns (acts: seq<Action>)
    requires n in s.starter && s.starter[n].Lookup? && n !in s.shared.processes && !Locked(s)
    ensures LaunchesLater(cfg, s, asks, n, acts)
  {
    var a := StarterStep(n, TheDependency, true);
    var t := Next(cfg, s, a).value;
    var rest := ForkNow(cfg, t, asks, n);
    hide LaunchesLater;
    LaterFrom(cfg, s, asks, n, a, t, rest);
    acts := [a] + rest;
  }

  /** A Restart takes the registered run out, and before it registers another the gate forks. */
  lemma {:induction false} TakeForks(cfg: Config, s: State, asks: bool, n: string, k: nat) returns (acts: seq<Action>)
    requires n in s.starter && s.starter[n].Lookup? && !Locked(s) && n in cfg.procs
    requires k < |s.requests| && Takes(s, s.requests[k], n)
    ensures LaunchesLater(cfg, s, asks, n, acts)
    decreases RequestWeight(s.requests[k].pc)
  {
    if n !in s.shared.processes {
      acts := LookupForks(cfg, s, asks, n);
    } else {
      var a := RequestStep(k, true);
      var t := Next(cfg, s, a).value;
      var rest: seq<Action>;
      hide LaunchesLater;
      if s.requests[k].pc.Take? {
        rest := LookupForks(cfg, t, asks, n);
      } else {
        rest := TakeForks(cfg, t, asks, n, k);
      }
      LaterFrom(cfg, s, asks, n, a, t, rest);
      acts := [a] + rest;
    }
  }

  lemma AskForks(cfg: Config, s: State, n: string) returns (acts: seq<Action>)
    requires n in s.starter && s.starter[n].Lookup? && !Locked(s) && n in cfg.procs && !s.shared.cancelled
    ensures LaunchesLater(cfg, s, true, n, acts)
  {
    var t := s.(requests := s.requests + [Request(n, Asked)]);
    var rest := TakeForks(cfg, t, true, n, |s.requests|);
    hide LaunchesLater;
    LaterFrom(cfg, s, true, n, AskRestart(n), t, rest);
    acts := [AskRestart(n)] + rest;
  }

  lemma FreeLookupForks(cfg: Config, s: State, asks: bool, n: string) returns (acts: seq<Action>)
    requires n in s.starter && s.starter[n].Lookup? && !Locked(s) && n in cfg.procs && !Taken(s, asks, n)
    ensures LaunchesLater(cfg, s, asks, n, acts)
  {
    hide LaunchesLater;
    if n !in s.shared.processes {
      acts := LookupForks(cfg, s, asks, n);
    } else if asks && !s.shared.cancelled {
      acts := AskForks(cfg, s, n);
    } else {
      var k :| 0 <= k < |s.requests| && Takes(s, s.requests[k], n);
      acts := TakeForks(cfg, s, asks, n, k);
    }
  }

  /** A step after which nothing is lost, and the gate has not moved past its fork, leaves it able to fork. */
  lemma ForkGained(cfg: Config, s: State, asks: bool, n: string, t: State)
    requires CanFork(cfg, s, asks, n) && Gains(cfg, s, t) && n in t.starter && MayFork(t, t.starter[n])
    requires t.starter[n].ToFork? || (!s.starter[n].ToFork? && !Taken(t, asks, n))
    ensures CanFork(cfg, t, asks, n)
  {
    hide Gains, CanBeReady, Taken;
    if !t.starter[n].ToFork? {
      var depth: nat :| GateCan(cfg, s, asks, n, depth);
      forall e | e in Deps(cfg, n) ensures CanBeReady(cfg, t, asks, e, depth) {
        ReadyAfter(cfg, s, t, asks, e, depth);
      }
      assert GateCan(cfg, t, asks, n, depth);
    }
  }

  /** What Start does when every fork succeeds. */
  ghost predicate StartGoesOn(cfg: Config, s: State, mv: StartMove) {
    && (mv.effect.Decided? ==> mv.effect.v.Ready?)
    && !mv.effect.ProbeEnds? && !mv.effect.CancelAll? && !mv.effect.FailStart? && !mv.effect.StartedNow?
      && !mv.pc.StartFailed?
    && (mv.spawn.Some? ==>
          && s.start.NextProcess? && s.start.i < |cfg.order|
          && cfg.order[s.start.i] in s.starter && s.starter[cfg.order[s.start.i]].Idle?
          && (GateOnly(cfg, cfg.order[s.start.i]) ==> mv.spawn.value == Await(0)))
  }

  lemma StartMoves(cfg: Config, s: State)
    requires WellFormed(cfg) && DealtOk(cfg, s) && UndealtOk(cfg, s) && Locked(s)
    ensures var mv := MoveStart(cfg, s.shared, s.start, true); mv.Some? && StartGoesOn(cfg, s, mv.value)
  {
  }

  /** Start passes over nobody: a process it was to check is checked, or still to come. */
  lemma WillCome(cfg: Config, s: State, mv: StartMove, d: string)
    requires WellFormed(cfg) && DealtOk(cfg, s) && MoveStart(cfg, s.shared, s.start, true) == Some(mv)
      && StartWill(cfg, s, d)
    ensures StartWill(cfg, AfterStart(cfg, s, mv), d) || d in Claims(mv.effect) + s.shared.cells.checked
  {
    hide Apply, DealtWith;
    var j :| Dealt(cfg, s.start) <= j < |cfg.order| && cfg.order[j] == d;
    var t := AfterStart(cfg, s, mv);
    if Dealt(cfg, mv.pc) <= j {
      assert cfg.order[j] == d;
    }
  }

  lemma StartGains(cfg: Config, s: State, mv: StartMove)
    requires WellFormed(cfg) && DealtOk(cfg, s) && UndealtOk(cfg, s) && Locked(s)
    requires MoveStart(cfg, s.shared, s.start, true) == Some(mv) && StartGoesOn(cfg, s, mv)
    ensures Gains(cfg, s, AfterStart(cfg, s, mv))
  {
    forall x | StartWill(cfg, s, x)
      ensures StartWill(cfg, AfterStart(cfg, s, mv), x) || x in Claims(mv.effect) + s.shared.cells.checked
    {
      WillCome(cfg, s, mv, x);
    }
    hide Apply, StartWill, MoveStart, DealtOk;
    GainsBy(cfg, s, AfterStart(cfg, s, mv), mv.effect);
  }

  /** Start goes on, with every fork succeeding: nothing is lost. */
  lemma StartForward(cfg: Config, s: State, asks: bool, n: string) returns (t: State)
    requires WellFormed(cfg) && Good(cfg, s) && Locked(s) && CanFork(cfg, s, asks, n) && GateOnly(cfg, n)
    ensures Next(cfg, s, StartStep(true)) == Some(t) && Good(cfg, t) && CanFork(cfg, t, asks, n)
    ensures StartWeight(cfg, t.start) < StartWeight(cfg, s.start)
    ensures |s.shared.launches| <= |t.shared.launches| && (n in s.shared.cells.blocked ==> n in t.shared.cells.blocked)
  {
    GoodIsCore(cfg, s);
    GoodParts(cfg, s);
    CoreParts(cfg, s);
    hide Good, Invariant, Core, StartersReady, LaunchesReady, NamesOk, CanFork, StartWeight, MoveStart;
    StartMoves(cfg, s);
    var mv := MoveStart(cfg, s.shared, s.start, true).value;
    t := AfterStart(cfg, s, mv);
    NextGood(cfg, s, StartStep(true));
    StartUses(cfg, s.shared, s.start, true, mv);
    StartClaims(cfg, s, true, mv);
    StartGains(cfg, s, mv);
    StartKeepsGate(cfg, s, asks, n, mv);
    EffectLaunches(s.shared, mv.effect);
    EffectBlocked(s.shared, mv.effect, n);
  }

  lemma StartKeepsGate(cfg: Config, s: State, asks: bool, n: string, mv: StartMove)
    requires ClaimedOk(cfg, s) && Locked(s) && CanFork(cfg, s, asks, n) && GateOnly(cfg, n) && StartGoesOn(cfg, s, mv)
    requires forall x :: x in Registers(mv.effect) ==> !GateOnly(cfg, x)
    requires Gains(cfg, s, AfterStart(cfg, s, mv))
    ensures CanFork(cfg, AfterStart(cfg, s, mv), asks, n)
  {
    EffectClaims(s.shared, mv.effect);
    hide Apply, Gains, GateCan;
    assert n !in s.shared.processes && n !in AfterStart(cfg, s, mv).shared.processes;
    ForkGained(cfg, s, asks, n, AfterStart(cfg, s, mv));
  }

  /** The gate of `n` itself goes forward while it waits. */
  lemma OwnForward(cfg: Config, s: State, asks: bool, n: string) returns (t: State)
    requires Settled(cfg, s, []) && CanFork(cfg, s, asks, n) && GateOnly(cfg, n)
    requires s.starter[n].Await? || s.starter[n].Select?
    requires Forward(cfg, s.shared, n, s.starter[n])
    ensures Next(cfg, s, StarterStep(n, TheDependency, true)) == Some(t) && Settled(cfg, t, []) && CanFork(cfg, t, asks, n)
    ensures t.start == s.start && StarterWeight(cfg, n, t.starter[n]) < StarterWeight(cfg, n, s.starter[n])
    ensures |s.shared.launches| <= |t.shared.launches| && (n in s.shared.cells.blocked ==> n in t.shared.cells.blocked)
  {
    IsSettled(cfg, s);
    hide Good, Quiet, Apply, StarterWeight, Gains, GateCan, Taken, Forward, Next;
    var next, mv := StarterForward(cfg, s, asks, [], n);
    t := next;
    StaysSettled(cfg, s, asks, [], t);
    EffectLaunches(s.shared, mv.effect);
    EffectBlocked(s.shared, mv.effect, n);
    EffectClaims(s.shared, mv.effect);
    TakenBy(s, asks, n, t);
    ForkGained(cfg, s, asks, n, t);
  }

  lemma TakenBy(s: State, asks: bool, n: string, t: State)
    requires !Taken(s, asks, n) && t.requests == s.requests && t.shared.cancelled == s.shared.cancelled
    requires n in t.shared.processes ==> n in s.shared.processes
    ensures !Taken(t, asks, n)
  {
  }

  lemma IsSettled(cfg: Config, s: State)
    requires Settled(cfg, s, [])
    ensures WellFormed(cfg) && Good(cfg, s) && !Locked(s)
  {
  }

  /** A waiting gate goes through one more dependency, which is brought up first unless it is ready. */
  lemma WaitForward(cfg: Config, s: State, asks: bool, n: string) returns (u: State)
    requires Settled(cfg, s, []) && Accepted(cfg) && CanFork(cfg, s, asks, n) && GateOnly(cfg, n)
    requires s.starter[n].Await? || s.starter[n].Select?
    ensures Settled(cfg, u, []) && Quiet(cfg, s, asks, [n], u) && CanFork(cfg, u, asks, n)
    ensures u.start == s.start && u.starter[n] == s.starter[n] && Forward(cfg, u.shared, n, u.starter[n])
  {
    GoodIsCore(cfg, s);
    assert NameOk(cfg, s, n) && Settled(cfg, s, [n]);
    hide Good, Core, Invariant, NamesOk, CheckerOk, Quiet;
    QuietRefl(cfg, s, asks, [n]);
    u := s;
    if s.starter[n].Select? && !IsReady(s.shared, Deps(cfg, n)[s.starter[n].i]) {
      var e := Deps(cfg, n)[s.starter[n].i];
      var depth: nat :| GateCan(cfg, s, asks, n, depth);
      assert e in Deps(cfg, n) && [n][|[n]| - 1] == n;
      u := ReadyLeads(cfg, s, asks, [n], e, depth);
      WaitKept(cfg, s, asks, n, depth, u);
      StaysSettled(cfg, s, asks, [n], u);
    }
  }

  lemma WaitKept(cfg: Config, s: State, asks: bool, n: string, depth: nat, u: State)
    requires CanFork(cfg, s, asks, n) && (s.starter[n].Await? || s.starter[n].Select?) && GateCan(cfg, s, asks, n, depth)
    requires Quiet(cfg, s, asks, [n], u)
    ensures CanFork(cfg, u, asks, n) && u.start == s.start && u.starter[n] == s.starter[n]
  {
    QuietGood(cfg, s, asks, [n], u);
    KeptFirst(cfg, s, asks, n, u);
    CanStaysReady(cfg, s, asks, [n], u, n, depth);
    hide Quiet, Good, CanBeReady, Taken, Kept;
    assert GateCan(cfg, u, asks, n, depth);
  }

  /** A gate that can launch its process does, in some continuation. */
  lemma {:induction false} ForkFollows(cfg: Config, s: State, asks: bool, n: string) returns (acts: seq<Action>)
    requires WellFormed(cfg) && Accepted(cfg) && Good(cfg, s) && GateOnly(cfg, n) && CanFork(cfg, s, asks, n)
    ensures LaunchesLater(cfg, s, asks, n, acts)
    decreases StartWeight(cfg, s.start), StarterWeight(cfg, n, s.starter[n])
  {
    hide Next, LaunchesLater, Good, StartWeight, StarterWeight, Quiet, Taken, GateCan, CanBeReady, Accepted, WellFormed, Forward;
    if Locked(s) {
      var t := StartForward(cfg, s, asks, n);
      var rest := ForkFollows(cfg, t, asks, n);
      LaterFrom(cfg, s, asks, n, StartStep(true), t, rest);
      acts := [StartStep(true)] + rest;
    } else if s.starter[n].ToFork? {
      acts := ForkNow(cfg, s, asks, n);
    } else if s.starter[n].Lookup? {
      acts := FreeLookupForks(cfg, s, asks, n);
    } else {
      NotIdle(cfg, s, n);
      var u := WaitForward(cfg, s, asks, n);
      var t := OwnForward(cfg, u, asks, n);
      var rest := ForkFollows(cfg, t, asks, n);
      LaterFrom(cfg, u, asks, n, StarterStep(n, TheDependency, true), t, rest);
      acts := LaterAfter(cfg, s, asks, n, u, [StarterStep(n, TheDependency, true)] + rest);
    }
  }

  /** Once Start is over, a gate it has made is not idle. */
  lemma NotIdle(cfg: Config, s: State, n: string)
    requires WellFormed(cfg) && Good(cfg, s) && !Locked(s) && GateOnly(cfg, n) && n in s.starter && MayFork(s, s.starter[n])
    ensures !s.starter[n].Idle?
  {
    assert DealtWith(cfg, s, n) || s.start.StartFailed?;
  }

  // ---------------------------------------------------------------- the theorem

  /**
   In every state of every run of a validated configuration, a gate launches its process in some
   continuation exactly when it can still fork; otherwise it does so in none, however the run goes
   on. `asks` is whether the continuations may ask for a Restart. When they may, and nothing has
   been stopped, the condition is that the gate is not past its fork and no dependency has failed.
   */
  lemma GateLaunchesIff(cfg: Config, s: State, asks: bool, n: string)
    requires WellFormed(cfg) && Accepted(cfg) && Reachable(cfg, s) && GateOnly(cfg, n)
    ensures (exists acts :: LaunchesLater(cfg, s, asks, n, acts)) <==> CanFork(cfg, s, asks, n)
    ensures asks && !s.shared.cancelled ==>
              (CanFork(cfg, s, asks, n) <==>
                 n in s.starter && MayFork(s, s.starter[n]) && forall d :: d in Deps(cfg, n) ==> !IsFailed(s.shared, d))
  {
    ReachableIsGood(cfg, s, n);
    hide Next, Good, LaunchesLater, Execute, CanFork, Reachable;
    if asks && !s.shared.cancelled {
      WhenAsking(cfg, s, n);
    }
    if CanFork(cfg, s, asks, n) {
      var acts := ForkFollows(cfg, s, asks, n);
    } else {
      forall acts ensures !LaunchesLater(cfg, s, asks, n, acts) {
        if LaunchesLater(cfg, s, asks, n, acts) {
          LaterIsLaunch(cfg, s, asks, n, acts);
          NeverLaunches(cfg, s, asks, n, acts);
        }
      }
    }
  }

  lemma ReachableIsGood(cfg: Config, s: State, n: string)
    requires WellFormed(cfg) && Reachable(cfg, s)
    ensures Good(cfg, s) && (n in cfg.procs ==> n in s.starter)
  {
    var before :| Execute(cfg, InitialState(cfg), before) == Some(s);
    GoodHolds(cfg, before);
    GoodIsCore(cfg, s);
  }

  lemma LaterIsLaunch(cfg: Config, s: State, asks: bool, n: string, acts: seq<Action>)
    requires LaunchesLater(cfg, s, asks, n, acts)
    ensures Execute(cfg, s, acts).Some? && Allowed(asks, acts)
    ensures var after := Execute(cfg, s, acts).value.shared.launches;
            exists k :: |s.shared.launches| <= k < |after| && after[k] == Launch(n, ByGate)
  {
  }

  lemma WhenAsking(cfg: Config, s: State, n: string)
    requires Good(cfg, s) && n in s.starter && GateOnly(cfg, n) && !s.shared.cancelled
    ensures CanFork(cfg, s, true, n) <==>
              MayFork(s, s.starter[n]) && forall d :: d in Deps(cfg, n) ==> !IsFailed(s.shared, d)
  {
    GoodIsCore(cfg, s);
    assert ReadyOk(cfg, s.shared, n, s.starter[n]);
    hide Good, Core, Invariant, InHand;
    if forall d :: d in Deps(cfg, n) ==> !IsFailed(s.shared, d) {
      if MayFork(s, s.starter[n]) {
        assert GateCan(cfg, s, true, n, 0);
      }
    } else {
      var d :| d in Deps(cfg, n) && IsFailed(s.shared, d);
      forall depth: nat ensures !GateCan(cfg, s, true, n, depth) {
        assert !CanBeReady(cfg, s, true, d, depth);
      }
    }
  }
}
