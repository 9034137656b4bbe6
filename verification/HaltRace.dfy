/**
 Halting and launching race. docs/configuration.md promises that once a dependency has
 failed nothing still waiting is started. A gate whose own dependencies are all ready does
 not look at the halt again: it launches a process that halt has blocked. When exactly a
 blocked process can still be launched is StillLaunches.GateLaunchesIff.
 */
module HaltRace {
  import opened Wrappers
  import opened Depends
  import opened Startup
  import opened Protocol
  import opened Progress
  import opened LaunchOrder
  import opened GateLaunch
  import opened StillLaunches

  // ---------------------------------------------------------------- a blocked process is launched

  const API := Process("api", ["cache"], false, false, false)
  const WEB := Process("web", ["db"], false, false, false)
  const CONFIG := Config(map["api" := API, "web" := WEB], ["api", "web"])
  const WHY: Reason := "db is not healthy"
  const VERDICTS := map["db" := Failed(WHY), "cache" := Ready]
  const WAITED := {"api", "web"}
  const SERVICES := {"db", "cache"}

  function Gates(sh: Shared, start: StartPc, api: Pc, web: Pc): State {
    State(sh, start, map["api" := api, "web" := web], map[], false, [], [])
  }

  /** Nothing forked; `checks` is what has been claimed. */
  function NotUp(c: Cells, halt: Option<Reason>, once: Once, probing: set<string>): Shared {
    Shared(c, halt, once, false, map[], [], probing, false, [], {})
  }

  lemma ApiRuns(sh: Shared, api: Pc, web: Pc, m: Move)
    requires Reachable(CONFIG, Gates(sh, Up, api, web))
    requires MoveStarter(CONFIG, sh, false, "api", api, TheDependency, true) == Some(m)
    ensures Reachable(CONFIG, Gates(Apply(sh, m.effect), Up, m.pc, web))
  {
    hide Reachable, MoveStarter, Apply;
    assert map["api" := api, "web" := web]["api" := m.pc] == map["api" := m.pc, "web" := web];
    StepReaches(CONFIG, Gates(sh, Up, api, web), StarterStep("api", TheDependency, true), Gates(Apply(sh, m.effect), Up, m.pc, web));
  }

  lemma WebRuns(sh: Shared, api: Pc, web: Pc, m: Move)
    requires Reachable(CONFIG, Gates(sh, Up, api, web))
    requires MoveStarter(CONFIG, sh, false, "web", web, TheDependency, true) == Some(m)
    ensures Reachable(CONFIG, Gates(Apply(sh, m.effect), Up, api, m.pc))
  {
    hide Reachable, MoveStarter, Apply;
    assert map["api" := api, "web" := web]["web" := m.pc] == map["api" := api, "web" := m.pc];
    StepReaches(CONFIG, Gates(sh, Up, api, web), StarterStep("web", TheDependency, true), Gates(Apply(sh, m.effect), Up, api, m.pc));
  }

  lemma GatesUp()
    ensures Reachable(CONFIG, Gates(NotUp(Cells(map[], {}, {}, WAITED, map[]), None, Free, {}), Up, Await(0), Await(0)))
  {
    var sh := NotUp(Cells(map[], {}, {}, WAITED, map[]), None, Free, {});
    assert InitialState(CONFIG) == Gates(sh, NextProcess(0), Idle, Idle) by {
      assert Initial(CONFIG.procs).pending == WAITED;
    }
    assert Execute(CONFIG, InitialState(CONFIG), []) == Some(InitialState(CONFIG));
    assert map["api" := Idle, "web" := Idle]["api" := Await(0)] == map["api" := Await(0), "web" := Idle];
    assert map["api" := Await(0), "web" := Idle]["web" := Await(0)] == map["api" := Await(0), "web" := Await(0)];
    hide Reachable, Initial, Execute;
    StepReaches(CONFIG, Gates(sh, NextProcess(0), Idle, Idle), StartStep(true), Gates(sh, NextProcess(1), Await(0), Idle));
    StepReaches(CONFIG, Gates(sh, NextProcess(1), Await(0), Idle), StartStep(true), Gates(sh, NextProcess(2), Await(0), Await(0)));
    StepReaches(CONFIG, Gates(sh, NextProcess(2), Await(0), Await(0)), StartStep(true), Gates(sh, Up, Await(0), Await(0)));
  }

  /** Both wait; db fails its check, then cache passes. */
  lemma Checked()
    ensures Reachable(CONFIG, Gates(NotUp(Cells(VERDICTS, SERVICES, {}, WAITED, map[]), None, Free, {}), Up, Select(0), Select(0)))
  {
    hide Reachable;
    GatesUp();
    var none: map<string, Verdict> := map[];
    var sh := NotUp(Cells(none, {}, {}, WAITED, map[]), None, Free, {});
    ApiRuns(sh, Await(0), Await(0), Move(Select(0), ClaimService("cache")));
    assert {} + {"cache"} == {"cache"} && {"cache"} + {"db"} == SERVICES;
    WebRuns(NotUp(Cells(none, {"cache"}, {}, WAITED, map[]), None, Free, {"cache"}), Select(0), Await(0),
            Move(Select(0), ClaimService("db")));
    var asked := NotUp(Cells(none, SERVICES, {}, WAITED, map[]), None, Free, SERVICES);
    var failed := NotUp(Cells(map["db" := Failed(WHY)], SERVICES, {}, WAITED, map[]), None, Free, {"cache"});
    assert SERVICES - {"db"} == {"cache"} && {"cache"} - {"cache"} == {};
    assert none["db" := Failed(WHY)] == map["db" := Failed(WHY)];
    assert map["db" := Failed(WHY)]["cache" := Ready] == VERDICTS;
    StepReaches(CONFIG, Gates(asked, Up, Select(0), Select(0)), ProbeStep("db", Failed(WHY)), Gates(failed, Up, Select(0), Select(0)));
    StepReaches(CONFIG, Gates(failed, Up, Select(0), Select(0)), ProbeStep("cache", Ready),
         Gates(NotUp(Cells(VERDICTS, SERVICES, {}, WAITED, map[]), None, Free, {}), Up, Select(0), Select(0)));
  }

  /** web halts startup and blocks api, whose own gate has only to read that cache is ready. */
  lemma ABlockedProcessCanBeLaunched() returns (s: State, acts: seq<Action>)
    ensures WellFormed(CONFIG) && Accepted(CONFIG) && Reachable(CONFIG, s) && s.shared.haltErr == Some(WHY)
    ensures "api" in s.shared.cells.blocked && LaunchesLater(CONFIG, s, false, "api", acts)
  {
    hide Reachable, LaunchesLater, Good, Accepted, CanFork;
    Checked();
    var sh := NotUp(Cells(VERDICTS, SERVICES, {}, WAITED, map[]), None, Free, {});
    WebRuns(sh, Select(0), Select(0), Move(Broken(WHY), Nothing));
    WebRuns(sh, Select(0), Broken(WHY), Move(ToHalt(WHY), Nothing));
    WebRuns(sh, Select(0), ToHalt(WHY), Move(Halting(WHY), TakeHalt("web", WHY)));
    var halted := sh.(haltErr := Some(WHY), once := Held("web"));
    BothWait();
    WebRuns(halted, Select(0), Halting(WHY), Move(Blocking(["api", "web"], WHY), Nothing));
    assert ["api", "web"][1..] == ["web"];
    WebRuns(halted, Select(0), Blocking(["api", "web"], WHY), Move(Blocking(["web"], WHY), Settled("api", WHY)));
    s := Gates(Apply(halted, Settled("api", WHY)), Up, Select(0), Blocking(["web"], WHY));
    ApiCanFork(s);
    NoProcessDependencies();
    ReachableIsGood(CONFIG, s, "api");
    acts := ForkFollows(CONFIG, s, false, "api");
  }

  lemma ApiCanFork(s: State)
    requires "api" in s.starter && s.starter["api"].Select? && s.shared.cells.decided == VERDICTS
      && s.shared.processes == map[]
    ensures GateOnly(CONFIG, "api") && CanFork(CONFIG, s, false, "api")
  {
    hide InHand;
    assert GateCan(CONFIG, s, false, "api", 0);
  }

  lemma NoProcessDependencies()
    ensures WellFormed(CONFIG) && Accepted(CONFIG)
  {
    TopologicalOrderIsAcyclic(CONFIG.procs, CONFIG.order);
  }

  lemma BothWait()
    ensures Waiting(CONFIG.order, WAITED) == ["api", "web"]
  {
  }
}
