/**
 Overlapping starters lose a run. One Restart of a restart_on_crash process is enough: it
 stops the run, the waiter of Wait takes that for a crash and forks another, and the run
 that registers first is replaced while going. Stop never reaches it.
 */
module RestartRace {
  import opened Wrappers
  import opened Depends
  import opened Startup
  import opened Protocol
  import opened Stopping

  const WEB := Process("web", [], false, false, true)
  const CONFIG := Config(map["web" := WEB], ["web"])
  const CELLS := Cells(map["web" := Ready], {"web"}, {}, {}, map[])
  const FIRST := Launch("web", AtStart)
  const CRASH := Launch("web", AfterCrash)
  const AGAIN := Launch("web", ByRestart)

  function Going(cells: Cells, processes: map<string, nat>, runs: seq<Run>, launches: seq<Launch>,
                 orphans: set<nat>): Shared {
    Shared(cells, None, Free, false, processes, runs, {}, false, launches, orphans)
  }

  function Threads(sh: Shared, start: StartPc, waiter: map<string, WaitPc>, requests: seq<Request>): State {
    State(sh, start, map["web" := Idle], waiter, waiter != map[], requests, [])
  }

  lemma StartRuns(sh: Shared, start: StartPc, m: StartMove)
    requires Reachable(CONFIG, Threads(sh, start, map[], []))
    requires MoveStart(CONFIG, sh, start, true) == Some(m) && m.spawn.None?
    ensures Reachable(CONFIG, Threads(Apply(sh, m.effect), m.pc, map[], []))
  {
    hide Reachable, MoveStart, Apply;
    StepReaches(CONFIG, Threads(sh, start, map[], []), StartStep(true), Threads(Apply(sh, m.effect), m.pc, map[], []));
  }

  lemma WaiterRuns(sh: Shared, pc: WaitPc, requests: seq<Request>, m: WaitMove)
    requires Reachable(CONFIG, Threads(sh, Up, map["web" := pc], requests))
    requires MoveWaiter(CONFIG, sh, false, "web", pc, TheDependency, true) == Some(m)
    ensures Reachable(CONFIG, Threads(Apply(sh, m.effect), Up, map["web" := m.pc], requests))
  {
    hide Reachable, MoveWaiter, Apply;
    assert map["web" := pc]["web" := m.pc] == map["web" := m.pc];
    StepReaches(CONFIG, Threads(sh, Up, map["web" := pc], requests), WaiterStep("web", TheDependency, true),
         Threads(Apply(sh, m.effect), Up, map["web" := m.pc], requests));
  }

  lemma RestartRuns(sh: Shared, pc: RequestPc, waiter: map<string, WaitPc>, m: RequestMove)
    requires Reachable(CONFIG, Threads(sh, Up, waiter, [Request("web", pc)]))
    requires MoveRequest(CONFIG, sh, false, Request("web", pc), true) == Some(m)
    ensures Reachable(CONFIG, Threads(Apply(sh, m.effect), Up, waiter, [Request("web", m.pc)]))
  {
    hide Reachable, MoveRequest, Apply;
    assert [Request("web", pc)][0 := Request("web", m.pc)] == [Request("web", m.pc)];
    StepReaches(CONFIG, Threads(sh, Up, waiter, [Request("web", pc)]), RequestStep(0, true),
         Threads(Apply(sh, m.effect), Up, waiter, [Request("web", m.pc)]));
  }

  const NEW := Cells(map[], {}, {}, {}, map[])

  lemma Begins()
    ensures Reachable(CONFIG, Threads(Going(NEW, map[], [], [], {}), NextProcess(0), map[], []))
  {
    assert Execute(CONFIG, InitialState(CONFIG), []) == Some(InitialState(CONFIG));
    assert Initial(CONFIG.procs) == NEW;
    assert InitialState(CONFIG) == Threads(Going(NEW, map[], [], [], {}), NextProcess(0), map[], []);
  }

  /** Start forks it, registers it, finds no healthcheck to make, and returns. */
  lemma Started()
    ensures Reachable(CONFIG, Threads(Going(CELLS, map["web" := 0], [Live], [FIRST], {}), Up, map[], []))
  {
    hide Threads, Reachable;
    Begins();
    StartRuns(Going(NEW, map[], [], [], {}), NextProcess(0), StartMove(StartAdopt(0, 0), ForkRun("web", AtStart), None));
    assert [] + [Live] == [Live] && [] + [FIRST] == [FIRST];
    var forked := Going(NEW, map[], [Live], [FIRST], {});
    StartRuns(forked, StartAdopt(0, 0), StartMove(StartMark(0), RegisterRun("web", 0), None));
    var adopted := Going(NEW, map["web" := 0], [Live], [FIRST], {});
    assert map[]["web" := 0] == map["web" := 0];
    StartRuns(adopted, StartMark(0), StartMove(StartCheck(0), Claim("web"), None));
    var none: map<string, Verdict> := map[];
    assert none["web" := Ready] == map["web" := Ready];
    var claimed := Going(NEW.(checked := {"web"}), map["web" := 0], [Live], [FIRST], {});
    assert {} + {"web"} == {"web"};
    StartRuns(claimed, StartCheck(0), StartMove(NextProcess(1), Decided("web", Ready), None));
    StartRuns(Going(CELLS, map["web" := 0], [Live], [FIRST], {}), NextProcess(1), StartMove(Up, Nothing, None));
  }

  const R0 := map["web" := 0 as nat]
  const NONE: map<string, nat> := map[]

  /** Wait watches run 0; a Restart takes it out of the map and stops it. */
  lemma RestartStopsFirst()
    ensures Reachable(CONFIG, Threads(Going(CELLS, NONE, [Finished], [FIRST], {}), Up, map["web" := Watching(0)],
                                      [Request("web", RestartFork)]))
  {
    hide Reachable;
    Started();
    var up := Going(CELLS, R0, [Live], [FIRST], {});
    assert Waiters(CONFIG, up) == map["web" := AwaitStarted];
    assert "web" in map["web" := AwaitStarted];
    StepReaches(CONFIG, Threads(up, Up, map[], []), CallWait, Threads(up, Up, map["web" := AwaitStarted], []));
    WaiterRuns(up, AwaitStarted, [], WaitMove(Current, Nothing));
    WaiterRuns(up, Current, [], WaitMove(Watching(0), Nothing));
    var w := map["web" := Watching(0)];
    assert [] + [Request("web", Asked)] == [Request("web", Asked)];
    StepReaches(CONFIG, Threads(up, Up, w, []), AskRestart("web"), Threads(up, Up, w, [Request("web", Asked)]));
    RestartRuns(up, Asked, w, RequestMove(Take, Nothing));
    assert R0 - {"web"} == NONE;
    RestartRuns(up, Take, w, RequestMove(StopOld(0), Unregister("web")));
    assert [Live][0 := Finished] == [Finished];
    RestartRuns(Going(CELLS, NONE, [Live], [FIRST], {}), StopOld(0), w, RequestMove(RestartFork, StopRun(0)));
  }

  /** The waiter sees run 0 gone and forks run 1; Restart forks run 2. */
  lemma BothFork()
    ensures Reachable(CONFIG, Threads(Going(CELLS, NONE, [Finished, Live, Live], [FIRST, CRASH, AGAIN], {}), Up,
                                      map["web" := Readopting(1)], [Request("web", RestartAdopt(2))]))
  {
    hide Reachable;
    RestartStopsFirst();
    var down := Going(CELLS, NONE, [Finished], [FIRST], {});
    var q := [Request("web", RestartFork)];
    WaiterRuns(down, Watching(0), q, WaitMove(Exited, Nothing));
    WaiterRuns(down, Exited, q, WaitMove(Refork, Nothing));
    WaiterRuns(down, Refork, q, WaitMove(Readopting(1), ForkRun("web", AfterCrash)));
    assert [Finished] + [Live] == [Finished, Live] && [Finished, Live] + [Live] == [Finished, Live, Live];
    assert [FIRST] + [CRASH] == [FIRST, CRASH] && [FIRST, CRASH] + [AGAIN] == [FIRST, CRASH, AGAIN];
    RestartRuns(Going(CELLS, NONE, [Finished, Live], [FIRST, CRASH], {}), RestartFork, map["web" := Readopting(1)],
                RequestMove(RestartAdopt(2), ForkRun("web", ByRestart)));
  }

  const TWO := [Finished, Live, Live]
  const THREE := [FIRST, CRASH, AGAIN]

  /** Run 1 is registered, then run 2 over it. */
  lemma RunTwoReplaces()
    ensures Reachable(CONFIG, Threads(Going(CELLS, map["web" := 2], TWO, THREE, {1}), Up, map["web" := Current],
                                      [Request("web", RestartStarted)]))
  {
    hide Reachable, Threads;
    BothFork();
    assert NONE["web" := 1] == map["web" := 1] && map["web" := 1]["web" := 2 as nat] == map["web" := 2];
    WaiterRuns(Going(CELLS, NONE, TWO, THREE, {}), Readopting(1), [Request("web", RestartAdopt(2))],
               WaitMove(Current, RegisterRun("web", 1)));
    assert {} + {1 as nat} == {1 as nat};
    RestartRuns(Going(CELLS, map["web" := 1], TWO, THREE, {}), RestartAdopt(2), map["web" := Current],
                RequestMove(RestartStarted, RegisterRun("web", 2)));
  }

  lemma OneIsReplaced()
    ensures Reachable(CONFIG, Threads(Going(CELLS, map["web" := 2], TWO, THREE, {1}), Up, map["web" := Current],
                                      [Request("web", Served)]))
  {
    hide Reachable, Threads;
    RunTwoReplaces();
    var sh := Going(CELLS, map["web" := 2], TWO, THREE, {1});
    assert CELLS.blocked - {"web"} == CELLS.blocked;
    RestartRuns(sh, RestartStarted, map["web" := Current], RequestMove(RestartMark, StartedNow("web")));
    RestartRuns(sh, RestartMark, map["web" := Current], RequestMove(Served, Nothing));
  }

  function Ending(sh: Shared, stops: seq<StopPc>): State {
    State(sh, Up, map["web" := Idle], map["web" := Current], true, [Request("web", Served)], stops)
  }

  lemma StopRuns(sh: Shared, pc: StopPc, e: Effect, next: StopPc)
    requires Reachable(CONFIG, Ending(sh, [pc]))
    requires (pc.ToCancel? && e == CancelAll && next == ToSweep) || (pc.ToSweep? && e == Sweep && next == Stopped)
    ensures Reachable(CONFIG, Ending(Apply(sh, e), [next]))
  {
    hide Reachable, Apply;
    assert [pc][0 := next] == [next];
    StepReaches(CONFIG, Ending(sh, [pc]), StopStep(0), Ending(Apply(sh, e), [next]));
  }

  lemma NothingHeld(sh: Shared)
    ensures NoneInFlight(Ending(sh, [Stopped]))
  {
  }

  /** Stop is asked for, and ends. */
  lemma StopEnds(sh: Shared)
    requires Reachable(CONFIG, Threads(sh, Up, map["web" := Current], [Request("web", Served)]))
    ensures Reachable(CONFIG, Ending(Apply(Apply(sh, CancelAll), Sweep), [Stopped]))
  {
    hide Reachable, Apply;
    assert "web" in map["web" := Current];
    assert [] + [ToCancel] == [ToCancel];
    StepReaches(CONFIG, Threads(sh, Up, map["web" := Current], [Request("web", Served)]), AskStop, Ending(sh, [ToCancel]));
    StopRuns(sh, ToCancel, CancelAll, ToSweep);
    StopRuns(Apply(sh, CancelAll), ToSweep, Sweep, Stopped);
  }

  /** Then Stop ends with nothing in flight, and run 1 still going. */
  lemma ARunCanOutliveStop() returns (s: State)
    ensures WellFormed(CONFIG) && Reachable(CONFIG, s) && s.shared.swept && NoneInFlight(s)
    ensures |s.requests| == 1 && IsLive(s.shared, 1) && 1 in s.shared.orphans
  {
    hide Reachable, NoneInFlight, Threads;
    OneIsReplaced();
    var sh := Going(CELLS, map["web" := 2], TWO, THREE, {1});
    StopEnds(sh);
    s := Ending(Apply(Apply(sh, CancelAll), Sweep), [Stopped]);
    NothingHeld(s.shared);
    assert sh.runs[1] == Live;
  }
}
