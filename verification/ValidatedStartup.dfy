/**
 The two halves together: what ValidateDependencies accepts, the manager starts without
 deadlock and settles, whatever the interleaving.
 */
module ValidatedStartup {
  import opened Wrappers
  import opened Depends
  import opened Startup
  import opened Protocol
  import opened Progress
  import opened StartupEnds
  import opened LaunchOrder
  import opened Lifecycle

  lemma ResolvableIsAccepted(processes: seq<Process>, c: Compose)
    requires Resolvable(processes, c)
    ensures WellFormed(ConfigOf(processes)) && Accepted(ConfigOf(processes))
  {
    var cfg := ConfigOf(processes);
    ConfigIsWellFormed(processes);
    forall n, d | n in cfg.procs && d in cfg.procs[n].dependsOn
      ensures d != n && (d in cfg.procs ==> !cfg.procs[d].recurring && cfg.procs[d].hasCheck)
    {
      var i :| 0 <= i < |processes| && processes[i] == cfg.procs[n];
      assert ProcessResolvable(cfg.procs, c, processes[i]);
    }
  }

  /** Some list covers everything that can be probed, so the measure of startup is always defined. */
  lemma CoveringNames(cfg: Config) returns (names: seq<string>)
    ensures Covers(cfg, names)
  {
    names := Enumerate(cfg.procs.Keys + set n, d | n in cfg.procs && d in cfg.procs[n].dependsOn :: d);
  }

  lemma {:induction false} Enumerate(s: set<string>) returns (names: seq<string>)
    ensures Distinct(names) && forall n :: n in names <==> n in s
  {
    if s == {} {
      return [];
    }
    var n :| n in s;
    var rest := Enumerate(s - {n});
    return rest + [n];
  }

  /**
   In every state of every run of a validated configuration that has not been stopped, a
   pending process means that some goroutine of startup can step.
   */
  lemma ValidatedStartupCannotDeadlock(processes: seq<Process>, c: Compose, s: State)
    requires Resolvable(processes, c)
    requires Reachable(ConfigOf(processes), s) && !s.shared.cancelled && s.shared.cells.pending != {}
    ensures CanStep(ConfigOf(processes), s)
  {
    ResolvableIsAccepted(processes, c);
    NoDeadlock(ConfigOf(processes), s);
  }

  /** And startup steps alone can settle every process from there. */
  lemma ValidatedStartupSettles(processes: seq<Process>, c: Compose, s: State)
    requires Resolvable(processes, c)
    requires Reachable(ConfigOf(processes), s) && !s.shared.cancelled
    ensures exists acts :: SettlesAll(ConfigOf(processes), s, acts)
  {
    var cfg := ConfigOf(processes);
    ResolvableIsAccepted(processes, c);
    var names := CoveringNames(cfg);
    StartupSettles(cfg, names, s);
    hide SettlesAll, Measure;
    var acts :| SettlesAll(cfg, s, acts) && |acts| <= Measure(cfg, names, s);
  }

  /**
   The converse: a process on a dependency cycle is launched in no run without Restart, so a
   configuration with a cycle never comes up, and refusing it loses nothing.
   */
  lemma {:induction false} CycleNeverLaunches(cfg: Config, s: State, w: seq<string>, k: nat)
    requires WellFormed(cfg) && Reachable(cfg, s) && s.requests == []
    requires IsCycle(cfg.procs, w) && k < |s.shared.launches|
    ensures s.shared.launches[k].name != w[0]
  {
    if s.shared.launches[k].name == w[0] {
      hide Reachable;
      LaunchesAreTopological(cfg, s, k, w);
      var j :| 0 <= j < k && s.shared.launches[j].name == w[|w| - 1];
      CycleNeverLaunches(cfg, s, w, j);
    }
  }
}
