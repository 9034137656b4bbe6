/**
 Dependency validation, internal/config/depends.go.

 `CycleFinder.Visit` is the depth-first search of findCycle with its mark map and
 path stack; `ValidateDependencies` is the whole check. What it accepts is what the
 startup protocol (module Startup) needs in order not to deadlock.
 */
module Depends {
  import opened Sets
  import opened Wrappers

  /** One configured process; `recurring` says an interval is set, `hasCheck` a healthcheck. */
  datatype Process = Process(
    name: string,
    dependsOn: seq<string>,
    recurring: bool,
    hasCheck: bool,
    restartOnCrash: bool)

  /** The processes by name, as every consumer of the list indexes them. */
  type Procs = map<string, Process>

  /** The map built from the list: a later entry of the same name replaces an earlier one. */
  function ProcsOf(processes: seq<Process>): (g: Procs)
    ensures forall n :: n in g <==> exists i :: 0 <= i < |processes| && processes[i].name == n
    ensures forall n :: n in g ==> g[n].name == n && g[n] in processes
  {
    if processes == [] then map[]
    else
      var last := processes[|processes| - 1];
      ProcsOf(processes[..|processes| - 1])[last.name := last]
  }

  // ---------------------------------------------------------------- the graph

  /** A dependency of one process on another; a self-dependency is not an edge. */
  predicate Edge(g: Procs, a: string, b: string) {
    a in g && b in g && a != b && b in g[a].dependsOn
  }

  predicate IsWalk(g: Procs, w: seq<string>) {
    forall i :: 0 <= i < |w| - 1 ==> Edge(g, w[i], w[i + 1])
  }

  /** A closed walk: edges of the graph from a process back to itself. */
  predicate IsCycle(g: Procs, w: seq<string>) {
    |w| >= 2 && w[0] == w[|w| - 1] && IsWalk(g, w)
  }

  ghost predicate Acyclic(g: Procs) {
    forall w :: !IsCycle(g, w)
  }

  ghost predicate Distinct(s: seq<string>) {
    forall i, j :: 0 <= i < j < |s| ==> s[i] != s[j]
  }

  /** Every dependency of a listed process is listed before it. */
  ghost predicate DependenciesFirst(g: Procs, order: seq<string>) {
    forall i, b :: 0 <= i < |order| && Edge(g, order[i], b) ==> b in order[..i]
  }

  /** Along a walk, a node is listed strictly before the one the walk came from. */
  lemma {:induction false} WalkDescends(g: Procs, order: seq<string>, w: seq<string>, r: nat)
    requires DependenciesFirst(g, order)
    requires IsWalk(g, w) && |w| >= 2 && r < |order| && w[0] == order[r]
    ensures w[|w| - 1] in order[..r]
  {
    assert Edge(g, w[0], w[1]);
    var q :| 0 <= q < r && order[q] == w[1];
    if |w| > 2 {
      assert IsWalk(g, w[1..]) by {
        forall i | 0 <= i < |w[1..]| - 1 ensures Edge(g, w[1..][i], w[1..][i + 1]) {
          assert Edge(g, w[i + 1], w[i + 2]);
        }
      }
      WalkDescends(g, order, w[1..], q);
    }
  }

  lemma TopologicalOrderIsAcyclic(g: Procs, order: seq<string>)
    requires DependenciesFirst(g, order) && Distinct(order)
    requires forall n :: n in g ==> n in order
    ensures Acyclic(g)
  {
    forall w | IsCycle(g, w) ensures false {
      assert Edge(g, w[0], w[1]);
      var r :| 0 <= r < |order| && order[r] == w[0];
      WalkDescends(g, order, w, r);
    }
  }

  /**
   A finite set of processes each waiting for another in the set contains a cycle.
   This is the step from "validated" to "cannot deadlock".
   */
  lemma StuckSetHasCycle(g: Procs, stuck: set<string>)
    requires stuck != {}
    requires forall a {:trigger WaitsInside(g, stuck, a)} :: a in stuck ==> WaitsInside(g, stuck, a)
    ensures !Acyclic(g)
  {
    var a :| a in stuck;
    GrowWalk(g, stuck, {}, [a]);
  }

  ghost predicate WaitsInside(g: Procs, stuck: set<string>, a: string) {
    exists b :: b in stuck && Edge(g, a, b)
  }

  /** Extends a walk inside the set until it meets itself; `seen` are the nodes before its last. */
  lemma {:induction false} GrowWalk(g: Procs, stuck: set<string>, seen: set<string>, w: seq<string>)
    requires forall a {:trigger WaitsInside(g, stuck, a)} :: a in stuck ==> WaitsInside(g, stuck, a)
    requires |w| >= 1 && IsWalk(g, w)
    requires w[|w| - 1] in stuck && w[|w| - 1] !in seen
    requires forall x :: x in seen ==> x in w
    ensures !Acyclic(g)
    decreases |stuck - seen|
  {
    var last := w[|w| - 1];
    assert WaitsInside(g, stuck, last);
    var next :| next in stuck && Edge(g, last, next);
    if next in seen {
      var i :| 0 <= i < |w| && w[i] == next;
      CloseWalk(g, w, i);
    } else {
      SmallerSet(stuck - (seen + {last}), stuck - seen, last);
      ExtendWalk(g, w, next);
      GrowWalk(g, stuck, seen + {last}, w + [next]);
    }
  }

  lemma ExtendWalk(g: Procs, w: seq<string>, next: string)
    requires IsWalk(g, w) && (w != [] ==> Edge(g, w[|w| - 1], next))
    ensures IsWalk(g, w + [next])
  {
  }

  lemma CloseWalk(g: Procs, w: seq<string>, i: nat)
    requires IsWalk(g, w) && i < |w| && Edge(g, w[|w| - 1], w[i])
    ensures IsCycle(g, w[i..] + [w[i]])
  {
  }

  lemma SmallerSet<T>(a: set<T>, b: set<T>, x: T)
    requires a <= b && x in b && x !in a
    ensures |a| < |b|
  {
    SubsetCardinality(a, b - {x});
  }

  // ---------------------------------------------------------------- findCycle

  datatype Mark = Visiting | Done

  /** What the search keeps between steps: the path is what is being visited, all else is done. */
  ghost predicate Consistent(g: Procs, state: map<string, Mark>, path: seq<string>, finished: seq<string>) {
    && state.Keys <= g.Keys
    && Distinct(path) && Distinct(finished)
    && IsWalk(g, path)
    && (forall n :: n in path <==> n in state && state[n] == Visiting)
    && (forall n :: n in finished <==> n in state && state[n] == Done)
    && DependenciesFirst(g, finished)
  }

  /** How many processes the search has not reached: it shrinks with every new mark. */
  ghost function Unmarked(g: Procs, state: map<string, Mark>): nat {
    |g.Keys - state.Keys|
  }

  lemma MarkOne(g: Procs, state: map<string, Mark>, name: string, m: Mark)
    requires name in g && name !in state
    ensures Unmarked(g, state[name := m]) < Unmarked(g, state)
  {
    SmallerSet(g.Keys - state[name := m].Keys, g.Keys - state.Keys, name);
  }

  lemma MarkAgain(g: Procs, state: map<string, Mark>, name: string, m: Mark)
    ensures Unmarked(g, state[name := m]) <= Unmarked(g, state)
  {
    SubsetCardinality(g.Keys - state[name := m].Keys, g.Keys - state.Keys);
  }

  lemma MarkMeaning(g: Procs, state: map<string, Mark>, path: seq<string>, finished: seq<string>, name: string)
    requires Consistent(g, state, path, finished)
    ensures IsWalk(g, path)
    ensures name in state ==> if state[name] == Visiting then name in path else name in finished
  {
  }

  lemma Enter(g: Procs, state: map<string, Mark>, path: seq<string>, finished: seq<string>, name: string)
    requires Consistent(g, state, path, finished)
    requires name in g && name !in state && (path != [] ==> Edge(g, path[|path| - 1], name))
    ensures Consistent(g, state[name := Visiting], path + [name], finished)
  {
  }

  lemma Leave(g: Procs, state: map<string, Mark>, path: seq<string>, finished: seq<string>, name: string)
    requires Consistent(g, state, path + [name], finished)
    requires name in g && Searched(g, name, |g[name].dependsOn|, finished)
    ensures Consistent(g, state[name := Done], path, finished + [name])
  {
    var state', finished' := state[name := Done], finished + [name];
    var path' := path + [name];
    assert path'[|path|] == name && name in path';
    forall n ensures n in path <==> n in state' && state'[n] == Visiting {
      assert n in path' <==> n in path || n == name;
      if n in path { var i :| 0 <= i < |path| && path[i] == n; assert path'[i] == n; }
    }
    forall i | 0 <= i < |path| - 1 ensures Edge(g, path[i], path[i + 1]) {
      assert Edge(g, path'[i], path'[i + 1]);
    }
    forall i, j | 0 <= i < j < |path| ensures path[i] != path[j] {
      assert path'[i] != path'[j];
    }
    LeaveOrder(g, finished, name);
  }

  lemma LeaveOrder(g: Procs, finished: seq<string>, name: string)
    requires DependenciesFirst(g, finished)
    requires forall b :: Edge(g, name, b) ==> b in finished
    ensures DependenciesFirst(g, finished + [name])
  {
    var finished' := finished + [name];
    forall i, b | 0 <= i < |finished'| && Edge(g, finished'[i], b) ensures b in finished'[..i] {
      if i < |finished| {
        assert finished'[..i] == finished[..i];
      } else {
        assert finished'[..i] == finished;
      }
    }
  }

  /** The first `n` dependencies of a process are done. */
  ghost predicate Searched(g: Procs, name: string, n: nat, finished: seq<string>) {
    && name in g && n <= |g[name].dependsOn|
    && forall j :: 0 <= j < n && Edge(g, name, g[name].dependsOn[j]) ==> g[name].dependsOn[j] in finished
  }

  lemma SearchedStart(g: Procs, name: string, finished: seq<string>)
    requires name in g
    ensures Searched(g, name, 0, finished)
  {
  }

  lemma SearchedNext(g: Procs, name: string, n: nat, finished: seq<string>)
    requires Searched(g, name, n, finished) && n < |g[name].dependsOn|
    requires Edge(g, name, g[name].dependsOn[n]) ==> g[name].dependsOn[n] in finished
    ensures Searched(g, name, n + 1, finished)
  {
  }

  lemma SearchedKept(g: Procs, name: string, n: nat, before: seq<string>, finished: seq<string>)
    requires Searched(g, name, n, before) && before <= finished
    ensures Searched(g, name, n, finished)
  {
  }

  /** The depth-first search of findCycle; an absent mark is `unvisited`. */
  class CycleFinder {
    const deps: Procs
    var state: map<string, Mark>
    var path: seq<string>
    /** The processes marked done, in the order they were. */
    ghost var finished: seq<string>

    ghost predicate Valid()
      reads this
    {
      Consistent(deps, state, path, finished)
    }

    constructor (deps: Procs)
      ensures Valid() && this.deps == deps && path == [] && finished == []
    {
      this.deps := deps;
      state, path, finished := map[], [], [];
    }

    /** Searches from one process: a cycle, or every process below it marked done. */
    method Visit(name: string) returns (cycle: Option<seq<string>>)
      requires Valid() && name in deps
      requires path != [] ==> Edge(deps, path[|path| - 1], name)
      modifies this
      ensures Valid() && Unmarked(deps, state) <= Unmarked(deps, old(state))
      ensures cycle.Some? ==> IsCycle(deps, cycle.value)
      ensures cycle.None? ==> path == old(path) && old(finished) <= finished && name in finished
      decreases Unmarked(deps, state), 0
    {
      hide Consistent, Searched, IsCycle, IsWalk, Unmarked;
      MarkMeaning(deps, state, path, finished, name);
      if name in state && state[name] == Visiting {
        var start := IndexOf(path, name);
        CloseWalk(deps, path, start);
        return Some(path[start..] + [name]);
      }
      if name in state && state[name] == Done {
        return None;
      }
      MarkOne(deps, state, name, Visiting);
      Enter(deps, state, path, finished, name);
      state := state[name := Visiting];
      path := path + [name];
      cycle := VisitDependencies(name);
      if cycle.None? {
        MarkAgain(deps, state, name, Done);
        Leave(deps, state, old(path), finished, name);
        path := path[..|path| - 1];
        state := state[name := Done];
        finished := finished + [name];
      }
    }

    /** The loop over one process's dependencies: a cycle, or all of them marked done. */
    method VisitDependencies(name: string) returns (cycle: Option<seq<string>>)
      requires Valid() && name in deps && path != [] && path[|path| - 1] == name
      modifies this
      ensures Valid() && Unmarked(deps, state) <= Unmarked(deps, old(state))
      ensures cycle.Some? ==> IsCycle(deps, cycle.value)
      ensures cycle.None? ==> path == old(path) && old(finished) <= finished
      ensures cycle.None? ==> Searched(deps, name, |deps[name].dependsOn|, finished)
      decreases Unmarked(deps, state), 1
    {
      hide Consistent, Searched, IsCycle, IsWalk, Unmarked;
      SearchedStart(deps, name, finished);
      for i := 0 to |deps[name].dependsOn|
        invariant Valid() && Unmarked(deps, state) <= Unmarked(deps, old(state))
        invariant path == old(path) && old(finished) <= finished
        invariant Searched(deps, name, i, finished)
      {
        var d := deps[name].dependsOn[i];
        if d !in deps || d == name {
          SearchedNext(deps, name, i, finished);
          continue; // no edge of the graph
        }
        ghost var before := finished;
        cycle := Visit(d);
        if cycle.Some? {
          return;
        }
        SearchedKept(deps, name, i, before, finished);
        SearchedNext(deps, name, i, finished);
      }
      return None;
    }
  }

  /** slices.Index for an element known to be present. */
  method IndexOf(s: seq<string>, x: string) returns (i: nat)
    requires x in s
    ensures i < |s| && s[i] == x && x !in s[..i]
  {
    i := 0;
    while s[i] != x
      invariant i < |s| && x !in s[..i]
      decreases |s| - i
    {
      i := i + 1;
    }
  }

  ghost predicate NamesIn(processes: seq<Process>, n: nat, order: seq<string>) {
    n <= |processes| && forall j :: 0 <= j < n ==> processes[j].name in order
  }

  lemma NamesKept(processes: seq<Process>, n: nat, before: seq<string>, order: seq<string>)
    requires NamesIn(processes, n, before) && before <= order
    ensures NamesIn(processes, n, order)
    ensures n < |processes| && processes[n].name in order ==> NamesIn(processes, n + 1, order)
  {
  }

  lemma AllFinishedIsAcyclic(processes: seq<Process>, state: map<string, Mark>, order: seq<string>)
    requires Consistent(ProcsOf(processes), state, [], order)
    requires NamesIn(processes, |processes|, order)
    ensures Acyclic(ProcsOf(processes))
  {
    TopologicalOrderIsAcyclic(ProcsOf(processes), order);
  }

  /** Sound and complete: no cycle is reported exactly when there is none. */
  method FindCycle(processes: seq<Process>) returns (cycle: Option<seq<string>>)
    ensures cycle.None? <==> Acyclic(ProcsOf(processes))
    ensures cycle.Some? ==> IsCycle(ProcsOf(processes), cycle.value)
  {
    var finder := new CycleFinder(ProcsOf(processes));
    assert NamesIn(processes, 0, finder.finished);
    hide Consistent, IsCycle, NamesIn;
    for i := 0 to |processes|
      invariant finder.Valid() && finder.path == []
      invariant NamesIn(processes, i, finder.finished)
    {
      ghost var before := finder.finished;
      cycle := finder.Visit(processes[i].name);
      if cycle.Some? {
        return;
      }
      NamesKept(processes, i, before, finder.finished);
    }
    AllFinishedIsAcyclic(processes, finder.state, finder.finished);
    return None;
  }

  // ---------------------------------------------------------------- ValidateDependencies

  /** What validation needs to know of the Compose stack; `declared` are the healthchecks the config adds. */
  datatype Compose = Compose(
    active: set<string>,
    gatedOut: set<string>,
    withHealthcheck: set<string>,
    declared: set<string>)

  /** One refusal per message the code can report. */
  datatype Problem =
    | RecurringWithHealthcheck(p: string)
    | ListedTwice(p: string, dep: string)
    | OnItself(p: string)
    | BothProcessAndService(p: string, dep: string)
    | OnRecurring(p: string, dep: string)
    | ProcessWithoutHealthcheck(p: string, dep: string)
    | ServiceWithoutHealthcheck(p: string, dep: string)
    | NotInActiveProfile(p: string, dep: string)
    | UnknownName(p: string, dep: string)
    | DeclaredTwice(service: string)
    | DeclaredForNothing(service: string)
    | DependencyCycle(path: seq<string>)

  ghost predicate Repeats(s: seq<string>, x: string) {
    exists i, j :: 0 <= i < j < |s| && s[i] == x && s[j] == x
  }

  /** A dependency that can become ready: one process or one service, with a healthcheck. */
  predicate CanBecomeReady(procs: Procs, c: Compose, dep: string) {
    if dep in procs then dep !in c.active && !procs[dep].recurring && procs[dep].hasCheck
    else dep in c.active && (dep in c.withHealthcheck || dep in c.declared)
  }

  /** What a refusal says about one process, each condition on its own terms. */
  ghost predicate IsProblemOf(procs: Procs, c: Compose, p: Process, deps: seq<string>, q: Problem) {
    match q
    case RecurringWithHealthcheck(n) => n == p.name && p.recurring && p.hasCheck
    case ListedTwice(n, d) => n == p.name && Repeats(deps, d)
    case OnItself(n) => n == p.name && n in deps
    case BothProcessAndService(n, d) => n == p.name && d != n && d in deps && d in procs && d in c.active
    case OnRecurring(n, d) =>
      n == p.name && d != n && d in deps && d in procs && d !in c.active && procs[d].recurring
    case ProcessWithoutHealthcheck(n, d) =>
      && n == p.name && d != n && d in deps && d in procs && d !in c.active
      && !procs[d].recurring && !procs[d].hasCheck
    case ServiceWithoutHealthcheck(n, d) =>
      && n == p.name && d != n && d in deps && d !in procs && d in c.active
      && d !in c.withHealthcheck && d !in c.declared
    case NotInActiveProfile(n, d) =>
      n == p.name && d != n && d in deps && d !in procs && d !in c.active && d in c.gatedOut
    case UnknownName(n, d) =>
      n == p.name && d != n && d in deps && d !in procs && d !in c.active && d !in c.gatedOut
    case _ => false
  }

  /** What every later part of startup relies on. */
  ghost predicate Resolvable(processes: seq<Process>, c: Compose) {
    && (forall i :: 0 <= i < |processes| ==> ProcessResolvable(ProcsOf(processes), c, processes[i]))
    && (forall n :: n in c.declared ==> n !in c.withHealthcheck && (n in c.active || n in c.gatedOut))
    && Acyclic(ProcsOf(processes))
  }

  ghost predicate ProcessResolvable(procs: Procs, c: Compose, p: Process) {
    && !(p.recurring && p.hasCheck)
    && Distinct(p.dependsOn)
    && forall d :: d in p.dependsOn ==> d != p.name && CanBecomeReady(procs, c, d)
  }

  /** The refusal one dependency earns on its own, by the code's switch. */
  function DependencyProblem(procs: Procs, c: Compose, p: string, d: string): (q: Option<Problem>)
    ensures q.None? <==> d != p && CanBecomeReady(procs, c, d)
  {
    if d == p then Some(OnItself(p))
    else if d in procs && d in c.active then Some(BothProcessAndService(p, d))
    else if d in procs && procs[d].recurring then Some(OnRecurring(p, d))
    else if d in procs && !procs[d].hasCheck then Some(ProcessWithoutHealthcheck(p, d))
    else if d in procs then None
    else if d in c.active then
      if d !in c.withHealthcheck && d !in c.declared then Some(ServiceWithoutHealthcheck(p, d)) else None
    else if d in c.gatedOut then Some(NotInActiveProfile(p, d))
    else Some(UnknownName(p, d))
  }

  /** One more dependency adds exactly its own refusal, or that it is a repeat. */
  lemma OneMoreDependency(procs: Procs, c: Compose, p: Process, deps: seq<string>, d: string, q: Problem)
    ensures IsProblemOf(procs, c, p, deps + [d], q) <==>
            || IsProblemOf(procs, c, p, deps, q)
            || (if d in deps then q == ListedTwice(p.name, d) else DependencyProblem(procs, c, p.name, d) == Some(q))
  {
    var more := deps + [d];
    forall x ensures x in more <==> x in deps || x == d {
    }
    if q.ListedTwice? {
      OneMoreRepeat(deps, d, q.dep);
    }
  }

  lemma OneMoreRepeat(s: seq<string>, d: string, x: string)
    ensures Repeats(s + [d], x) <==> Repeats(s, x) || (x == d && d in s)
  {
    var more := s + [d];
    if Repeats(s, x) {
      var i, j :| 0 <= i < j < |s| && s[i] == x && s[j] == x;
      assert more[i] == x && more[j] == x;
    }
    if x == d && d in s {
      var i :| 0 <= i < |s| && s[i] == d;
      assert more[i] == x && more[|s|] == x;
    }
  }

  /** The refusals of one process: all of them, and nothing else. */
  method ValidateProcess(procs: Procs, c: Compose, p: Process) returns (errs: seq<Problem>)
    ensures forall q :: q in errs <==> IsProblemOf(procs, c, p, p.dependsOn, q)
  {
    errs := [];
    if p.recurring && p.hasCheck {
      errs := [RecurringWithHealthcheck(p.name)];
    }
    var seen: set<string> := {};
    for i := 0 to |p.dependsOn|
      invariant forall d :: d in seen <==> d in p.dependsOn[..i]
      invariant forall q :: q in errs <==> IsProblemOf(procs, c, p, p.dependsOn[..i], q)
    {
      var dep := p.dependsOn[i];
      assert p.dependsOn[..i + 1] == p.dependsOn[..i] + [dep];
      forall q {
        OneMoreDependency(procs, c, p, p.dependsOn[..i], dep, q);
      }
      if dep in seen {
        errs := errs + [ListedTwice(p.name, dep)];
        continue;
      }
      seen := seen + {dep};
      match DependencyProblem(procs, c, p.name, dep) {
        case Some(q) => errs := errs + [q];
        case None =>
      }
    }
    assert p.dependsOn[..|p.dependsOn|] == p.dependsOn;
  }

  lemma NoProblemIsResolvable(procs: Procs, c: Compose, p: Process)
    ensures (forall q :: !IsProblemOf(procs, c, p, p.dependsOn, q)) <==> ProcessResolvable(procs, c, p)
  {
    if forall q :: !IsProblemOf(procs, c, p, p.dependsOn, q) {
      assert !IsProblemOf(procs, c, p, p.dependsOn, RecurringWithHealthcheck(p.name));
      forall i, j | 0 <= i < j < |p.dependsOn| ensures p.dependsOn[i] != p.dependsOn[j] {
        assert !IsProblemOf(procs, c, p, p.dependsOn, ListedTwice(p.name, p.dependsOn[i]));
      }
      forall d | d in p.dependsOn ensures d != p.name && CanBecomeReady(procs, c, d) {
        var q := DependencyProblem(procs, c, p.name, d);
        assert q.Some? ==> IsProblemOf(procs, c, p, p.dependsOn, q.value);
      }
    }
  }

  /** Every way a configuration can be refused, apart from the cycle, which one path stands for. */
  ghost predicate IsProblem(processes: seq<Process>, c: Compose, q: Problem) {
    match q
    case DeclaredTwice(n) => n in c.declared && n in c.withHealthcheck
    case DeclaredForNothing(n) => n in c.declared && n !in c.withHealthcheck && n !in c.active && n !in c.gatedOut
    case DependencyCycle(w) => IsCycle(ProcsOf(processes), w)
    case _ => ProblemOfSome(processes, c, |processes|, q)
  }

  ghost predicate ProblemOfSome(processes: seq<Process>, c: Compose, n: nat, q: Problem)
    requires n <= |processes|
  {
    exists i :: 0 <= i < n && IsProblemOf(ProcsOf(processes), c, processes[i], processes[i].dependsOn, q)
  }

  lemma OneMoreProcess(processes: seq<Process>, c: Compose, n: nat, q: Problem)
    requires n < |processes|
    ensures ProblemOfSome(processes, c, n + 1, q) <==>
            || ProblemOfSome(processes, c, n, q)
            || IsProblemOf(ProcsOf(processes), c, processes[n], processes[n].dependsOn, q)
  {
  }

  /** The healthchecks declared for Compose services, one by one. */
  method ValidateDeclared(c: Compose) returns (errs: seq<Problem>)
    ensures forall q :: q in errs <==> IsDeclaredProblem(c, c.declared, q)
  {
    errs := [];
    var rest := c.declared;
    while rest != {}
      invariant rest <= c.declared
      invariant forall q :: q in errs <==> IsDeclaredProblem(c, c.declared - rest, q)
      decreases rest
    {
      var name :| name in rest;
      if name in c.withHealthcheck {
        errs := errs + [DeclaredTwice(name)];
      } else if name !in c.active && name !in c.gatedOut {
        errs := errs + [DeclaredForNothing(name)];
      }
      rest := rest - {name};
    }
    assert c.declared - rest == c.declared;
  }

  ghost predicate IsDeclaredProblem(c: Compose, names: set<string>, q: Problem) {
    match q
    case DeclaredTwice(n) => n in names && n in c.withHealthcheck
    case DeclaredForNothing(n) => n in names && n !in c.withHealthcheck && n !in c.active && n !in c.gatedOut
    case _ => false
  }

  lemma NothingFound(processes: seq<Process>, c: Compose)
    ensures Resolvable(processes, c) <==>
            && (forall q :: !ProblemOfSome(processes, c, |processes|, q))
            && (forall q :: !IsDeclaredProblem(c, c.declared, q))
            && Acyclic(ProcsOf(processes))
  {
    var procs := ProcsOf(processes);
    forall i | 0 <= i < |processes| {
      NoProblemIsResolvable(procs, c, processes[i]);
    }
    hide IsProblemOf, ProcessResolvable, Acyclic;
    if forall q :: !ProblemOfSome(processes, c, |processes|, q) {
      forall i, q | 0 <= i < |processes| ensures !IsProblemOf(procs, c, processes[i], processes[i].dependsOn, q) {
        assert !ProblemOfSome(processes, c, |processes|, q);
      }
    }
    if forall q :: !IsDeclaredProblem(c, c.declared, q) {
      forall n | n in c.declared ensures n !in c.withHealthcheck && (n in c.active || n in c.gatedOut) {
        assert !IsDeclaredProblem(c, c.declared, DeclaredTwice(n));
        assert !IsDeclaredProblem(c, c.declared, DeclaredForNothing(n));
      }
    }
  }

  /**
   Refuses exactly what cannot be resolved. The list holds all problems but cycles, of
   which it holds one.
   */
  method ValidateDependencies(processes: seq<Process>, c: Compose) returns (errs: seq<Problem>)
    ensures errs == [] <==> Resolvable(processes, c)
    ensures forall q :: q in errs ==> IsProblem(processes, c, q)
    ensures forall q :: IsProblem(processes, c, q) && !q.DependencyCycle? ==> q in errs
  {
    var procs := ProcsOf(processes);
    errs := [];
    for i := 0 to |processes|
      invariant forall q :: q in errs <==> ProblemOfSome(processes, c, i, q)
    {
      var more := ValidateProcess(procs, c, processes[i]);
      forall q {
        OneMoreProcess(processes, c, i, q);
      }
      errs := errs + more;
    }
    var fromConfig := ValidateDeclared(c);
    var cycle := FindCycle(processes);
    NothingFound(processes, c);
    var fromGraph := match cycle case Some(w) => [DependencyCycle(w)] case None => [];
    if errs != [] { assert errs[0] in errs; }
    if fromConfig != [] { assert fromConfig[0] in fromConfig; }
    hide ProblemOfSome, IsDeclaredProblem, Acyclic, Resolvable, IsCycle;
    errs := errs + fromConfig + fromGraph;
  }
}
