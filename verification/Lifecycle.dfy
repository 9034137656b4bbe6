/**
 The process map of internal/process/manager.go: how the configuration becomes an order,
 how a run is adopted or refused, and how Stop walks the map. Each method is proved to do
 to the map and the runs what the protocol's effects do.
 */
module Lifecycle {
  import opened Wrappers
  import opened Depends
  import opened Protocol

  /** The names in the order first configured. */
  function OrderOf(processes: seq<Process>): seq<string> {
    if processes == [] then []
    else
      var before := OrderOf(processes[..|processes| - 1]);
      var name := processes[|processes| - 1].name;
      if name in before then before else before + [name]
  }

  lemma {:induction false} OrderListsEveryProcessOnce(processes: seq<Process>)
    ensures Distinct(OrderOf(processes))
    ensures forall n :: n in OrderOf(processes) <==> n in ProcsOf(processes)
  {
    if processes != [] {
      OrderListsEveryProcessOnce(processes[..|processes| - 1]);
    }
  }

  /** The configuration the manager runs: what NewManager builds. */
  function ConfigOf(processes: seq<Process>): Config {
    Config(ProcsOf(processes), OrderOf(processes))
  }

  lemma ConfigIsWellFormed(processes: seq<Process>)
    ensures WellFormed(ConfigOf(processes))
  {
    OrderListsEveryProcessOnce(processes);
  }

  /** The registered names, last configured first. */
  function StopOrderOf(order: seq<string>, registered: set<string>): seq<string> {
    if order == [] then []
    else (if order[|order| - 1] in registered then [order[|order| - 1]] else [])
         + StopOrderOf(order[..|order| - 1], registered)
  }

  /** One turn of the loop of stopOrder, from the last of the order down. */
  lemma LastFirst(order: seq<string>, i: int, registered: set<string>, names: seq<string>)
    requires -1 <= i < |order|
    ensures names + StopOrderOf(order[..i + 1], registered) ==
            (if i >= 0 && order[i] in registered then names + [order[i]] else names)
            + (if i >= 0 then StopOrderOf(order[..i], registered) else [])
  {
    if i >= 0 {
      assert order[..i + 1][..i] == order[..i];
    }
  }

  lemma {:induction false} StopOrderHoldsRegistered(order: seq<string>, registered: set<string>)
    ensures forall n :: n in StopOrderOf(order, registered) <==> n in order && n in registered
  {
    if order != [] {
      StopOrderHoldsRegistered(order[..|order| - 1], registered);
      assert order == order[..|order| - 1] + [order[|order| - 1]];
    }
  }

  /** Of two registered processes, the later configured is stopped first. */
  lemma {:induction false} StopOrderIsReverse(order: seq<string>, registered: set<string>, i: nat, j: nat)
    requires i < j < |StopOrderOf(order, registered)|
    ensures ConfiguredBefore(order, StopOrderOf(order, registered)[j], StopOrderOf(order, registered)[i])
  {
    var rest, last := order[..|order| - 1], order[|order| - 1];
    var names, later := StopOrderOf(order, registered), StopOrderOf(rest, registered);
    var k := if last in registered then 1 else 0;
    assert names[j] == later[j - k];
    assert order == rest + [last];
    if i >= k {
      StopOrderIsReverse(rest, registered, i - k, j - k);
      BeforeInLonger(rest, last, names[j], names[i]);
    } else {
      StopOrderHoldsRegistered(rest, registered);
      assert names[j] in later;
      var a :| 0 <= a < |rest| && rest[a] == names[j];
      assert order[a] == names[j] && order[|rest|] == last;
    }
  }

  ghost predicate ConfiguredBefore(order: seq<string>, a: string, b: string) {
    exists i, j :: 0 <= i < j < |order| && order[i] == a && order[j] == b
  }

  lemma BeforeInLonger(order: seq<string>, last: string, a: string, b: string)
    requires ConfiguredBefore(order, a, b)
    ensures ConfiguredBefore(order + [last], a, b)
  {
    var i, j :| 0 <= i < j < |order| && order[i] == a && order[j] == b;
    assert (order + [last])[i] == a && (order + [last])[j] == b;
  }

  /** The part of the protocol's shared state that the manager's own methods change. */
  datatype Book = Book(processes: map<string, nat>, runs: seq<Run>, cancelled: bool)

  function BookOf(sh: Shared): Book { Book(sh.processes, sh.runs, sh.cancelled) }

  class Manager {
    var configs: Procs
    var order: seq<string>
    var processes: map<string, nat>
    var runs: seq<Run>
    var cancelled: bool

    ghost predicate Valid()
      reads this
    {
      && Distinct(order) && (forall n :: n in order <==> n in configs)
      && processes.Keys <= configs.Keys
      && forall n :: n in processes ==> processes[n] < |runs|
    }

    ghost function State(): Book
      reads this
    {
      Book(processes, runs, cancelled)
    }

    /** NewManagerWithOTEL: the loop that stores the configurations. */
    constructor (list: seq<Process>)
      ensures Valid() && Config(configs, order) == ConfigOf(list)
      ensures State() == Book(map[], [], false)
    {
      configs, order := map[], [];
      processes, runs, cancelled := map[], [], false;
      new;
      hide OrderOf, ProcsOf;
      NoneConfigured();
      assert list[..0] == [];
      for i := 0 to |list|
        invariant order == OrderOf(list[..i]) && configs == ProcsOf(list[..i])
        invariant State() == Book(map[], [], false)
      {
        OneMoreConfigured(list, i);
        OrderListsEveryProcessOnce(list[..i]);
        if list[i].name !in configs {
          order := order + [list[i].name];
        }
        configs := configs[list[i].name := list[i]];
      }
      assert list[..|list|] == list;
      OrderListsEveryProcessOnce(list);
    }

    /** adopt: registers a run if the manager is still going. */
    method Adopt(name: string, w: nat) returns (adopted: bool)
      requires Valid() && name in configs && w < |runs|
      modifies this`processes
      ensures Valid() && adopted == !cancelled
      ensures forall sh: Shared :: BookOf(sh) == old(State()) ==>
                State() == BookOf(Apply(sh, if adopted then RegisterRun(name, w) else Nothing))
    {
      if cancelled {
        return false;
      }
      processes := processes[name := w];
      return true;
    }

    /** One wrapper's Stop: a run that is going is over; a wrapper never started is left. */
    method StopOne(w: nat)
      requires w < |runs|
      modifies this`runs
      ensures runs == if old(runs)[w] == Live then old(runs)[w := Finished] else old(runs)
    {
      if runs[w] == Live {
        runs := runs[w := Finished];
      }
    }

    /** stopOrder */
    method StopOrder() returns (names: seq<string>)
      requires Valid()
      ensures names == StopOrderOf(order, processes.Keys)
    {
      hide StopOrderOf;
      names := [];
      var i := |order|;
      assert order[..i] == order;
      while i > 0
        invariant 0 <= i <= |order|
        invariant names + StopOrderOf(order[..i], processes.Keys) == StopOrderOf(order, processes.Keys)
      {
        i := i - 1;
        LastFirst(order, i, processes.Keys, names);
        if order[i] in processes {
          names := names + [order[i]];
        }
      }
      LastFirst(order, -1, processes.Keys, names);
    }

    /** stopAllLocked: every registered run is over, and no other run is touched. */
    method StopAllLocked()
      requires Valid()
      modifies this`runs
      ensures Valid()
      ensures forall sh: Shared :: BookOf(sh) == old(State()) ==> State() == BookOf(StopAll(sh))
    {
      hide StopEach, StopAll, StopOrderOf, Distinct, BookOf, Apply;
      var names := StopOrder();
      StopOrderHoldsRegistered(order, processes.Keys);
      ghost var was := runs;
      assert names[..0] == [];
      NoneStopped(was, processes);
      for i := 0 to |names|
        invariant Valid() && runs == StopEach(was, names[..i], processes)
      {
        assert names[i] in names;
        StopEachNext(was, names, i, processes);
        StopOne(processes[names[i]]);
      }
      assert names[..|names|] == names;
      EachIsAll(was, names, processes, cancelled);
    }

    /** Stop, from the cancellation on. */
    method Stop()
      requires Valid()
      modifies this
      ensures Valid()
      ensures forall sh: Shared :: BookOf(sh) == old(State()) ==> State() == BookOf(Apply(Apply(sh, CancelAll), Sweep))
    {
      cancelled := true;
      StopAllLocked();
    }
  }

  /** The runs after stopping the registered run of each name in turn. */
  function StopEach(runs: seq<Run>, names: seq<string>, processes: map<string, nat>): (after: seq<Run>)
    requires forall n :: n in processes ==> processes[n] < |runs|
    ensures |after| == |runs|
  {
    if names == [] then runs
    else
      var before := StopEach(runs, names[..|names| - 1], processes);
      var n := names[|names| - 1];
      if n in processes && before[processes[n]] == Live then before[processes[n] := Finished] else before
  }

  lemma {:induction false} StopEachStops(runs: seq<Run>, names: seq<string>, processes: map<string, nat>, r: nat)
    requires forall n :: n in processes ==> processes[n] < |runs|
    requires r < |runs|
    ensures StopEach(runs, names, processes)[r] ==
            if runs[r] == Live && StoppedBy(names, processes, r) then Finished else runs[r]
  {
    if names != [] {
      var rest, last := names[..|names| - 1], names[|names| - 1];
      StopEachStops(runs, rest, processes, r);
      assert names == rest + [last];
      if StoppedBy(rest, processes, r) {
        var i :| 0 <= i < |rest| && rest[i] in processes && processes[rest[i]] == r;
        assert names[i] == rest[i];
      }
      if last in processes && processes[last] == r {
        assert names[|rest|] == last;
      }
    }
  }

  ghost predicate StoppedBy(names: seq<string>, processes: map<string, nat>, r: nat) {
    exists i :: 0 <= i < |names| && names[i] in processes && processes[names[i]] == r
  }

  lemma StopEachNext(runs: seq<Run>, names: seq<string>, i: nat, processes: map<string, nat>)
    requires forall n :: n in processes ==> processes[n] < |runs|
    requires i < |names| && names[i] in processes
    ensures var before := StopEach(runs, names[..i], processes);
            StopEach(runs, names[..i + 1], processes) ==
            if before[processes[names[i]]] == Live then before[processes[names[i]] := Finished] else before
  {
    assert names[..i + 1][..i] == names[..i];
  }

  lemma NoneConfigured()
    ensures OrderOf([]) == [] && ProcsOf([]) == map[]
  {
  }

  lemma OneMoreConfigured(list: seq<Process>, i: nat)
    requires i < |list|
    ensures var name, before := list[i].name, OrderOf(list[..i]);
            && OrderOf(list[..i + 1]) == (if name in before then before else before + [name])
            && ProcsOf(list[..i + 1]) == ProcsOf(list[..i])[name := list[i]]
  {
    assert list[..i + 1][..i] == list[..i];
  }

  lemma NoneStopped(runs: seq<Run>, processes: map<string, nat>)
    requires forall n :: n in processes ==> processes[n] < |runs|
    ensures StopEach(runs, [], processes) == runs
  {
  }

  /** Stopping each registered name in turn is stopping every registered run at once. */
  lemma EachIsAll(runs: seq<Run>, names: seq<string>, processes: map<string, nat>, cancelled: bool)
    requires forall n :: n in processes ==> processes[n] < |runs| && n in names
    ensures forall sh: Shared :: BookOf(sh) == Book(processes, runs, cancelled) ==>
              BookOf(StopAll(sh)) == Book(processes, StopEach(runs, names, processes), cancelled)
  {
    forall r: nat | r < |runs|
      ensures StopEach(runs, names, processes)[r] ==
              if runs[r] == Live && r in processes.Values then Finished else runs[r]
    {
      StopEachStops(runs, names, processes, r);
      if r in processes.Values {
        var n :| n in processes && processes[n] == r;
        var i :| 0 <= i < |names| && names[i] == n;
        assert names[i] in processes && processes[names[i]] == r;
      }
    }
  }
}
