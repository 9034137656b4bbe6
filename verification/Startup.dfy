/**
 The startup state of internal/process/startup.go: readiness cells decided once, gate
 channels closed once, and what is pending or blocked.

 `Cells` is that state as a value; the functions on it are what each lock region does
 to it. `StartupState` is the Go struct, each method proved to do what its function
 says and never to close a channel twice. The protocol (module Protocol) interleaves
 the same functions.
 */
module Startup {
  import opened Wrappers
  import opened Depends

  /** The text of an error; never empty, which is how settle tells it from "started". */
  type Reason = s: string | s != "" witness "not ready"

  datatype Verdict = Ready | Failed(why: Reason)

  datatype Cells = Cells(
    decided: map<string, Verdict>,  // the readiness cells that have been decided
    checked: set<string>,           // healthchecks launched
    closed: set<string>,            // gate channels closed
    pending: set<string>,           // gate channels open
    blocked: map<string, Reason>)

  function Initial(procs: Procs): Cells {
    Cells(map[], {}, {}, set n | n in procs && procs[n].dependsOn != [], map[])
  }

  /** decide: the first decision stands. */
  function Decide(c: Cells, name: string, v: Verdict): Cells {
    if name in c.decided then c else c.(decided := c.decided[name := v])
  }

  /** settle: a pending process is started (no reason) or blocked; nothing else changes. */
  function Settle(c: Cells, name: string, why: string): Cells {
    if name !in c.pending then c
    else
      c.(pending := c.pending - {name}, closed := c.closed + {name},
         blocked := if why != "" then c.blocked[name := why] else c.blocked)
  }

  /** started: Restart has started it, whatever it was waiting for. */
  function StartedOutside(c: Cells, name: string): Cells {
    var c' := c.(blocked := c.blocked - {name});
    if name in c.pending then c'.(pending := c.pending - {name}, closed := c.closed + {name}) else c'
  }

  function MarkChecked(c: Cells, name: string): Cells {
    c.(checked := c.checked + {name})
  }

  /** What only ever grows: decisions, launched checks and closed gates. */
  ghost predicate CellsGrow(c: Cells, d: Cells) {
    && (forall n :: n in c.decided ==> n in d.decided && d.decided[n] == c.decided[n])
    && c.checked <= d.checked && c.closed <= d.closed && d.pending <= c.pending
    && c.closed + c.pending == d.closed + d.pending
  }

  /** Every lock region keeps the decisions made and the gates closed. */
  lemma CellsOnlyGrow(c: Cells, name: string, v: Verdict, why: string)
    ensures CellsGrow(c, Decide(c, name, v))
    ensures CellsGrow(c, Settle(c, name, why))
    ensures CellsGrow(c, StartedOutside(c, name))
    ensures CellsGrow(c, MarkChecked(c, name))
  {
  }

  // ---------------------------------------------------------------- the struct

  /** The Go struct. A readiness cell is absent, created and undecided (None), or decided. */
  class StartupState {
    var ready: map<string, Option<Verdict>>
    var checked: set<string>
    var gated: map<string, bool>  // gate channel by process: closed or not
    var pending: set<string>
    var blocked: map<string, Reason>

    /** An open gate channel for exactly the pending processes. */
    ghost predicate Valid()
      reads this
    {
      && pending <= gated.Keys
      && forall n :: n in gated ==> (gated[n] <==> n !in pending)
    }

    ghost function State(): Cells
      reads this
    {
      Cells(map n | n in ready && ready[n].Some? :: ready[n].value,
            checked,
            (set n | n in gated && gated[n]),
            pending,
            blocked)
    }

    /** newStartup */
    constructor (procs: Procs)
      ensures Valid() && State() == Initial(procs)
    {
      ready, checked, blocked := map[], {}, map[];
      gated := map n | n in procs && procs[n].dependsOn != [] :: false;
      pending := set n | n in procs && procs[n].dependsOn != [];
    }

    /** Creates the cell if need be; whoever asks first changes nothing others can observe. */
    method ReadinessOf(name: string) returns (cell: Option<Verdict>)
      requires Valid()
      modifies this
      ensures Valid() && State() == old(State())
      ensures name in ready && ready[name] == cell
      ensures cell == if name in State().decided then Some(State().decided[name]) else None
    {
      if name !in ready {
        ready := ready[name := None];
      }
      cell := ready[name];
    }

    method DecideCell(name: string, v: Verdict)
      requires Valid()
      modifies this
      ensures Valid() && State() == Decide(old(State()), name, v)
    {
      var cell := ReadinessOf(name);
      if cell.Some? {
        return;
      }
      ready := ready[name := Some(v)];
    }

    /** The channel is closed only if it was open: closing one twice panics. */
    method CloseGate(name: string)
      requires name in gated && !gated[name]
      modifies this`gated
      ensures gated == old(gated)[name := true]
    {
      gated := gated[name := true];
    }

    method SettleGate(name: string, blockedBecause: string)
      requires Valid()
      modifies this
      ensures Valid() && State() == Settle(old(State()), name, blockedBecause)
    {
      if name !in pending {
        return;
      }
      pending := pending - {name};
      if blockedBecause != "" {
        blocked := blocked[name := blockedBecause];
      }
      CloseGate(name);
    }

    method Started(name: string)
      requires Valid()
      modifies this
      ensures Valid() && State() == StartedOutside(old(State()), name)
    {
      blocked := blocked - {name};
      if name in pending {
        pending := pending - {name};
        CloseGate(name);
      }
    }

    /** The first lock region of checkHealth and awaitService: whether this caller is to check. */
    method ClaimCheck(name: string) returns (claimed: bool)
      requires Valid()
      modifies this
      ensures Valid() && claimed == (name !in old(checked))
      ensures State() == MarkChecked(old(State()), name)
    {
      claimed := name !in checked;
      if claimed {
        checked := checked + {name};
      }
    }

    /** The lock region of halt: what is still waiting. */
    method ListWaiting(order: seq<string>) returns (waiting: seq<string>)
      ensures waiting == Waiting(order, pending)
    {
      waiting := [];
      for i := 0 to |order|
        invariant waiting == Waiting(order[..i], pending)
      {
        assert order[..i + 1][..i] == order[..i];
        if order[i] in pending {
          waiting := waiting + [order[i]];
        }
      }
      assert order[..|order|] == order;
    }

    /** The loop of halt: each is settled on its own, blocked with the cause. */
    method BlockAll(waiting: seq<string>, cause: Reason)
      requires Valid()
      modifies this
      ensures Valid() && State() == SettleAll(old(State()), waiting, cause)
    {
      hide Settle;
      for i := 0 to |waiting|
        invariant Valid() && State() == SettleAll(old(State()), waiting[..i], cause)
      {
        assert waiting[..i + 1][..i] == waiting[..i];
        SettleGate(waiting[i], cause);
      }
      assert waiting[..|waiting|] == waiting;
    }
  }

  /** The pending processes in configured order, as halt lists them. */
  function Waiting(order: seq<string>, pending: set<string>): (w: seq<string>)
    ensures |w| <= |order|
  {
    if order == [] then []
    else
      var last := order[|order| - 1];
      Waiting(order[..|order| - 1], pending) + (if last in pending then [last] else [])
  }

  lemma {:induction false} WaitingHolds(order: seq<string>, pending: set<string>)
    ensures forall n :: n in Waiting(order, pending) <==> n in order && n in pending
  {
    if order != [] {
      WaitingHolds(order[..|order| - 1], pending);
      assert order == order[..|order| - 1] + [order[|order| - 1]];
    }
  }

  function SettleAll(c: Cells, names: seq<string>, why: Reason): Cells {
    if names == [] then c
    else Settle(SettleAll(c, names[..|names| - 1], why), names[|names| - 1], why)
  }

  /** Each is blocked with the cause, and only those are no longer pending. */
  lemma {:induction false} SettleAllBlocks(c: Cells, names: seq<string>, why: Reason)
    ensures SettleAll(c, names, why).pending == c.pending - set n | n in names
    ensures forall n :: n in names && n in c.pending ==>
              n in SettleAll(c, names, why).blocked && SettleAll(c, names, why).blocked[n] == why
  {
    if names != [] {
      SettleAllBlocks(c, names[..|names| - 1], why);
      assert names == names[..|names| - 1] + [names[|names| - 1]];
    }
  }

  /** halt, on its own, leaves nothing pending and every process that was pending blocked. */
  lemma HaltBlocksAllPending(c: Cells, order: seq<string>, why: Reason)
    requires forall n :: n in c.pending ==> n in order
    ensures SettleAll(c, Waiting(order, c.pending), why).pending == {}
    ensures forall n :: n in c.pending ==>
              n in SettleAll(c, Waiting(order, c.pending), why).blocked
              && SettleAll(c, Waiting(order, c.pending), why).blocked[n] == why
  {
    WaitingHolds(order, c.pending);
    SettleAllBlocks(c, Waiting(order, c.pending), why);
  }
}
