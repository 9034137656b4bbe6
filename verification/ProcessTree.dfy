/**
 The two searches of the process table: processTrees of internal/process/ports.go, breadth
 first from several roots, and the descendant set of findAndKillChildProcesses in
 wrapper.go, repeated until nothing changes. A snapshot has one row for each pid.
 */
module ProcessTree {
  import opened Wrappers

  datatype Row = Row(pid: int, ppid: int, started: string)

  ghost predicate OneRowEach(rows: seq<Row>) {
    forall i, j :: 0 <= i < j < |rows| ==> rows[i].pid != rows[j].pid
  }

  /** Each process's parent. */
  type Parents = map<int, int>

  ghost function ParentsOf(rows: seq<Row>): Parents {
    if rows == [] then map[] else ParentsOf(rows[..|rows| - 1])[rows[|rows| - 1].pid := rows[|rows| - 1].ppid]
  }

  lemma {:induction false} ParentIs(rows: seq<Row>, i: nat)
    requires OneRowEach(rows) && i < |rows|
    ensures rows[i].pid in ParentsOf(rows) && ParentsOf(rows)[rows[i].pid] == rows[i].ppid
  {
    if i < |rows| - 1 {
      ParentIs(rows[..|rows| - 1], i);
    }
  }

  lemma {:induction false} RowOf(rows: seq<Row>, p: int) returns (i: nat)
    requires OneRowEach(rows) && p in ParentsOf(rows)
    ensures i < |rows| && rows[i].pid == p && rows[i].ppid == ParentsOf(rows)[p]
  {
    var last := |rows| - 1;
    if rows[last].pid == p {
      return last;
    }
    i := RowOf(rows[..last], p);
  }

  /** Walking up from `p`, the first root met is `r`, after `n` parents. */
  ghost predicate FirstRoot(par: Parents, roots: set<int>, p: int, r: int, n: nat)
    decreases n
  {
    if p in roots then p == r && n == 0
    else n > 0 && p in par && FirstRoot(par, roots, par[p], r, n - 1)
  }

  ghost predicate NearestRoot(par: Parents, roots: set<int>, p: int, r: int) {
    exists n: nat :: FirstRoot(par, roots, p, r, n)
  }

  lemma {:induction false} NearestRootIsUnique(par: Parents, roots: set<int>, p: int, r: int, m: nat, s: int, n: nat)
    requires FirstRoot(par, roots, p, r, m) && FirstRoot(par, roots, p, s, n)
    ensures r == s
    decreases m
  {
    if p !in roots {
      NearestRootIsUnique(par, roots, par[p], r, m - 1, s, n - 1);
    }
  }

  lemma ChildHasSameRoot(par: Parents, roots: set<int>, c: int, r: int)
    requires c !in roots && c in par && NearestRoot(par, roots, par[c], r)
    ensures NearestRoot(par, roots, c, r)
  {
    var n: nat :| FirstRoot(par, roots, par[c], r, n);
    assert FirstRoot(par, roots, c, r, n + 1);
  }

  /** Whatever holds the roots, and with each process its children, holds all below the roots. */
  lemma {:induction false} ClosedHoldsAll(par: Parents, roots: set<int>, s: set<int>, p: int, r: int, n: nat)
    requires roots <= s && (forall c :: c in par && par[c] in s ==> c in s) && FirstRoot(par, roots, p, r, n)
    ensures p in s
    decreases n
  {
    if p !in roots {
      ClosedHoldsAll(par, roots, s, par[p], r, n - 1);
    }
  }

  // ---------------------------------------------------------------- processTrees

  function ChildrenOf(rows: seq<Row>, p: int): seq<int> {
    if rows == [] then []
    else ChildrenOf(rows[..|rows| - 1], p) + (if rows[|rows| - 1].ppid == p then [rows[|rows| - 1].pid] else [])
  }

  lemma {:induction false} ChildrenHold(rows: seq<Row>, p: int, c: int)
    ensures c in ChildrenOf(rows, p) <==> exists i :: 0 <= i < |rows| && rows[i].pid == c && rows[i].ppid == p
  {
    if rows != [] {
      var rest := rows[..|rows| - 1];
      ChildrenHold(rest, p, c);
      assert forall i :: 0 <= i < |rest| ==> rest[i] == rows[i];
    }
  }

  lemma ChildrenAre(rows: seq<Row>, p: int)
    requires OneRowEach(rows)
    ensures forall c :: c in ChildrenOf(rows, p) <==> c in ParentsOf(rows) && ParentsOf(rows)[c] == p
  {
    hide ParentsOf, ChildrenOf, OneRowEach;
    forall c ensures c in ChildrenOf(rows, p) <==> c in ParentsOf(rows) && ParentsOf(rows)[c] == p {
      ChildrenHold(rows, p, c);
      if c in ChildrenOf(rows, p) {
        var i :| 0 <= i < |rows| && rows[i].pid == c && rows[i].ppid == p;
        ParentIs(rows, i);
      } else if c in ParentsOf(rows) {
        var i := RowOf(rows, c);
      }
    }
  }

  method GroupByParent(rows: seq<Row>) returns (children: map<int, seq<int>>)
    ensures forall p :: (if p in children then children[p] else []) == ChildrenOf(rows, p)
  {
    children := map[];
    for i := 0 to |rows|
      invariant forall p :: (if p in children then children[p] else []) == ChildrenOf(rows[..i], p)
    {
      assert rows[..i + 1][..i] == rows[..i];
      var e := rows[i];
      children := children[e.ppid := (if e.ppid in children then children[e.ppid] else []) + [e.pid]];
    }
    assert rows[..|rows|] == rows;
  }

  /** Owned pids have their nearest root, and a pid already searched has its children owned. */
  ghost predicate OwnerOk(par: Parents, roots: set<int>, owner: map<int, int>) {
    && roots <= owner.Keys
    && forall p :: p in owner ==> NearestRoot(par, roots, p, owner[p])
  }

  ghost predicate Searched(par: Parents, owner: map<int, int>, p: int) {
    forall c :: c in par && par[c] == p ==> c in owner
  }

  /** What is left to own. */
  ghost function Unowned(par: Parents, owned: set<int>): nat {
    |par.Keys - owned|
  }

  lemma OwnedOne(par: Parents, owned: set<int>, c: int)
    requires c in par && c !in owned
    ensures Unowned(par, owned + {c}) < Unowned(par, owned)
  {
    assert par.Keys - owned == (par.Keys - (owned + {c})) + {c};
  }

  function SetOf(s: seq<int>): set<int> {
    set x | x in s
  }

  /** A process of the queue: its children not owned yet are, and join the queue. */
  method Visit(ghost par: Parents, ghost roots: set<int>, owner: map<int, int>, queue: seq<int>, kids: seq<int>,
               root: int, ghost p: int)
    returns (owner': map<int, int>, queue': seq<int>)
    requires OwnerOk(par, roots, owner) && p in owner && owner[p] == root
    requires forall c :: c in kids <==> c in par && par[c] == p
    ensures OwnerOk(par, roots, owner') && Searched(par, owner', p)
    ensures owner.Keys <= owner'.Keys && forall x :: x in owner ==> owner'[x] == owner[x]
    ensures forall x :: x in owner' && x !in owner ==> owner'[x] == root && x in queue'
    ensures forall x :: x in queue ==> x in queue'
    ensures forall x :: x in queue' ==> x in queue || (x in owner' && owner'[x] == root)
    ensures if owner' == owner then queue' == queue else Unowned(par, owner'.Keys) < Unowned(par, owner.Keys)
  {
    hide NearestRoot, Unowned;
    owner', queue' := owner, queue;
    for i := 0 to |kids|
      invariant OwnerOk(par, roots, owner')
      invariant owner.Keys <= owner'.Keys && forall x :: x in owner ==> owner'[x] == owner[x]
      invariant forall x :: x in owner' && x !in owner ==> owner'[x] == root && x in queue'
      invariant forall x :: x in queue ==> x in queue'
      invariant forall x :: x in queue' ==> x in queue || (x in owner' && owner'[x] == root)
      invariant if owner' == owner then queue' == queue else Unowned(par, owner'.Keys) < Unowned(par, owner.Keys)
      invariant forall j :: 0 <= j < i ==> kids[j] in owner'
    {
      var c := kids[i];
      if c !in owner' {
        assert c in kids;
        ChildHasSameRoot(par, roots, c, root);
        OwnedOne(par, owner'.Keys, c);
        assert owner'[c := root].Keys == owner'.Keys + {c};
        owner' := owner'[c := root];
        queue' := queue' + [c];
      }
    }
  }

  /** Every owned process whose root has had its turn is searched, or waits in the queue. */
  ghost predicate TurnsOk(par: Parents, owner: map<int, int>, turns: seq<int>, queue: seq<int>) {
    forall p :: p in owner ==> if owner[p] in turns then p in queue || Searched(par, owner, p) else owner[p] == p
  }

  lemma TurnBegins(par: Parents, owner: map<int, int>, turns: seq<int>, root: int)
    requires TurnsOk(par, owner, turns, [])
    ensures TurnsOk(par, owner, turns + [root], [root])
  {
  }

  lemma VisitKeepsTurns(par: Parents, owner: map<int, int>, turns: seq<int>, queue: seq<int>, owner': map<int, int>,
                        queue': seq<int>)
    requires queue != [] && TurnsOk(par, owner, turns, queue)
    requires owner.Keys <= owner'.Keys && forall x :: x in owner ==> owner'[x] == owner[x]
    requires queue[0] in owner && owner[queue[0]] in turns && Searched(par, owner', queue[0])
    requires forall x :: x in owner' && x !in owner ==> owner'[x] == owner[queue[0]] && x in queue'
    requires forall x :: x in queue[1..] ==> x in queue'
    ensures TurnsOk(par, owner', turns, queue')
  {
  }

  /** Breadth first below one root. */
  method Search(rows: seq<Row>, ghost roots: set<int>, owned: map<int, int>, children: map<int, seq<int>>,
                ghost turns: seq<int>, root: int)
    returns (owner: map<int, int>)
    requires OneRowEach(rows) && forall p :: (if p in children then children[p] else []) == ChildrenOf(rows, p)
    requires OwnerOk(ParentsOf(rows), roots, owned) && TurnsOk(ParentsOf(rows), owned, turns, [root])
    requires root in owned && owned[root] == root && root in turns
    ensures OwnerOk(ParentsOf(rows), roots, owner) && TurnsOk(ParentsOf(rows), owner, turns, [])
    ensures owned.Keys <= owner.Keys && forall x :: x in owned ==> owner[x] == owned[x]
  {
    hide OwnerOk, TurnsOk, Searched, Unowned, ParentsOf, ChildrenOf, OneRowEach;
    owner := owned;
    var queue := [root];
    ghost var par := ParentsOf(rows);
    while |queue| > 0
      invariant OwnerOk(par, roots, owner) && TurnsOk(par, owner, turns, queue)
      invariant forall x :: x in queue ==> x in owner && owner[x] == root
      invariant owned.Keys <= owner.Keys && forall x :: x in owned ==> owner[x] == owned[x]
      decreases Unowned(par, owner.Keys), |queue|
    {
      var p := queue[0];
      ChildrenAre(rows, p);
      var kids := if p in children then children[p] else [];
      var owner', queue' := Visit(par, roots, owner, queue[1..], kids, root, p);
      VisitKeepsTurns(par, owner, turns, queue, owner', queue');
      owner, queue := owner', queue';
    }
  }

  lemma RootsOwnThemselves(par: Parents, roots: set<int>, owner: map<int, int>)
    requires owner == map r | r in roots :: r
    ensures OwnerOk(par, roots, owner) && TurnsOk(par, owner, [], [])
  {
    forall r | r in roots ensures NearestRoot(par, roots, r, r) {
      assert FirstRoot(par, roots, r, r, 0);
    }
  }

  lemma RootIsOwned(par: Parents, roots: set<int>, owner: map<int, int>, root: int)
    requires OwnerOk(par, roots, owner) && root in roots
    ensures root in owner && owner[root] == root
  {
  }

  lemma AllOwned(par: Parents, roots: seq<int>, owner: map<int, int>, p: int, r: int)
    requires OwnerOk(par, SetOf(roots), owner) && TurnsOk(par, owner, roots, [])
    ensures p in owner && owner[p] == r <==> NearestRoot(par, SetOf(roots), p, r)
  {
    if NearestRoot(par, SetOf(roots), p, r) {
      var n: nat :| FirstRoot(par, SetOf(roots), p, r, n);
      forall q | q in owner ensures Searched(par, owner, q) {
        var m: nat :| FirstRoot(par, SetOf(roots), q, owner[q], m);
        RootIsRoot(par, SetOf(roots), q, owner[q], m);
      }
      ClosedHoldsAll(par, SetOf(roots), owner.Keys, p, r, n);
      var m: nat :| FirstRoot(par, SetOf(roots), p, owner[p], m);
      NearestRootIsUnique(par, SetOf(roots), p, r, n, owner[p], m);
    }
  }

  lemma {:induction false} RootIsRoot(par: Parents, roots: set<int>, p: int, r: int, n: nat)
    requires FirstRoot(par, roots, p, r, n)
    ensures r in roots
    decreases n
  {
    if p !in roots {
      RootIsRoot(par, roots, par[p], r, n - 1);
    }
  }

  /** processTrees: the roots and all below them, each with its nearest root, whatever the order of either list. */
  method ProcessTrees(roots: seq<int>, snapshot: Option<seq<Row>>) returns (owner: map<int, int>)
    requires snapshot.Some? ==> OneRowEach(snapshot.value)
    ensures snapshot.None? ==> owner == map r | r in SetOf(roots) :: r
    ensures snapshot.Some? ==>
              forall p, r :: p in owner && owner[p] == r <==> NearestRoot(ParentsOf(snapshot.value), SetOf(roots), p, r)
  {
    owner := map[];
    for i := 0 to |roots|
      invariant owner == map r | r in SetOf(roots[..i]) :: r
    {
      owner := owner[roots[i] := roots[i]];
      assert roots[..i + 1] == roots[..i] + [roots[i]];
    }
    assert roots[..|roots|] == roots;
    if snapshot.None? {
      return;
    }
    var rows := snapshot.value;
    ghost var par, all := ParentsOf(rows), SetOf(roots);
    RootsOwnThemselves(par, all, owner);
    var children := GroupByParent(rows);
    hide NearestRoot, OwnerOk, TurnsOk, ParentsOf, ChildrenOf;
    for i := 0 to |roots|
      invariant OwnerOk(par, all, owner) && TurnsOk(par, owner, roots[..i], [])
    {
      assert roots[..i + 1] == roots[..i] + [roots[i]];
      TurnBegins(par, owner, roots[..i], roots[i]);
      RootIsOwned(par, all, owner, roots[i]);
      owner := Search(rows, all, owner, children, roots[..i + 1], roots[i]);
    }
    assert roots[..|roots|] == roots;
    forall p, r ensures p in owner && owner[p] == r <==> NearestRoot(par, all, p, r) {
      AllOwned(par, roots, owner, p, r);
    }
  }

  // ---------------------------------------------------------------- findAndKillChildProcesses

  /** Walking up from `p` meets the root, after one parent or more. */
  ghost predicate Below(par: Parents, root: int, p: int, n: nat)
    decreases n
  {
    p in par && (par[p] == root || (n > 0 && Below(par, root, par[p], n - 1)))
  }

  ghost predicate IsBelow(par: Parents, root: int, p: int) {
    exists n: nat :: Below(par, root, p, n)
  }

  lemma ChildIsBelow(par: Parents, root: int, c: int)
    requires c in par && (par[c] == root || IsBelow(par, root, par[c]))
    ensures IsBelow(par, root, c)
  {
    if par[c] == root {
      assert Below(par, root, c, 0);
    } else {
      var n: nat :| Below(par, root, par[c], n);
      assert Below(par, root, c, n + 1);
    }
  }

  lemma {:induction false} FixpointHoldsAll(par: Parents, root: int, s: set<int>, p: int, n: nat)
    requires Below(par, root, p, n) && forall c :: c in par && (par[c] == root || par[c] in s) ==> c in s
    ensures p in s
    decreases n
  {
    if par[p] != root {
      FixpointHoldsAll(par, root, s, par[p], n - 1);
    }
  }

  ghost predicate FoundOk(rows: seq<Row>, parent: int, found: map<int, string>) {
    && (forall p :: p in found ==> IsBelow(ParentsOf(rows), parent, p))
    && forall i :: 0 <= i < |rows| && rows[i].pid in found ==> found[rows[i].pid] == rows[i].started
  }

  /** Nothing in the first `n` rows is left to find. */
  ghost predicate Settled(rows: seq<Row>, n: nat, parent: int, found: map<int, string>)
    requires n <= |rows|
  {
    forall i :: 0 <= i < n && (rows[i].ppid == parent || rows[i].ppid in found) ==> rows[i].pid in found
  }

  lemma FindOne(rows: seq<Row>, parent: int, found: map<int, string>, i: nat)
    requires OneRowEach(rows) && FoundOk(rows, parent, found) && i < |rows|
    requires rows[i].pid !in found && (rows[i].ppid == parent || rows[i].ppid in found)
    ensures FoundOk(rows, parent, found[rows[i].pid := rows[i].started])
    ensures Unowned(ParentsOf(rows), found.Keys + {rows[i].pid}) < Unowned(ParentsOf(rows), found.Keys)
  {
    hide IsBelow, ParentsOf, Unowned;
    ParentIs(rows, i);
    ChildIsBelow(ParentsOf(rows), parent, rows[i].pid);
    OwnedOne(ParentsOf(rows), found.Keys, rows[i].pid);
  }

  /** One turn of the loop: over every row, with what this turn finds in view. */
  method OnePass(rows: seq<Row>, parent: int, before: map<int, string>) returns (found: map<int, string>, changed: bool)
    requires OneRowEach(rows) && FoundOk(rows, parent, before)
    ensures FoundOk(rows, parent, found)
    ensures if changed then Unowned(ParentsOf(rows), found.Keys) < Unowned(ParentsOf(rows), before.Keys)
            else found == before && Settled(rows, |rows|, parent, found)
  {
    hide FoundOk, Unowned, ParentsOf;
    found, changed := before, false;
    for i := 0 to |rows|
      invariant FoundOk(rows, parent, found)
      invariant if changed then Unowned(ParentsOf(rows), found.Keys) < Unowned(ParentsOf(rows), before.Keys)
                else found == before && Settled(rows, i, parent, found)
    {
      var e := rows[i];
      if e.pid in found {
        continue;
      }
      if e.ppid == parent || e.ppid in found {
        FindOne(rows, parent, found, i);
        assert found[e.pid := e.started].Keys == found.Keys + {e.pid};
        found := found[e.pid := e.started];
        changed := true;
      }
    }
  }

  /** The loop over the snapshot until nothing changes: it ends, with exactly the processes below the parent. */
  method Descendants(rows: seq<Row>, parent: int) returns (found: map<int, string>)
    requires OneRowEach(rows)
    ensures FoundOk(rows, parent, found) && forall p :: p in found <==> IsBelow(ParentsOf(rows), parent, p)
  {
    found := map[];
    var changed := true;
    assert FoundOk(rows, parent, found);
    while changed
      invariant FoundOk(rows, parent, found) && (!changed ==> Settled(rows, |rows|, parent, found))
      decreases Unowned(ParentsOf(rows), found.Keys), changed
    {
      found, changed := OnePass(rows, parent, found);
    }
    hide IsBelow;
    forall p | IsBelow(ParentsOf(rows), parent, p) ensures p in found {
      AllFound(rows, parent, found, p);
    }
  }

  lemma AllFound(rows: seq<Row>, parent: int, found: map<int, string>, p: int)
    requires OneRowEach(rows) && IsBelow(ParentsOf(rows), parent, p) && Settled(rows, |rows|, parent, found)
    ensures p in found
  {
    var par := ParentsOf(rows);
    hide ParentsOf;
    var n: nat :| Below(par, parent, p, n);
    forall c | c in par && (par[c] == parent || par[c] in found) ensures c in found {
      var i := RowOf(rows, c);
    }
    FixpointHoldsAll(par, parent, found.Keys, p, n);
  }

  // ---------------------------------------------------------------- the two agree

  lemma {:induction false} BelowHasRoot(par: Parents, root: int, p: int, n: nat)
    requires Below(par, root, p, n)
    ensures NearestRoot(par, {root}, p, root)
    decreases n
  {
    assert FirstRoot(par, {root}, root, root, 0);
    if p != root {
      if par[p] != root {
        BelowHasRoot(par, root, par[p], n - 1);
      }
      ChildHasSameRoot(par, {root}, p, root);
    }
  }

  lemma {:induction false} RootedIsBelow(par: Parents, root: int, p: int, r: int, n: nat)
    requires FirstRoot(par, {root}, p, r, n)
    ensures r == root && (p == root || IsBelow(par, root, p))
    decreases n
  {
    if p != root {
      RootedIsBelow(par, root, par[p], r, n - 1);
      ChildIsBelow(par, root, p);
    }
  }

  /** For one root, the processes to kill are those the search finds, the root aside. */
  lemma FixpointIsSearch(rows: seq<Row>, root: int, owner: map<int, int>, found: map<int, string>)
    requires forall p, r :: p in owner && owner[p] == r <==> NearestRoot(ParentsOf(rows), {root}, p, r)
    requires forall p :: p in found <==> IsBelow(ParentsOf(rows), root, p)
    ensures owner.Keys == found.Keys + {root}
  {
    var par := ParentsOf(rows);
    assert FirstRoot(par, {root}, root, root, 0);
    assert NearestRoot(par, {root}, root, root);
    forall p | p in found ensures p in owner {
      var n: nat :| Below(par, root, p, n);
      BelowHasRoot(par, root, p, n);
    }
    forall p | p in owner && p != root ensures p in found {
      var r := owner[p];
      assert NearestRoot(par, {root}, p, r);
      var n: nat :| FirstRoot(par, {root}, p, owner[p], n);
      RootedIsBelow(par, root, p, owner[p], n);
    }
  }
}
