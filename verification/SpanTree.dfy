/**
 Flattening a trace into tree order: spanRows of cmd/running-man/tuitrace.go. Span ids are
 distinct; parents need not exist, and may go round in a circle.
 */
module SpanTree {
  import opened Sets
  import opened Wrappers

  datatype Span = Span(id: string, parent: string, start: int)

  ghost predicate DistinctIds(spans: seq<Span>) {
    forall i, j :: 0 <= i < j < |spans| ==> spans[i].id != spans[j].id
  }

  function Ids(spans: seq<Span>): set<string> {
    set s | s in spans :: s.id
  }

  /** The roots: the parents they name, if any, are missing. */
  predicate IsRoot(spans: seq<Span>, s: Span) {
    s.parent !in Ids(spans)
  }

  // ---------------------------------------------------------------- siblings

  function Insert(s: seq<Span>, x: Span): seq<Span> {
    if s == [] || x.start <= s[0].start then [x] + s else [s[0]] + Insert(s[1..], x)
  }

  /** sort.SliceStable by start: of spans that start together, the first given stays first. */
  function ByStart(s: seq<Span>): seq<Span> {
    if s == [] then [] else Insert(ByStart(s[1..]), s[0])
  }

  /** Distinct spans in the order they start. */
  ghost predicate Siblings(s: seq<Span>) {
    forall i, j :: 0 <= i < j < |s| ==> s[i].start <= s[j].start && s[i].id != s[j].id
  }

  lemma NoSiblings()
    ensures Siblings([])
  {
  }

  lemma Cons(x: Span, s: seq<Span>)
    requires Siblings(s) && forall y :: y in s ==> x.start <= y.start && x.id != y.id
    ensures Siblings([x] + s) && forall y :: y in [x] + s <==> y == x || y in s
  {
  }

  lemma Uncons(s: seq<Span>)
    requires Siblings(s) && s != []
    ensures Siblings(s[1..]) && (forall y :: y in s[1..] ==> s[0].start <= y.start && s[0].id != y.id)
    ensures forall y :: y in s <==> y == s[0] || y in s[1..]
  {
  }

  lemma {:induction false} InsertHolds(s: seq<Span>, x: Span)
    requires Siblings(s) && forall y :: y in s ==> y.id != x.id
    ensures Siblings(Insert(s, x)) && forall y :: y in Insert(s, x) <==> y in s || y == x
  {
    hide Siblings;
    if s == [] {
      NoSiblings();
      Cons(x, []);
    } else {
      Uncons(s);
      if x.start <= s[0].start {
        Cons(x, s);
      } else {
        InsertHolds(s[1..], x);
        Cons(s[0], Insert(s[1..], x));
      }
    }
  }

  lemma {:induction false} ByStartHolds(s: seq<Span>)
    requires DistinctIds(s)
    ensures Siblings(ByStart(s)) && forall y :: y in ByStart(s) <==> y in s
  {
    if s == [] {
      NoSiblings();
    } else {
      ByStartHolds(s[1..]);
      assert forall y :: y in s <==> y == s[0] || y in s[1..];
      hide Siblings;
      InsertHolds(ByStart(s[1..]), s[0]);
    }
  }

  /** The spans that start at `t`, in the order given. */
  function StartingAt(s: seq<Span>, t: int): seq<Span> {
    if s == [] then []
    else if s[0].start == t then [s[0]] + StartingAt(s[1..], t) else StartingAt(s[1..], t)
  }

  lemma {:induction false} InsertIsStable(s: seq<Span>, x: Span, t: int)
    ensures StartingAt(Insert(s, x), t) == if x.start == t then [x] + StartingAt(s, t) else StartingAt(s, t)
  {
    if s == [] || x.start <= s[0].start {
      assert ([x] + s)[1..] == s;
    } else {
      assert ([s[0]] + Insert(s[1..], x))[1..] == Insert(s[1..], x);
      InsertIsStable(s[1..], x, t);
    }
  }

  /** Spans that start together stay in the order given. */
  lemma {:induction false} ByStartIsStable(s: seq<Span>, t: int)
    ensures StartingAt(ByStart(s), t) == StartingAt(s, t)
  {
    if s != [] {
      ByStartIsStable(s[1..], t);
      InsertIsStable(ByStart(s[1..]), s[0], t);
    }
  }

  // ---------------------------------------------------------------- children

  function ChildrenOf(spans: seq<Span>, ids: set<string>, parent: string): seq<Span> {
    if spans == [] then []
    else
      var last := spans[|spans| - 1];
      ChildrenOf(spans[..|spans| - 1], ids, parent) + (if last.parent in ids && last.parent == parent then [last] else [])
  }

  function RootsOf(spans: seq<Span>, ids: set<string>): seq<Span> {
    if spans == [] then []
    else
      var last := spans[|spans| - 1];
      RootsOf(spans[..|spans| - 1], ids) + (if last.parent in ids then [] else [last])
  }

  lemma {:induction false} ChildrenHold(spans: seq<Span>, ids: set<string>, parent: string)
    requires DistinctIds(spans)
    ensures DistinctIds(ChildrenOf(spans, ids, parent))
    ensures forall y :: y in ChildrenOf(spans, ids, parent) <==> y in spans && y.parent == parent && parent in ids
  {
    if spans != [] {
      var rest, last := spans[..|spans| - 1], spans[|spans| - 1];
      ChildrenHold(rest, ids, parent);
      assert spans == rest + [last];
      LastIsNew(spans);
      var c := ChildrenOf(rest, ids, parent);
      assert forall i :: 0 <= i < |c| ==> c[i] in c;
    }
  }

  lemma {:induction false} RootsHold(spans: seq<Span>, ids: set<string>)
    requires DistinctIds(spans)
    ensures DistinctIds(RootsOf(spans, ids))
    ensures forall y :: y in RootsOf(spans, ids) <==> y in spans && y.parent !in ids
  {
    if spans != [] {
      var rest, last := spans[..|spans| - 1], spans[|spans| - 1];
      RootsHold(rest, ids);
      assert spans == rest + [last];
      LastIsNew(spans);
      var c := RootsOf(rest, ids);
      assert forall i :: 0 <= i < |c| ==> c[i] in c;
    }
  }

  lemma LastIsNew(spans: seq<Span>)
    requires DistinctIds(spans) && spans != []
    ensures forall y :: y in spans[..|spans| - 1] ==> y.id != spans[|spans| - 1].id
  {
  }

  /** The first loops of spanRows. */
  method Group(spans: seq<Span>, ids: set<string>) returns (children: map<string, seq<Span>>, roots: seq<Span>)
    ensures roots == RootsOf(spans, ids)
    ensures forall p :: (if p in children then children[p] else []) == ChildrenOf(spans, ids, p)
  {
    children, roots := map[], [];
    NothingGrouped(ids);
    assert spans[..0] == [];
    hide RootsOf, ChildrenOf;
    for i := 0 to |spans|
      invariant roots == RootsOf(spans[..i], ids)
      invariant forall p :: (if p in children then children[p] else []) == ChildrenOf(spans[..i], ids, p)
    {
      OneMoreGrouped(spans, ids, i);
      var s := spans[i];
      if s.parent !in ids {
        roots := roots + [s];
      } else {
        children := children[s.parent := (if s.parent in children then children[s.parent] else []) + [s]];
      }
    }
    assert spans[..|spans|] == spans;
  }

  lemma NothingGrouped(ids: set<string>)
    ensures RootsOf([], ids) == [] && forall p :: ChildrenOf([], ids, p) == []
  {
  }

  lemma OneMoreGrouped(spans: seq<Span>, ids: set<string>, i: nat)
    requires i < |spans|
    ensures RootsOf(spans[..i + 1], ids) == RootsOf(spans[..i], ids) + (if spans[i].parent in ids then [] else [spans[i]])
    ensures forall p :: ChildrenOf(spans[..i + 1], ids, p) ==
                        ChildrenOf(spans[..i], ids, p) + (if p in ids && spans[i].parent == p then [spans[i]] else [])
  {
    assert spans[..i + 1][..i] == spans[..i];
  }

  method IdsOf(spans: seq<Span>) returns (ids: set<string>)
    ensures ids == Ids(spans)
  {
    ids := {};
    for i := 0 to |spans|
      invariant ids == Ids(spans[..i])
    {
      assert spans[..i + 1] == spans[..i] + [spans[i]];
      ids := ids + {spans[i].id};
    }
    assert spans[..|spans|] == spans;
  }

  // ---------------------------------------------------------------- trees

  ghost predicate ParentBefore(list: seq<Span>, rows: seq<Span>, j: nat)
    requires j < |rows|
  {
    rows[j] in list || exists i :: 0 <= i < j && rows[i].id == rows[j].parent
  }

  /** Siblings: children of one parent, or the spans the walk began with. */
  predicate SameLevel(list: seq<Span>, x: Span, y: Span) {
    (x in list && y in list) || (x !in list && y !in list && x.parent == y.parent)
  }

  ghost predicate LevelsInOrder(list: seq<Span>, rows: seq<Span>) {
    forall i, j :: 0 <= i < j < |rows| && SameLevel(list, rows[i], rows[j]) ==> rows[i].start <= rows[j].start
  }

  ghost predicate HoldsChildren(spans: seq<Span>, rows: seq<Span>) {
    forall c :: c in spans && c.parent in Ids(rows) ==> c in rows
  }

  /** The parent of row `j` comes at or after row `i`. */
  ghost predicate ParentFrom(rows: seq<Span>, i: nat, j: nat)
    requires i <= j < |rows|
  {
    exists m :: i <= m < j && rows[m].id == rows[j].parent
  }

  /** Between a span and a child of it come only spans below it. */
  ghost predicate Nested(rows: seq<Span>) {
    forall i, j, k :: 0 <= i < j <= k < |rows| && rows[k].parent == rows[i].id ==> ParentFrom(rows, i, j)
  }

  /** `rows` are the spans of `list` and all below them: each once, in tree order, siblings by start. */
  ghost predicate Forest(spans: seq<Span>, list: seq<Span>, rows: seq<Span>) {
    && DistinctIds(rows) && (forall x :: x in rows ==> x in spans) && (forall x :: x in list ==> x in rows)
    && (forall j :: 0 <= j < |rows| ==> ParentBefore(list, rows, j))
    && HoldsChildren(spans, rows) && LevelsInOrder(list, rows) && Nested(rows)
  }

  lemma IdsJoin(a: seq<Span>, b: seq<Span>)
    ensures Ids(a + b) == Ids(a) + Ids(b)
  {
  }

  lemma ParentIn(spans: seq<Span>, list: seq<Span>, rows: seq<Span>, x: Span)
    requires Forest(spans, list, rows) && x in rows
    ensures x in list || x.parent in Ids(rows)
  {
    var j :| 0 <= j < |rows| && rows[j] == x;
    assert ParentBefore(list, rows, j);
  }

  lemma DistinctJoin(a: seq<Span>, b: seq<Span>)
    requires DistinctIds(a) && DistinctIds(b) && Ids(a) !! Ids(b)
    ensures DistinctIds(a + b)
  {
    forall i, j | 0 <= i < |a| <= j < |a + b| ensures (a + b)[i].id != (a + b)[j].id {
      assert (a + b)[i].id in Ids(a) && (a + b)[j].id in Ids(b);
    }
  }

  /** The tree of one more of the list. */
  lemma ForestGrows(spans: seq<Span>, list: seq<Span>, rows: seq<Span>, k: Span, sub: seq<Span>)
    requires Forest(spans, list, rows) && Forest(spans, [k], sub) && Ids(rows) !! Ids(sub)
    requires (forall x :: x in list ==> x.start <= k.start) && k.parent !in Ids(rows)
    ensures Forest(spans, list + [k], rows + sub)
  {
    var all, more := list + [k], rows + sub;
    DistinctJoin(rows, sub);
    IdsJoin(rows, sub);
    hide DistinctIds;
    forall j | 0 <= j < |more| ensures ParentBefore(all, more, j) {
      if j < |rows| {
        assert ParentBefore(list, rows, j);
        if rows[j] !in list {
          var i :| 0 <= i < j && rows[i].id == rows[j].parent;
          assert more[i] == rows[i];
        }
      } else {
        assert ParentBefore([k], sub, j - |rows|);
        if sub[j - |rows|] !in [k] {
          var i :| 0 <= i < j - |rows| && sub[i].id == sub[j - |rows|].parent;
          assert more[i + |rows|] == sub[i];
        }
      }
    }
    LevelsGrow(spans, list, rows, k, sub);
    NestedGrows(spans, list, rows, k, sub);
  }

  lemma NestedGrows(spans: seq<Span>, list: seq<Span>, rows: seq<Span>, k: Span, sub: seq<Span>)
    requires Forest(spans, list, rows) && Forest(spans, [k], sub) && Ids(rows) !! Ids(sub) && k.parent !in Ids(rows)
    ensures Nested(rows + sub)
  {
    var more := rows + sub;
    forall a, b, c | 0 <= a < b <= c < |more| && more[c].parent == more[a].id ensures ParentFrom(more, a, b) {
      if c < |rows| {
        assert ParentFrom(rows, a, b);
        var m :| a <= m < b && rows[m].id == rows[b].parent;
        assert more[m] == rows[m];
      } else {
        ParentIn(spans, [k], sub, more[c]);
        assert forall x :: 0 <= x < |rows| ==> rows[x].id in Ids(rows);
        assert a >= |rows|;
        assert ParentFrom(sub, a - |rows|, b - |rows|);
        var m :| a - |rows| <= m < b - |rows| && sub[m].id == sub[b - |rows|].parent;
        assert more[m + |rows|] == sub[m];
      }
    }
  }

  lemma LevelsGrow(spans: seq<Span>, list: seq<Span>, rows: seq<Span>, k: Span, sub: seq<Span>)
    requires Forest(spans, list, rows) && Forest(spans, [k], sub) && Ids(rows) !! Ids(sub)
    requires forall x :: x in list ==> x.start <= k.start
    ensures LevelsInOrder(list + [k], rows + sub)
  {
    var all, more := list + [k], rows + sub;
    assert forall x :: x in all <==> x in list || x == k;
    forall x | x in rows ensures x != k && x.id in Ids(rows) { assert x.id in Ids(rows); assert k.id in Ids(sub); }
    forall y | y in sub ensures y !in list && y.id in Ids(sub) { assert y.id in Ids(sub); }
    forall i, j | 0 <= i < j < |more| && SameLevel(all, more[i], more[j]) ensures more[i].start <= more[j].start {
      var x, y := more[i], more[j];
      if j < |rows| {
        assert SameLevel(list, rows[i], rows[j]);
      } else if i >= |rows| {
        assert SameLevel([k], sub[i - |rows|], sub[j - |rows|]);
      } else {
        assert x in rows && y in sub;
        if x !in all {
          ParentIn(spans, list, rows, x);
          ParentIn(spans, [k], sub, y);
        }
      }
    }
  }

  /** A span over the trees below its children. */
  lemma TreeOf(spans: seq<Span>, s: Span, kids: seq<Span>, sub: seq<Span>)
    requires Forest(spans, kids, sub) && s in spans && s.id !in Ids(sub) && DistinctIds(spans)
    requires forall c :: c in kids <==> c in spans && c.parent == s.id
    ensures Forest(spans, [s], [s] + sub)
  {
    var rows := [s] + sub;
    IdsJoin([s], sub);
    DistinctJoin([s], sub);
    hide DistinctIds;
    forall j | 0 <= j < |rows| ensures ParentBefore([s], rows, j) {
      if j > 0 {
        assert ParentBefore(kids, sub, j - 1);
        if sub[j - 1] in kids {
          assert rows[0].id == rows[j].parent;
        } else {
          var i :| 0 <= i < j - 1 && sub[i].id == sub[j - 1].parent;
          assert rows[i + 1] == sub[i];
        }
      }
    }
    TreeNested(spans, s, kids, sub);
    assert LevelsInOrder([s], rows) by {
      forall i, j | 0 <= i < j < |rows| && SameLevel([s], rows[i], rows[j]) ensures rows[i].start <= rows[j].start {
        TreeLevels(spans, s, kids, sub, i, j);
      }
    }
  }

  lemma TreeNested(spans: seq<Span>, s: Span, kids: seq<Span>, sub: seq<Span>)
    requires Forest(spans, kids, sub)
    requires forall c :: c in kids <==> c in spans && c.parent == s.id
    ensures Nested([s] + sub)
  {
    hide DistinctIds, HoldsChildren, LevelsInOrder;
    var rows := [s] + sub;
    assert forall x :: 0 < x < |rows| ==> rows[x] == sub[x - 1];
    forall a, b, c | 0 <= a < b <= c < |rows| && rows[c].parent == rows[a].id ensures ParentFrom(rows, a, b) {
      if a == 0 {
        assert ParentBefore(kids, sub, b - 1);
        if sub[b - 1] in kids {
          assert rows[0].id == rows[b].parent;
        } else {
          var m :| 0 <= m < b - 1 && sub[m].id == sub[b - 1].parent;
          assert rows[m + 1] == sub[m];
        }
      } else {
        assert ParentFrom(sub, a - 1, b - 1);
        var m :| a - 1 <= m < b - 1 && sub[m].id == sub[b - 1].parent;
        assert rows[m + 1] == sub[m];
      }
    }
  }

  lemma TreeLevels(spans: seq<Span>, s: Span, kids: seq<Span>, sub: seq<Span>, i: nat, j: nat)
    requires Forest(spans, kids, sub) && s.id !in Ids(sub) && i < j < |[s] + sub|
    requires forall c :: c in kids <==> c in spans && c.parent == s.id
    requires SameLevel([s], ([s] + sub)[i], ([s] + sub)[j])
    ensures ([s] + sub)[i].start <= ([s] + sub)[j].start
  {
  }

  // ---------------------------------------------------------------- the walk

  /** What has been listed holds, with each span, its parent. */
  ghost predicate HoldsParents(spans: seq<Span>, seen: set<string>) {
    forall x :: x in spans && x.id in seen ==> IsRoot(spans, x) || x.parent in seen
  }

  /** A span to walk: not listed yet, its parent listed if it has one. */
  ghost predicate Next(spans: seq<Span>, seen: set<string>, s: Span) {
    s in spans && s.id !in seen && (IsRoot(spans, s) || s.parent in seen)
  }

  ghost function Left(spans: seq<Span>, seen: set<string>): nat {
    |Ids(spans) - seen|
  }

  lemma LeftShrinks(spans: seq<Span>, seen: set<string>, more: set<string>)
    ensures Left(spans, seen + more) <= Left(spans, seen)
    ensures forall x :: x in more && x in Ids(spans) && x !in seen ==> Left(spans, seen + more) < Left(spans, seen)
  {
    var a, b := Ids(spans) - seen, Ids(spans) - (seen + more);
    assert b <= a;
    SubsetCardinality(b, a);
    forall x | x in more && x in Ids(spans) && x !in seen ensures |b| < |a| {
      SubsetCardinality(b, a - {x});
    }
  }

  lemma SeenGrows(spans: seq<Span>, seen: set<string>, list: seq<Span>, rows: seq<Span>)
    requires DistinctIds(spans) && HoldsParents(spans, seen) && Forest(spans, list, rows)
    requires forall x :: x in list ==> IsRoot(spans, x) || x.parent in seen
    ensures HoldsParents(spans, seen + Ids(rows))
  {
    forall x | x in spans && x.id in seen + Ids(rows) ensures IsRoot(spans, x) || x.parent in seen + Ids(rows) {
      if x.id in Ids(rows) {
        var y :| y in rows && y.id == x.id;
        OneById(spans, x, y);
        ParentIn(spans, list, rows, x);
      }
    }
  }

  lemma OneById(spans: seq<Span>, x: Span, y: Span)
    requires DistinctIds(spans) && x in spans && y in spans && x.id == y.id
    ensures x == y
  {
  }

  /** The next of the list has not been listed by the walks before it. */
  lemma StillNext(spans: seq<Span>, seen: set<string>, list: seq<Span>, rows: seq<Span>, i: nat)
    requires DistinctIds(spans) && i < |list| && Siblings(list) && Forest(spans, list[..i], rows) && Ids(rows) !! seen
    requires forall x :: x in list ==> Next(spans, seen, x)
    ensures Next(spans, seen + Ids(rows), list[i])
  {
    var k := list[i];
    assert k in list;
    if k.id in Ids(rows) {
      var y :| y in rows && y.id == k.id;
      OneById(spans, k, y);
      ParentIn(spans, list[..i], rows, k);
    }
  }

  method Walk(spans: seq<Span>, children: map<string, seq<Span>>, s: Span,
              ghost seen: set<string>) returns (rows: seq<Span>)
    requires DistinctIds(spans) && HoldsParents(spans, seen) && Next(spans, seen, s)
    requires forall p :: (if p in children then children[p] else []) == ChildrenOf(spans, Ids(spans), p)
    ensures Forest(spans, [s], rows) && Ids(rows) !! seen
    decreases Left(spans, seen), 0
  {
    var kids := ByStart(if s.id in children then children[s.id] else []);
    ChildrenHold(spans, Ids(spans), s.id);
    ByStartHolds(ChildrenOf(spans, Ids(spans), s.id));
    KidsAreNext(spans, seen, s, kids);
    LeftShrinks(spans, seen, {s.id});
    hide *;
    var sub := WalkAll(spans, children, kids, seen + {s.id});
    TreeOf(spans, s, kids, sub);
    IdsJoin([s], sub);
    OneId(s);
    rows := [s] + sub;
  }

  lemma OneId(s: Span)
    ensures Ids([s]) == {s.id}
  {
  }

  lemma KidsAreNext(spans: seq<Span>, seen: set<string>, s: Span, kids: seq<Span>)
    requires DistinctIds(spans) && HoldsParents(spans, seen) && Next(spans, seen, s)
    requires forall c :: c in kids <==> c in spans && c.parent == s.id && s.id in Ids(spans)
    ensures s in spans && s.id in Ids(spans) && s.id !in seen && HoldsParents(spans, seen + {s.id})
    ensures forall c :: c in kids ==> Next(spans, seen + {s.id}, c)
    ensures forall c :: c in kids <==> c in spans && c.parent == s.id
  {
  }

  method WalkAll(spans: seq<Span>, children: map<string, seq<Span>>, list: seq<Span>, ghost seen: set<string>)
    returns (rows: seq<Span>)
    requires DistinctIds(spans) && HoldsParents(spans, seen) && Siblings(list)
    requires forall x :: x in list ==> Next(spans, seen, x)
    requires forall p :: (if p in children then children[p] else []) == ChildrenOf(spans, Ids(spans), p)
    ensures Forest(spans, list, rows) && Ids(rows) !! seen
    decreases Left(spans, seen), 1
  {
    rows := [];
    NoForest(spans, list);
    hide *;
    for i := 0 to |list|
      invariant Forest(spans, list[..i], rows) && Ids(rows) !! seen
    {
      StepsAlong(spans, seen, list, rows, i);
      LeftShrinks(spans, seen, Ids(rows));
      var sub := Walk(spans, children, list[i], seen + Ids(rows));
      TreeAdded(spans, list, i, rows, sub);
      rows := rows + sub;
    }
    WholeList(list);
  }

  lemma NoForest(spans: seq<Span>, list: seq<Span>)
    ensures Forest(spans, list[..0], []) && Ids([]) == {}
  {
  }

  lemma WholeList(list: seq<Span>)
    ensures list[..|list|] == list
  {
  }

  lemma TreeAdded(spans: seq<Span>, list: seq<Span>, i: nat, rows: seq<Span>, sub: seq<Span>)
    requires i < |list| && Forest(spans, list[..i], rows) && Forest(spans, [list[i]], sub) && Ids(rows) !! Ids(sub)
    requires (forall x :: x in list[..i] ==> x.start <= list[i].start) && list[i].parent !in Ids(rows)
    ensures Forest(spans, list[..i + 1], rows + sub) && Ids(rows + sub) == Ids(rows) + Ids(sub)
  {
    hide *;
    assert list[..i + 1] == list[..i] + [list[i]];
    ForestGrows(spans, list[..i], rows, list[i], sub);
    IdsJoin(rows, sub);
  }

  lemma StepsAlong(spans: seq<Span>, seen: set<string>, list: seq<Span>, rows: seq<Span>, i: nat)
    requires DistinctIds(spans) && HoldsParents(spans, seen) && Siblings(list) && i < |list|
    requires Forest(spans, list[..i], rows) && Ids(rows) !! seen
    requires forall x :: x in list ==> Next(spans, seen, x)
    ensures HoldsParents(spans, seen + Ids(rows)) && Next(spans, seen + Ids(rows), list[i]) && list[i].parent !in Ids(rows)
    ensures forall x :: x in list[..i] ==> x.start <= list[i].start
  {
    StillNext(spans, seen, list, rows, i);
    assert list[i] in list && Ids(rows) <= Ids(spans);
    hide Forest;
    forall x | x in list[..i] ensures IsRoot(spans, x) || x.parent in seen {
      assert x in list;
    }
    SeenGrows(spans, seen, list[..i], rows);
  }

  /** spanRows: a forest over the roots. */
  method SpanRows(spans: seq<Span>) returns (rows: seq<Span>)
    requires DistinctIds(spans)
    ensures exists roots :: && (forall x :: x in roots <==> x in spans && IsRoot(spans, x))
                            && Siblings(roots) && Forest(spans, roots, rows)
  {
    var ids := IdsOf(spans);
    var children, roots := Group(spans, ids);
    RootsHold(spans, ids);
    ByStartHolds(roots);
    hide DistinctIds, Siblings, Forest, ByStart;
    var sorted := ByStart(roots);
    rows := WalkAll(spans, children, sorted, {});
  }

  // ---------------------------------------------------------------- which spans are listed

  /** The parent each span names. */
  ghost predicate ParentMap(spans: seq<Span>, par: map<string, string>) {
    par.Keys == Ids(spans) && forall s :: s in spans ==> par[s.id] == s.parent
  }

  /** Walking up from `x`, `n` parents lead to a root. */
  ghost predicate Rooted(par: map<string, string>, x: string, n: nat)
    decreases n
  {
    x in par && if par[x] !in par then n == 0 else n > 0 && Rooted(par, par[x], n - 1)
  }

  /** The `n`-th parent. */
  function Up(par: map<string, string>, x: string, n: nat): Option<string>
    decreases n
  {
    if x !in par then None else if n == 0 then Some(x) else Up(par, par[x], n - 1)
  }

  /** A parent of its own parents. */
  ghost predicate OnCycle(par: map<string, string>, x: string) {
    exists n: nat :: n > 0 && Up(par, x, n) == Some(x)
  }

  ghost predicate InOrBelowCycle(par: map<string, string>, x: string) {
    exists m: nat :: Up(par, x, m).Some? && OnCycle(par, Up(par, x, m).value)
  }

  lemma {:induction false} UpJoins(par: map<string, string>, x: string, m: nat, n: nat)
    requires Up(par, x, m).Some?
    ensures Up(par, x, m + n) == Up(par, Up(par, x, m).value, n)
    decreases m
  {
    if m > 0 {
      UpJoins(par, par[x], m - 1, n);
    }
  }

  lemma {:induction false} RootedAbove(par: map<string, string>, x: string, n: nat, k: nat)
    requires Rooted(par, x, n) && Up(par, x, k).Some?
    ensures k <= n && Rooted(par, Up(par, x, k).value, n - k)
    decreases k
  {
    if k > 0 {
      RootedAbove(par, par[x], n - 1, k - 1);
    }
  }

  lemma {:induction false} DepthIsUnique(par: map<string, string>, x: string, m: nat, n: nat)
    requires Rooted(par, x, m) && Rooted(par, x, n)
    ensures m == n
    decreases m
  {
    if par[x] in par {
      DepthIsUnique(par, par[x], m - 1, n - 1);
    }
  }

  ghost predicate IsRooted(par: map<string, string>, x: string) {
    exists n: nat :: Rooted(par, x, n)
  }

  lemma {:induction false} RootedOrFurther(par: map<string, string>, x: string, n: nat)
    requires x in par
    ensures Up(par, x, n).Some? || IsRooted(par, x)
    decreases n
  {
    if par[x] !in par {
      assert Rooted(par, x, 0);
    } else if n > 0 {
      RootedOrFurther(par, par[x], n - 1);
      if IsRooted(par, par[x]) {
        var k: nat :| Rooted(par, par[x], k);
        assert Rooted(par, x, k + 1);
      }
    }
  }

  /** Among the first `m` places on the way up. */
  ghost predicate Been(par: map<string, string>, x: string, m: nat, y: string) {
    exists i: nat :: i < m && Up(par, x, i) == Some(y)
  }

  lemma BeenOneMore(par: map<string, string>, x: string, m: nat, y: string)
    ensures Been(par, x, m + 1, y) <==> Been(par, x, m, y) || Up(par, x, m) == Some(y)
  {
  }

  /** Walking up without end comes back to where it has been; `seen` are the first `m` places. */
  lemma {:induction false} ComesBack(par: map<string, string>, x: string, m: nat, seen: set<string>)
    requires forall n: nat :: Up(par, x, n).Some?
    requires forall y :: y in seen <==> Been(par, x, m, y)
    ensures InOrBelowCycle(par, x)
    decreases |par.Keys - seen|
  {
    assert Up(par, x, m).Some?;
    var now := Up(par, x, m).value;
    UpStays(par, x, m);
    if now in seen {
      var i: nat :| i < m && Up(par, x, i) == Some(now);
      UpJoins(par, x, i, m - i);
      assert OnCycle(par, now);
    } else {
      assert par.Keys - (seen + {now}) == par.Keys - seen - {now};
      hide Been, Up;
      forall y ensures y in seen + {now} <==> Been(par, x, m + 1, y) {
        BeenOneMore(par, x, m, y);
      }
      ComesBack(par, x, m + 1, seen + {now});
    }
  }

  lemma {:induction false} UpStays(par: map<string, string>, x: string, n: nat)
    requires Up(par, x, n).Some?
    ensures Up(par, x, n).value in par
    decreases n
  {
    if n > 0 {
      UpStays(par, par[x], n - 1);
    }
  }

  lemma CycleHasNoRoot(par: map<string, string>, x: string)
    requires InOrBelowCycle(par, x)
    ensures !IsRooted(par, x)
  {
    if n: nat :| Rooted(par, x, n) {
      var m: nat :| Up(par, x, m).Some? && OnCycle(par, Up(par, x, m).value);
      var y := Up(par, x, m).value;
      RootedAbove(par, x, n, m);
      var k: nat :| k > 0 && Up(par, y, k) == Some(y);
      RootedAbove(par, y, n - m, k);
      DepthIsUnique(par, y, n - m, n - m - k);
    }
  }

  /** A span reaches no root exactly when it is in, or below, a circle of parents. */
  lemma UnrootedIffCycle(par: map<string, string>, x: string)
    requires x in par
    ensures IsRooted(par, x) <==> !InOrBelowCycle(par, x)
  {
    hide IsRooted, InOrBelowCycle;
    if InOrBelowCycle(par, x) {
      CycleHasNoRoot(par, x);
    } else if !IsRooted(par, x) {
      forall n: nat ensures Up(par, x, n).Some? {
        RootedOrFurther(par, x, n);
      }
      ComesBack(par, x, 0, {});
    }
  }

  /** The rows are exactly the spans that are neither in nor below a circle of parents. */
  lemma RowsAreTheRooted(spans: seq<Span>, roots: seq<Span>, rows: seq<Span>, par: map<string, string>, s: Span)
    requires Forest(spans, roots, rows) && ParentMap(spans, par) && s in spans
    requires forall x :: x in roots <==> x in spans && IsRoot(spans, x)
    ensures s in rows <==> !InOrBelowCycle(par, s.id)
  {
    UnrootedIffCycle(par, s.id);
    hide InOrBelowCycle, DistinctIds, LevelsInOrder, Nested;
    if s in rows {
      var j :| 0 <= j < |rows| && rows[j] == s;
      RowIsRooted(spans, roots, rows, par, j);
    } else if IsRooted(par, s.id) {
      var n: nat :| Rooted(par, s.id, n);
      RootedIsRow(spans, roots, rows, par, s, n);
    }
  }

  lemma {:induction false} RowIsRooted(spans: seq<Span>, roots: seq<Span>, rows: seq<Span>, par: map<string, string>,
                                       j: nat)
    requires ParentMap(spans, par) && j < |rows| && forall x :: x in rows ==> x in spans
    requires forall i :: 0 <= i < |rows| ==> ParentBefore(roots, rows, i)
    requires forall x :: x in roots ==> x in spans && IsRoot(spans, x)
    ensures IsRooted(par, rows[j].id)
  {
    assert rows[j] in rows && rows[j].id in par && ParentBefore(roots, rows, j);
    if rows[j] in roots {
      assert Rooted(par, rows[j].id, 0);
    } else {
      var i :| 0 <= i < j && rows[i].id == rows[j].parent;
      RowIsRooted(spans, roots, rows, par, i);
      assert rows[i] in rows;
      var m: nat :| Rooted(par, rows[i].id, m);
      assert Rooted(par, rows[j].id, m + 1);
    }
  }

  lemma {:induction false} RootedIsRow(spans: seq<Span>, roots: seq<Span>, rows: seq<Span>, par: map<string, string>,
                                       s: Span, n: nat)
    requires HoldsChildren(spans, rows) && (forall x :: x in roots ==> x in rows)
    requires ParentMap(spans, par) && s in spans && Rooted(par, s.id, n)
    requires forall x :: x in spans && IsRoot(spans, x) ==> x in roots
    ensures s in rows
    decreases n
  {
    if n > 0 {
      var p :| p in spans && p.id == s.parent;
      RootedIsRow(spans, roots, rows, par, p, n - 1);
    }
  }
}
