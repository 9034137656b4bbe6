/**
 Trim of internal/tracing/traces.go: which attribute values of a span are kept within a
 byte budget. Values are bytes; keys are compared as Go compares strings.
 */
module Trimming {
  import opened ByteStrings
  import opened GoStrings

  // ---------------------------------------------------------------- cutValue

  /** utf8.RuneStart: not a continuation byte. */
  predicate RuneStart(b: Byte) {
    !(0x80 <= b < 0xC0)
  }

  const ELLIPSIS: Bytes := [0xE2, 0x80, 0xA6]

  /** The last place at or before `i` where a character starts. */
  function Boundary(v: Bytes, i: nat): (b: nat)
    requires i < |v|
    ensures b <= i && (b == 0 || RuneStart(v[b])) && forall j :: b < j <= i ==> !RuneStart(v[j])
  {
    if i == 0 || RuneStart(v[i]) then i else Boundary(v, i - 1)
  }

  function Cut(v: Bytes, limit: nat): Bytes {
    if |v| <= limit then v else v[..Boundary(v, limit)] + ELLIPSIS
  }

  method CutValue(v: Bytes, limit: nat) returns (r: Bytes)
    ensures r == Cut(v, limit)
  {
    if |v| <= limit {
      return v;
    }
    var i: int := limit;
    while i > 0 && !RuneStart(v[i])
      invariant 0 <= i <= limit && Boundary(v, limit) == Boundary(v, i)
    {
      i := i - 1;
    }
    return v[..i] + ELLIPSIS;
  }

  /** A cut value is over the limit, by at most the ellipsis, unless the last three places before it are mid-character. */
  lemma CutFitsIff(v: Bytes, limit: nat)
    ensures |Cut(v, limit)| <= limit + 3
    ensures |Cut(v, limit)| <= limit <==>
            |v| <= limit || (limit >= 3 && forall j :: limit - 2 <= j <= limit ==> !RuneStart(v[j]))
  {
  }

  /** A cut value is the start of the value, through the last boundary at or before the limit, and the ellipsis. */
  lemma CutIsPrefix(v: Bytes, limit: nat) returns (i: nat)
    ensures |v| <= limit ==> Cut(v, limit) == v
    ensures |v| > limit ==>
      && i <= limit && Cut(v, limit) == v[..i] + [0xE2, 0x80, 0xA6]
      && (i == 0 || RuneStart(v[i])) && forall j :: i < j <= limit ==> !RuneStart(v[j])
  {
    i := if |v| > limit then Boundary(v, limit) else 0;
  }

  /** The length of the UTF-8 character that a byte begins, or none. */
  function CharLength(b: Byte): nat {
    if b < 0x80 then 1 else if b < 0xC0 then 0 else if b < 0xE0 then 2 else if b < 0xF0 then 3 else if b < 0xF8 then 4 else 0
  }

  /** A character: a first byte and as many more as it calls for, each with the top bits 10. */
  ghost predicate IsChar(v: Bytes) {
    v != [] && |v| == CharLength(v[0]) && forall i :: 1 <= i < |v| ==> v[i] / 64 == 2
  }

  /** Bytes that are whole characters. */
  ghost predicate WholeChars(v: Bytes) {
    v == [] || exists n :: 0 < n <= |v| && IsChar(v[..n]) && WholeChars(v[n..])
  }

  lemma {:induction false} WholeCharsJoin(a: Bytes, b: Bytes)
    requires WholeChars(a) && WholeChars(b)
    ensures WholeChars(a + b)
  {
    hide *;
    if a == [] {
      assert a + b == b;
    } else {
      var n := FirstChar(a);
      WholeCharsJoin(a[n..], b);
      OneCharMore(a[..n], a[n..] + b);
      assert a[..n] + (a[n..] + b) == a + b;
    }
  }

  lemma NoChars()
    ensures WholeChars([])
  {
  }

  lemma FirstChar(v: Bytes) returns (n: nat)
    requires v != [] && WholeChars(v)
    ensures 0 < n <= |v| && IsChar(v[..n]) && WholeChars(v[n..])
  {
    n :| 0 < n <= |v| && IsChar(v[..n]) && WholeChars(v[n..]);
  }

  /** No character starts inside another. */
  lemma InsideNoneStarts(v: Bytes, n: nat, i: nat)
    requires 0 < n <= |v| && IsChar(v[..n]) && 0 < i < n
    ensures !RuneStart(v[i])
  {
    assert v[i] == v[..n][i];
  }

  lemma OneCharMore(c: Bytes, v: Bytes)
    requires c != [] && IsChar(c) && WholeChars(v)
    ensures WholeChars(c + v)
  {
    hide IsChar;
    assert (c + v)[..|c|] == c && (c + v)[|c|..] == v;
  }

  /** Before the start of a character there are whole characters. */
  lemma {:induction false} WholeBefore(v: Bytes, i: nat)
    requires WholeChars(v) && i <= |v| && (i == 0 || i == |v| || RuneStart(v[i]))
    ensures WholeChars(v[..i])
    decreases |v|
  {
    hide *;
    if 0 < i < |v| {
      var n := FirstChar(v);
      if i < n {
        InsideNoneStarts(v, n, i);
      }
      assert v[n..][..i - n] == v[n..i] && (i < |v| ==> v[n..][i - n] == v[i]);
      WholeBefore(v[n..], i - n);
      OneCharMore(v[..n], v[n..i]);
      assert v[..n] + v[n..i] == v[..i];
    } else {
      assert v[..i] == [] || v[..i] == v;
      NoChars();
    }
  }

  /** Cutting breaks no character. */
  lemma CutKeepsCharsWhole(v: Bytes, limit: nat)
    requires WholeChars(v)
    ensures WholeChars(Cut(v, limit))
  {
    var i := CutIsPrefix(v, limit);
    if |v| > limit {
      WholeBefore(v, i);
      var e: Bytes := [0xE2, 0x80, 0xA6];
      assert IsChar(e[..3]) && e[3..] == [];
      hide Cut;
      WholeCharsJoin(v[..i], e);
    }
  }

  lemma ACutValueNeedNotFit()
    ensures |Cut([97, 98], 1)| == 4
  {
  }

  // ---------------------------------------------------------------- keys

  lemma {:induction false} DecimalIsInjective(m: nat, n: nat)
    requires Decimal(m) == Decimal(n)
    ensures m == n
  {
    var a, b := Decimal(m), Decimal(n);
    assert a[|a| - 1] == Digit(m % 10) && b[|b| - 1] == Digit(n % 10);
    DecimalLength(m);
    DecimalLength(n);
    if m >= 10 && n >= 10 {
      assert a[..|a| - 1] == Decimal(m / 10) && b[..|b| - 1] == Decimal(n / 10);
      DecimalIsInjective(m / 10, n / 10);
    }
  }

  lemma {:induction false} DecimalLength(n: nat)
    ensures |Decimal(n)| >= 1 && (n >= 10 ==> |Decimal(n)| >= 2) && '.' !in Decimal(n)
  {
    if n >= 10 {
      DecimalLength(n / 10);
    }
  }

  /** A value's place: an attribute of the span, or of its i-th event. */
  datatype Slot = Attribute(key: string) | EventAttribute(i: nat, key: string)

  /** The name it is listed under in Truncated. */
  function Label(s: Slot): string {
    match s
    case Attribute(key) => key
    case EventAttribute(i, key) => "events." + Decimal(i) + "." + key
  }

  lemma FirstDot(s: string, p: nat, q: nat)
    requires p < |s| && q < |s| && s[p] == s[q] == '.' && '.' !in s[..p] && '.' !in s[..q]
    ensures p == q
  {
  }

  /** Places of the same kind have different names. */
  lemma LabelIsInjective(a: Slot, b: Slot)
    requires a.EventAttribute? == b.EventAttribute? && Label(a) == Label(b)
    ensures a == b
  {
    if a.EventAttribute? {
      assert Label(a)[7..] == Decimal(a.i) + "." + a.key && Label(b)[7..] == Decimal(b.i) + "." + b.key;
      DecimalLength(a.i);
      DecimalLength(b.i);
      hide Label, Decimal;
      UpToDot(Decimal(a.i), a.key, Decimal(b.i), b.key);
      DecimalIsInjective(a.i, b.i);
    }
  }

  lemma UpToDot(m: string, k: string, n: string, l: string)
    requires '.' !in m && '.' !in n && m + "." + k == n + "." + l
    ensures m == n && k == l
  {
    var s := m + "." + k;
    assert forall j :: 0 <= j < |m| ==> s[j] == m[j];
    assert forall j :: 0 <= j < |n| ==> s[j] == n[j];
    FirstDot(s, |m|, |n|);
    assert s[..|m|] == m && s[..|n|] == n && s[|m| + 1..] == k && s[|n| + 1..] == l;
  }

  // ---------------------------------------------------------------- the order values are offered in

  /** One value to place: cut already, with what it was cut from. */
  datatype Item = Item(slot: Slot, value: Bytes, original: Bytes)

  /** Events first, then smallest first, by name on ties. */
  predicate Before(a: Item, b: Item) {
    if a.slot.EventAttribute? != b.slot.EventAttribute? then a.slot.EventAttribute?
    else if |a.value| != |b.value| then |a.value| < |b.value|
    else Less(Label(a.slot), Label(b.slot))
  }

  lemma BeforeIsTotal(a: Item, b: Item)
    ensures Before(a, b) || Before(b, a) || a.slot == b.slot
    ensures !(Before(a, b) && Before(b, a)) && !Before(a, a)
  {
    LessIsTotal(Label(a.slot), Label(b.slot));
    LessIsTotal(Label(a.slot), Label(a.slot));
    hide Label, Less;
    if a.slot.EventAttribute? == b.slot.EventAttribute? && Label(a.slot) == Label(b.slot) {
      LabelIsInjective(a.slot, b.slot);
    }
  }

  lemma BeforeIsTransitive(a: Item, b: Item, c: Item)
    requires Before(a, b) && Before(b, c)
    ensures Before(a, c)
  {
    if Less(Label(a.slot), Label(b.slot)) && Less(Label(b.slot), Label(c.slot)) {
      LessIsTransitive(Label(a.slot), Label(b.slot), Label(c.slot));
    }
    hide Label, Less;
  }

  ghost predicate InOrder(s: seq<Item>) {
    forall i, j :: 0 <= i < j < |s| ==> Before(s[i], s[j])
  }

  function Insert(s: seq<Item>, x: Item): seq<Item> {
    if s == [] || !Before(s[0], x) then [x] + s else [s[0]] + Insert(s[1..], x)
  }

  /** sort.Slice */
  function Sorted(s: seq<Item>): seq<Item> {
    if s == [] then [] else Insert(Sorted(s[1..]), s[0])
  }

  ghost predicate Distinct(s: seq<Item>) {
    forall i, j :: 0 <= i < j < |s| ==> s[i].slot != s[j].slot
  }

  lemma Cons(x: Item, s: seq<Item>)
    requires InOrder(s) && forall y :: y in s ==> Before(x, y)
    ensures InOrder([x] + s) && forall y :: y in [x] + s <==> y == x || y in s
  {
  }

  lemma Uncons(s: seq<Item>)
    requires InOrder(s) && s != []
    ensures InOrder(s[1..]) && forall y :: y in s[1..] ==> Before(s[0], y)
    ensures forall y :: y in s <==> y == s[0] || y in s[1..]
  {
  }

  lemma InOrderNone()
    ensures InOrder([])
  {
  }

  lemma {:induction false} InsertHolds(s: seq<Item>, x: Item)
    requires InOrder(s) && forall y :: y in s ==> y.slot != x.slot
    ensures InOrder(Insert(s, x)) && forall y :: y in Insert(s, x) <==> y in s || y == x
  {
    hide InOrder, Before;
    InOrderNone();
    if s == [] {
      Cons(x, []);
    } else {
      Uncons(s);
      BeforeIsTotal(s[0], x);
      if Before(s[0], x) {
        InsertHolds(s[1..], x);
        Cons(s[0], Insert(s[1..], x));
      } else {
        forall y | y in s ensures Before(x, y) {
          if y != s[0] {
            BeforeIsTransitive(x, s[0], y);
          }
        }
        Cons(x, s);
      }
    }
  }

  lemma {:induction false} SortedHolds(s: seq<Item>)
    requires Distinct(s)
    ensures InOrder(Sorted(s)) && forall y :: y in Sorted(s) <==> y in s
  {
    hide InOrder;
    InOrderNone();
    if s != [] {
      SortedHolds(s[1..]);
      assert forall y :: y in s <==> y == s[0] || y in s[1..];
      InsertHolds(Sorted(s[1..]), s[0]);
    }
  }

  lemma FirstIsIn(s: seq<Item>)
    ensures s != [] ==> s[0] in s
  {
  }

  /** Two arrangements in order of the same values are the same. */
  lemma {:induction false} OrderIsUnique(a: seq<Item>, b: seq<Item>)
    requires InOrder(a) && InOrder(b) && forall y :: y in a <==> y in b
    ensures a == b
  {
    hide InOrder, Before;
    if a == [] {
      FirstIsIn(b);
    } else {
      assert a[0] in b;
      Uncons(a);
      Uncons(b);
      BeforeIsTotal(a[0], b[0]);
      assert a[0] == b[0];
      forall y ensures y in a[1..] <==> y in b[1..] {
        BeforeIsTotal(a[0], a[0]);
      }
      OrderIsUnique(a[1..], b[1..]);
    }
  }

  // ---------------------------------------------------------------- the greedy pass

  function Used(s: seq<Item>): nat {
    if s == [] then 0 else |s[0].value| + Used(s[1..])
  }

  /** The values kept within a budget, in the order offered; one that does not fit is passed over. */
  function Kept(s: seq<Item>, budget: int): seq<Item> {
    if s == [] then []
    else if |s[0].value| > budget then Kept(s[1..], budget)
    else [s[0]] + Kept(s[1..], budget - |s[0].value|)
  }

  /** What is listed in Truncated: values passed over or cut. */
  function Noted(s: seq<Item>, budget: int): seq<Item> {
    if s == [] then []
    else if |s[0].value| > budget then [s[0]] + Noted(s[1..], budget)
    else (if s[0].value != s[0].original then [s[0]] else []) + Noted(s[1..], budget - |s[0].value|)
  }

  /** A selection from `s`: which places are chosen, how many values and how many bytes that is. */
  function Count(chosen: seq<bool>): nat {
    if chosen == [] then 0 else (if chosen[0] then 1 else 0) + Count(chosen[1..])
  }

  function Cost(s: seq<Item>, chosen: seq<bool>): nat
    requires |chosen| == |s|
  {
    if s == [] then 0 else (if chosen[0] then |s[0].value| else 0) + Cost(s[1..], chosen[1..])
  }

  ghost predicate Ascends(s: seq<Item>) {
    forall i, j :: 0 <= i < j < |s| ==> |s[i].value| <= |s[j].value|
  }

  lemma {:induction false} KeptFits(s: seq<Item>, budget: nat)
    ensures Used(Kept(s, budget)) <= budget
  {
    if s != [] {
      if |s[0].value| > budget {
        KeptFits(s[1..], budget);
      } else {
        KeptFits(s[1..], budget - |s[0].value|);
        assert ([s[0]] + Kept(s[1..], budget - |s[0].value|))[1..] == Kept(s[1..], budget - |s[0].value|);
      }
    }
  }

  /** A selection without one of its values costs at least the smallest value less. */
  lemma {:induction false} DropOne(s: seq<Item>, chosen: seq<bool>, smallest: nat) returns (fewer: seq<bool>)
    requires |chosen| == |s| && Count(chosen) > 0 && forall x :: x in s ==> |x.value| >= smallest
    ensures |fewer| == |s| && Count(fewer) == Count(chosen) - 1 && Cost(s, fewer) + smallest <= Cost(s, chosen)
  {
    if chosen[0] {
      fewer := [false] + chosen[1..];
      assert fewer[1..] == chosen[1..];
    } else {
      var rest := DropOne(s[1..], chosen[1..], smallest);
      fewer := [false] + rest;
      assert fewer[1..] == rest;
    }
  }

  /** Of values offered smallest first, no selection within the budget has more than are kept, or as many for less. */
  lemma {:induction false} KeptIsMost(s: seq<Item>, budget: nat, chosen: seq<bool>)
    requires Ascends(s) && |chosen| == |s| && Cost(s, chosen) <= budget
    ensures Count(chosen) <= |Kept(s, budget)|
    ensures Count(chosen) == |Kept(s, budget)| ==> Used(Kept(s, budget)) <= Cost(s, chosen)
    decreases |s|
  {
    if s == [] || Count(chosen) == 0 {
      return;
    }
    var first := |s[0].value|;
    var fewer := DropOne(s, chosen, first);
    assert first <= budget;
    if chosen[0] {
      KeptIsMost(s[1..], budget - first, chosen[1..]);
    } else {
      var rest := DropOne(s[1..], chosen[1..], first);
      KeptIsMost(s[1..], budget - first, rest);
    }
    assert ([s[0]] + Kept(s[1..], budget - first))[1..] == Kept(s[1..], budget - first);
  }

  lemma {:induction false} KeptSplits(a: seq<Item>, b: seq<Item>, budget: nat)
    ensures Used(Kept(a, budget)) <= budget
    ensures Kept(a + b, budget) == Kept(a, budget) + Kept(b, budget - Used(Kept(a, budget)))
  {
    KeptFits(a, budget);
    if a == [] {
      assert a + b == b;
    } else {
      assert (a + b)[1..] == a[1..] + b;
      if |a[0].value| > budget {
        KeptSplits(a[1..], b, budget);
      } else {
        var rest := budget - |a[0].value|;
        KeptSplits(a[1..], b, rest);
        assert ([a[0]] + Kept(a[1..], rest))[1..] == Kept(a[1..], rest);
      }
    }
  }

  function Events(s: seq<Item>): seq<Item> {
    if s == [] then [] else (if s[0].slot.EventAttribute? then [s[0]] else []) + Events(s[1..])
  }

  function Attributes(s: seq<Item>): seq<Item> {
    if s == [] then [] else (if s[0].slot.Attribute? then [s[0]] else []) + Attributes(s[1..])
  }

  lemma {:induction false} KindsHold(s: seq<Item>)
    ensures forall x :: x in Events(s) <==> x in s && x.slot.EventAttribute?
    ensures forall x :: x in Attributes(s) <==> x in s && x.slot.Attribute?
  {
    if s != [] {
      KindsHold(s[1..]);
      assert forall x :: x in s <==> x == s[0] || x in s[1..];
    }
  }

  lemma FirstIsLeast(s: seq<Item>)
    requires InOrder(s) && s != []
    ensures InOrder(s[1..])
    ensures forall y :: y in s[1..] ==> s[0].slot.Attribute? ==> y.slot.Attribute?
    ensures forall y :: y in s[1..] && y.slot.Attribute? == s[0].slot.Attribute? ==> |s[0].value| <= |y.value|
  {
  }

  lemma {:induction false} EventsComeFirst(s: seq<Item>)
    requires InOrder(s)
    ensures s == Events(s) + Attributes(s)
  {
    if s != [] {
      FirstIsLeast(s);
      hide InOrder;
      EventsComeFirst(s[1..]);
      assert s == [s[0]] + s[1..];
      if s[0].slot.Attribute? {
        NoEvents(s[1..]);
        assert s == [] + s;
      }
    }
  }

  lemma {:induction false} KindsAscend(s: seq<Item>)
    requires InOrder(s)
    ensures Ascends(Events(s)) && Ascends(Attributes(s))
  {
    if s != [] {
      FirstIsLeast(s);
      hide InOrder;
      KindsAscend(s[1..]);
      KindsHold(s[1..]);
      SmallestFirst(s[0], Events(s[1..]));
      SmallestFirst(s[0], Attributes(s[1..]));
    }
  }

  lemma NoEvents(s: seq<Item>)
    requires forall x :: x in s ==> x.slot.Attribute?
    ensures Events(s) == []
  {
  }

  lemma SmallestFirst(x: Item, s: seq<Item>)
    requires Ascends(s)
    ensures Ascends([] + s) && ((forall y :: y in s ==> |x.value| <= |y.value|) ==> Ascends([x] + s))
  {
  }

  // ---------------------------------------------------------------- Trim

  type Values = map<Slot, Bytes>

  function ItemOf(values: Values, limit: nat, slot: Slot): Item
    requires slot in values
  {
    Item(slot, Cut(values[slot], limit), values[slot])
  }

  ghost predicate Lists(values: Values, limit: nat, s: seq<Item>) {
    forall y :: y in s <==> y.slot in values && y == ItemOf(values, limit, y.slot)
  }

  /** A span's values, cut, in the order they are offered. */
  ghost predicate Arranged(values: Values, limit: nat, s: seq<Item>) {
    InOrder(s) && Lists(values, limit, s)
  }

  /** There is only one such order, so the order of iteration over the maps does not show. */
  lemma ArrangedIsUnique(values: Values, limit: nat, a: seq<Item>, b: seq<Item>)
    requires Arranged(values, limit, a) && Arranged(values, limit, b)
    ensures a == b
  {
    hide InOrder, ItemOf;
    OrderIsUnique(a, b);
  }

  function Placed(s: seq<Item>): map<Slot, Bytes> {
    if s == [] then map[] else Placed(s[..|s| - 1])[s[|s| - 1].slot := s[|s| - 1].value]
  }

  lemma {:induction false} PlacedIs(s: seq<Item>)
    requires OnePerSlot(s)
    ensures forall y :: y in s ==> y.slot in Placed(s) && Placed(s)[y.slot] == y.value
    ensures forall slot :: slot in Placed(s) ==> exists y :: y in s && y.slot == slot
  {
    if s != [] {
      var rest, last := s[..|s| - 1], s[|s| - 1];
      assert forall y :: y in s <==> y in rest || y == last;
      PlacedIs(rest);
    }
  }

  /** A span comes out with its own values, each in its place and whole or cut; the rest are left out. */
  lemma KeptAreItsValues(values: Values, limit: nat, s: seq<Item>, budget: int)
    requires Arranged(values, limit, s)
    ensures var kept := Placed(Kept(s, budget));
            && (forall slot :: slot in kept ==> slot in values && kept[slot] == Cut(values[slot], limit))
            && forall y :: y in Kept(s, budget) ==> y.slot in kept
  {
    forall y | y in Kept(s, budget) ensures y in s {
      NotedAreThere(s, budget, y);
    }
    hide InOrder, Kept, Placed;
    PlacedIs(Kept(s, budget));
  }

  /** Truncated: real sizes by name, a later one of the same name over an earlier. */
  function Listed(s: seq<Item>): map<string, nat> {
    if s == [] then map[] else Listed(s[..|s| - 1])[Label(s[|s| - 1].slot) := |s[|s| - 1].original|]
  }

  /** The loops over the maps: any order. */
  method Collect(values: Values, limit: nat) returns (items: seq<Item>)
    ensures Distinct(items) && Lists(values, limit, items)
  {
    items := [];
    var todo := values.Keys;
    while todo != {}
      invariant todo <= values.Keys && Distinct(items)
      invariant forall y :: y in items <==> y.slot in values && y.slot !in todo && y == ItemOf(values, limit, y.slot)
    {
      var slot :| slot in todo;
      todo := todo - {slot};
      var cut := CutValue(values[slot], limit);
      assert forall i :: 0 <= i < |items| ==> items[i] in items;
      items := items + [Item(slot, cut, values[slot])];
    }
  }

  /** The loop over the values in order. */
  method Fill(entries: seq<Item>, perSpan: int) returns (kept: map<Slot, Bytes>, truncated: map<string, nat>)
    ensures kept == Placed(Kept(entries, perSpan)) && truncated == Listed(Noted(entries, perSpan))
  {
    hide Label, Placed, Listed;
    var rest, used := entries, 0;
    ghost var k, n: seq<Item> := [], [];
    Nothing();
    kept, truncated := map[], map[];
    while rest != []
      invariant kept == Placed(k) && truncated == Listed(n)
      invariant Kept(entries, perSpan) == k + Kept(rest, perSpan - used)
      invariant Noted(entries, perSpan) == n + Noted(rest, perSpan - used)
      decreases |rest|
    {
      var e := rest[0];
      OneMore(k, n, e);
      rest := rest[1..];
      if used + |e.value| > perSpan {
        truncated := truncated[Label(e.slot) := |e.original|];
        n := n + [e];
      } else {
        used := used + |e.value|;
        kept := kept[e.slot := e.value];
        k := k + [e];
        if e.value != e.original {
          truncated := truncated[Label(e.slot) := |e.original|];
          n := n + [e];
        }
      }
    }
    assert k + [] == k && n + [] == n;
  }

  lemma Nothing()
    ensures Placed([]) == map[] && Listed([]) == map[]
  {
  }

  lemma OneMore(k: seq<Item>, n: seq<Item>, e: Item)
    ensures Placed(k + [e]) == Placed(k)[e.slot := e.value]
    ensures Listed(n + [e]) == Listed(n)[Label(e.slot) := |e.original|]
    ensures forall t: seq<Item> :: k + ([e] + t) == (k + [e]) + t
    ensures forall t: seq<Item> :: n + ([e] + t) == (n + [e]) + t && n + ([] + t) == n + t
  {
  }

  method Trim(values: Values, perValue: nat, perSpan: int) returns (kept: map<Slot, Bytes>, truncated: map<string, nat>)
    ensures exists s :: && Arranged(values, perValue, s)
                        && kept == Placed(Kept(s, perSpan)) && truncated == Listed(Noted(s, perSpan))
  {
    hide InOrder, ItemOf;
    var items := Collect(values, perValue);
    SortedHolds(items);
    kept, truncated := Fill(Sorted(items), perSpan);
    assert Arranged(values, perValue, Sorted(items));
  }

  /** No choice of both kinds within the budget keeps more of the first, or as many and then more of the second. */
  ghost predicate Optimal(first: seq<Item>, second: seq<Item>, budget: nat, a: seq<bool>, b: seq<bool>)
    requires |a| == |first| && |b| == |second|
  {
    var left := budget - Used(Kept(first, budget));
    && left >= 0
    && (Cost(first, a) <= budget ==> Count(a) <= |Kept(first, budget)|)
    && (Cost(second, b) <= left ==> Count(b) <= |Kept(second, left)|)
    && (Cost(first, a) + Cost(second, b) <= budget ==>
          || Count(a) < |Kept(first, budget)|
          || (Count(a) == |Kept(first, budget)| && Count(b) <= |Kept(second, left)|))
  }

  lemma KeptIsOptimal(first: seq<Item>, second: seq<Item>, budget: nat, a: seq<bool>, b: seq<bool>)
    requires Ascends(first) && Ascends(second) && |a| == |first| && |b| == |second|
    ensures Optimal(first, second, budget, a, b)
  {
    KeptFits(first, budget);
    hide Kept, Used, Cost, Count, Ascends;
    if Cost(first, a) <= budget {
      KeptIsMost(first, budget, a);
    }
    var left := budget - Used(Kept(first, budget));
    if Cost(second, b) <= left {
      KeptIsMost(second, left, b);
    }
  }

  /**
   Of all choices of values within the budget, the one kept has the most event values, and of
   those with as many event values the most attributes.
   */
  lemma TrimIsOptimal(values: Values, perValue: nat, perSpan: nat, s: seq<Item>, events: seq<bool>,
                      attributes: seq<bool>)
    requires Arranged(values, perValue, s)
    requires |events| == |Events(s)| && |attributes| == |Attributes(s)|
    ensures Used(Kept(s, perSpan)) <= perSpan && Used(Kept(Events(s), perSpan)) <= perSpan
    ensures Kept(s, perSpan) == Kept(Events(s), perSpan) + Kept(Attributes(s), perSpan - Used(Kept(Events(s), perSpan)))
    ensures Optimal(Events(s), Attributes(s), perSpan, events, attributes)
  {
    EventsComeFirst(s);
    KindsAscend(s);
    var e, a := Events(s), Attributes(s);
    hide *;
    KeptFits(s, perSpan);
    KeptSplits(e, a, perSpan);
    KeptIsOptimal(e, a, perSpan, events, attributes);
  }

  /** A value is kept whole, or kept cut and listed, or left out and listed. */
  lemma {:induction false} KeptOrNoted(s: seq<Item>, budget: int, y: Item)
    requires y in s
    ensures y in Kept(s, budget) || y in Noted(s, budget)
    ensures y in Kept(s, budget) && y.value != y.original ==> y in Noted(s, budget)
  {
    if y != s[0] {
      KeptOrNoted(s[1..], if |s[0].value| > budget then budget else budget - |s[0].value|, y);
    } else if s[0] in Kept(s[1..], budget - |y.value|) || |y.value| > budget {
      if y in s[1..] {
        KeptOrNoted(s[1..], if |y.value| > budget then budget else budget - |y.value|, y);
      }
    }
  }

  // ---------------------------------------------------------------- what Truncated says

  lemma {:induction false} NotedAreThere(s: seq<Item>, budget: int, x: Item)
    requires x in Noted(s, budget) || x in Kept(s, budget)
    ensures x in s
  {
    if x != s[0] {
      NotedAreThere(s[1..], if |s[0].value| > budget then budget else budget - |s[0].value|, x);
    }
  }

  /** What is listed is what is left out or cut. */
  lemma {:induction false} NotedIff(s: seq<Item>, budget: int, y: Item)
    requires InOrder(s)
    ensures y in Noted(s, budget) <==> y in s && (y !in Kept(s, budget) || y.value != y.original)
  {
    if s != [] {
      Uncons(s);
      BeforeIsTotal(s[0], s[0]);
      hide InOrder, Before;
      var left := if |s[0].value| > budget then budget else budget - |s[0].value|;
      NotedIff(s[1..], left, y);
      if y in Kept(s[1..], left) {
        NotedAreThere(s[1..], left, y);
      }
    }
  }

  lemma {:induction false} NotedInOrder(s: seq<Item>, budget: int)
    requires InOrder(s)
    ensures InOrder(Noted(s, budget))
  {
    if s != [] {
      Uncons(s);
      hide InOrder, Before;
      var left := if |s[0].value| > budget then budget else budget - |s[0].value|;
      NotedInOrder(s[1..], left);
      forall y | y in Noted(s[1..], left) ensures Before(s[0], y) {
        NotedAreThere(s[1..], left, y);
      }
      Cons(s[0], Noted(s[1..], left));
      assert [] + Noted(s[1..], left) == Noted(s[1..], left);
    }
  }

  /** No place has two values. */
  ghost predicate OnePerSlot(s: seq<Item>) {
    forall x, y :: x in s && y in s && x.slot == y.slot ==> x == y
  }

  /** An event value whose name an attribute of another size is listed under as well. */
  ghost predicate Overwritten(s: seq<Item>, y: Item) {
    && y.slot.EventAttribute?
    && exists x :: x in s && x.slot.Attribute? && Label(x.slot) == Label(y.slot) && |x.original| != |y.original|
  }

  lemma Unsnoc(s: seq<Item>)
    requires InOrder(s) && s != []
    ensures var rest, last := s[..|s| - 1], s[|s| - 1];
            InOrder(rest) && (forall y :: y in rest ==> Before(y, last)) && forall y :: y in s <==> y in rest || y == last
  {
    assert s == s[..|s| - 1] + [s[|s| - 1]];
  }

  /** Attributes are listed after events, so it is only their sizes that stand in others' places. */
  lemma {:induction false} ListedSize(s: seq<Item>, y: Item)
    requires InOrder(s) && OnePerSlot(s) && y in s
    ensures Label(y.slot) in Listed(s)
    ensures Listed(s)[Label(y.slot)] == |y.original| <==> !Overwritten(s, y)
  {
    var last := s[|s| - 1];
    Unsnoc(s);
    hide InOrder, Label;
    if Label(last.slot) != Label(y.slot) {
      ListedSize(s[..|s| - 1], y);
    } else {
      forall x | x in s && x.slot.EventAttribute? == last.slot.EventAttribute? && Label(x.slot) == Label(last.slot)
        ensures x == last
      {
        LabelIsInjective(x.slot, last.slot);
      }
    }
  }

  lemma SlotsHold(values: Values, limit: nat, s: seq<Item>, budget: int)
    requires Arranged(values, limit, s)
    ensures OnePerSlot(Noted(s, budget))
  {
    hide InOrder;
    forall x | x in Noted(s, budget) ensures x in s {
      NotedAreThere(s, budget, x);
    }
  }

  /**
   A value is listed exactly when it is left out or cut. The size under its name is its own,
   unless it is an event's value and an attribute of that name, listed too, has another size.
   */
  lemma NotedSizes(values: Values, limit: nat, s: seq<Item>, budget: int, y: Item)
    requires Arranged(values, limit, s)
    ensures y in Noted(s, budget) <==> y in s && (y !in Kept(s, budget) || y.value != y.original)
    ensures y in Noted(s, budget) ==>
              && Label(y.slot) in Listed(Noted(s, budget))
              && (Listed(Noted(s, budget))[Label(y.slot)] == |y.original| <==> !Overwritten(Noted(s, budget), y))
  {
    NotedIff(s, budget, y);
    NotedInOrder(s, budget);
    SlotsHold(values, limit, s, budget);
    hide *;
    if y in Noted(s, budget) {
      ListedSize(Noted(s, budget), y);
    }
  }

  /** Every size listed is real exactly when no attribute listed shares its name, but not its size, with an event's value. */
  lemma SizesAreRealIff(values: Values, limit: nat, s: seq<Item>, budget: int)
    requires Arranged(values, limit, s)
    ensures var n := Noted(s, budget);
            (forall y :: y in n ==> Label(y.slot) in Listed(n) && Listed(n)[Label(y.slot)] == |y.original|) <==>
            (forall x, y :: x in n && y in n && x.slot.Attribute? && y.slot.EventAttribute? && Label(x.slot) == Label(y.slot) ==>
                              |x.original| == |y.original|)
  {
    hide Arranged, Noted, Label, Listed;
    forall y | y in Noted(s, budget)
      ensures Label(y.slot) in Listed(Noted(s, budget))
      ensures Listed(Noted(s, budget))[Label(y.slot)] == |y.original| <==> !Overwritten(Noted(s, budget), y)
    {
      NotedSizes(values, limit, s, budget, y);
    }
  }

  /** An attribute named like an event's is listed over it: the event value's own size is lost. */
  lemma AnEventSizeCanBeLost()
    ensures var a, e := Attribute("events.0.k"), EventAttribute(0, "k");
            var values: Values := map[a := [1, 1], e := [1]];
            exists s :: Arranged(values, 9, s) && Listed(Noted(s, 0)) == map[Label(e) := 2]
  {
    var a, e := Attribute("events.0.k"), EventAttribute(0, "k");
    var first, second := Item(e, [1], [1]), Item(a, [1, 1], [1, 1]);
    assert Label(a) == Label(e) by { assert Decimal(0) == "0"; }
    assert Arranged(map[a := [1, 1], e := [1]], 9, [first, second]);
    hide Label, InOrder, Before, Decimal;
    NoneFits(first, second);
    ListedTwice(first, second);
  }

  lemma NoneFits(first: Item, second: Item)
    requires |first.value| > 0 && |second.value| > 0
    ensures Noted([first, second], 0) == [first, second]
  {
    assert [first, second][1..] == [second] && [second][1..] == [];
    assert Noted([second], 0) == [second];
  }

  lemma ListedTwice(first: Item, second: Item)
    requires Label(first.slot) == Label(second.slot)
    ensures Listed([first, second]) == map[Label(first.slot) := |second.original|]
  {
    hide Label;
    assert [first, second][..1] == [first] && [first][..0] == [];
    assert Listed([first]) == map[Label(first.slot) := |first.original|];
  }
}
