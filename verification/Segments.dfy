/**
 The segment files of internal/tracing/disk.go: what a directory of segments holds, and
 the class `Disk` that rolls, appends and expires them. One clock reading serves a whole
 critical section, and a file's modification time is that of its last write. What the
 operating system does (open, write, remove) is a parameter of each call.
 */
module Segments {
  import opened Wrappers

  const SEGMENT_LIFE: int := 3_600_000_000_000  // an hour, in nanoseconds
  const SEGMENT_MAX_BYTES: nat := 16 * 0x10_0000

  /** A stored span: its trace, when it arrived, its size in memory and as a line of a segment. */
  datatype Span = Span(trace: string, arrival: int, size: nat, line: nat)

  /** What a failed write leaves at the end of a segment. All but the newline can still be read. */
  datatype Tail = NoTail | Unreadable | WithoutNewline(span: Span)

  /** A segment file, named by when it was opened. `headed`: its header can be read. */
  datatype Segment = Segment(name: int, run: int, headed: bool, spans: seq<Span>, tail: Tail, size: nat, mod: int)

  /** What readSegment returns for it. */
  function Readable(f: Segment): seq<Span> {
    if !f.headed then [] else f.spans + (if f.tail.WithoutNewline? then [f.tail.span] else [])
  }

  ghost predicate Ascending(s: seq<Span>) {
    forall i, j :: 0 <= i < j < |s| ==> s[i].arrival < s[j].arrival
  }

  /** A segment is written for less than an hour, in arrival order. */
  ghost predicate SegmentOk(f: Segment) {
    && f.name <= f.mod < f.name + SEGMENT_LIFE
    && (!f.headed ==> f.spans == [])
    && Ascending(Readable(f))
    && forall sp :: sp in Readable(f) ==> f.name <= sp.arrival <= f.mod
  }

  /** Each segment was written for the last time before the next was opened. */
  ghost predicate Ordered(files: seq<Segment>) {
    && (forall i :: 0 <= i < |files| ==> SegmentOk(files[i]))
    && forall i, j :: 0 <= i < j < |files| ==> files[i].mod < files[j].name
  }

  function Total(files: seq<Segment>): nat {
    if files == [] then 0 else files[0].size + Total(files[1..])
  }

  /** The spans of the segments named before `b`, in order. */
  function Content(files: seq<Segment>, b: int): seq<Span> {
    if files == [] then []
    else (if files[0].name < b then Readable(files[0]) else []) + Content(files[1..], b)
  }

  function After(s: seq<Span>, t: int): seq<Span> {
    if s == [] then []
    else (if s[0].arrival > t then [s[0]] else []) + After(s[1..], t)
  }

  // ---------------------------------------------------------------- order

  lemma {:induction false} AfterAll(s: seq<Span>, t: int)
    requires forall sp :: sp in s ==> sp.arrival > t
    ensures After(s, t) == s
  {
    if s != [] {
      AfterAll(s[1..], t);
    }
  }

  lemma {:induction false} AfterNone(s: seq<Span>, t: int)
    requires forall sp :: sp in s ==> sp.arrival <= t
    ensures After(s, t) == []
  {
    if s != [] {
      AfterNone(s[1..], t);
    }
  }

  lemma {:induction false} AfterJoin(a: seq<Span>, b: seq<Span>, t: int)
    ensures After(a + b, t) == After(a, t) + After(b, t)
  {
    if a == [] {
      assert a + b == b;
    } else {
      assert (a + b)[1..] == a[1..] + b;
      AfterJoin(a[1..], b, t);
    }
  }

  lemma {:induction false} AfterTwice(s: seq<Span>, t: int, u: int)
    requires t <= u
    ensures After(After(s, t), u) == After(s, u)
  {
    if s != [] {
      AfterTwice(s[1..], t, u);
      AfterJoin(if s[0].arrival > t then [s[0]] else [], After(s[1..], t), u);
    }
  }

  lemma {:induction false} ContentHolds(files: seq<Segment>, b: int, sp: Span)
    ensures sp in Content(files, b) <==> exists f :: f in files && f.name < b && sp in Readable(f)
  {
    hide Readable;
    if files != [] {
      ContentHolds(files[1..], b, sp);
      assert forall f :: f in files <==> f == files[0] || f in files[1..];
    }
  }

  lemma OrderedTail(files: seq<Segment>, k: nat)
    requires Ordered(files) && k <= |files|
    ensures Ordered(files[k..])
  {
  }

  /** What the segments hold, in their order, is in arrival order. */
  lemma {:induction false} ContentAscends(files: seq<Segment>, b: int)
    requires Ordered(files)
    ensures Ascending(Content(files, b))
    ensures forall sp :: sp in Content(files, b) ==> files != [] && files[0].name <= sp.arrival < b + SEGMENT_LIFE
  {
    if files != [] {
      OrderedTail(files, 1);
      ContentAscends(files[1..], b);
      hide Readable;
      var head, rest := Readable(files[0]), Content(files[1..], b);
      forall sp, tp | sp in head && tp in rest ensures sp.arrival < tp.arrival {
        assert files[0].mod < files[1].name;
      }
    }
  }

  /** Deleting the first `k` segments leaves exactly the spans that arrived after their last. */
  lemma {:induction false} ExpiryIsByArrival(files: seq<Segment>, k: nat, b: int, through: int)
    requires Ordered(files) && 0 < k <= |files|
    requires forall i, sp :: 0 <= i < k && files[i].name < b && sp in Readable(files[i]) ==> sp.arrival <= through
    requires through <= files[k - 1].mod
    ensures Content(files[k..], b) == After(Content(files, b), through)
  {
    hide Readable, Ascending, SegmentOk, After;
    var first := if files[0].name < b then Readable(files[0]) else [];
    var rest := Content(files[1..], b);
    assert Content(files, b) == first + rest;
    OrderedTail(files, 1);
    AfterNone(first, through);
    AfterJoin(first, rest, through);
    if k == 1 {
      LaterThanFirst(files, b);
      AfterAll(rest, through);
    } else {
      assert files[1..][k - 1..] == files[k..];
      forall i, sp | 0 <= i < k - 1 && files[1..][i].name < b && sp in Readable(files[1..][i]) ensures sp.arrival <= through {
        assert files[1..][i] == files[i + 1];
      }
      hide Ordered;
      ExpiryIsByArrival(files[1..], k - 1, b, through);
    }
    assert [] + After(rest, through) == After(rest, through);
  }

  lemma LaterThanFirst(files: seq<Segment>, b: int)
    requires Ordered(files) && files != []
    ensures forall sp :: sp in Content(files[1..], b) ==> sp.arrival > files[0].mod
  {
    OrderedTail(files, 1);
    ContentAscends(files[1..], b);
    hide Content;
  }

  ghost predicate NamesAscend(files: seq<Segment>) {
    forall i, j :: 0 <= i < j < |files| ==> files[i].name < files[j].name
  }

  lemma OrderedNames(files: seq<Segment>)
    requires Ordered(files)
    ensures NamesAscend(files)
  {
  }

  /** Up to the next name there is only the segment of that name, if it is there. */
  lemma {:induction false} ContentUpTo(files: seq<Segment>, b: int, c: int)
    requires NamesAscend(files) && b < c
    requires forall i :: 0 <= i < |files| && b <= files[i].name < c ==> files[i].name == b
    ensures Content(files, c) == Content(files, b) + (if HasName(files, b) then Readable(files[IndexOfName(files, b)]) else [])
  {
    hide Readable;
    if files != [] {
      var rest := files[1..];
      if files[0].name < b {
        ContentUpTo(rest, b, c);
        if HasName(files, b) {
          var i :| 0 <= i < |files| && files[i].name == b;
          assert rest[i - 1].name == b;
        }
      } else {
        NothingBelow(rest, b);
        NothingBelow(rest, c);
      }
    }
  }

  lemma {:induction false} NothingBelow(files: seq<Segment>, b: int)
    requires forall i :: 0 <= i < |files| ==> files[i].name >= b
    ensures Content(files, b) == []
  {
    if files != [] {
      NothingBelow(files[1..], b);
    }
  }

  predicate HasName(files: seq<Segment>, name: int) {
    exists i :: 0 <= i < |files| && files[i].name == name
  }

  function IndexOfName(files: seq<Segment>, name: int): (i: nat)
    requires HasName(files, name)
    ensures i < |files| && files[i].name == name
  {
    if files[0].name == name then 0
    else
      assert HasName(files[1..], name) by {
        var i :| 0 <= i < |files| && files[i].name == name;
        assert files[1..][i - 1].name == name;
      }
      1 + IndexOfName(files[1..], name)
  }

  /** The segments named before `b` are the same, first in both listings. */
  ghost predicate SameBefore(files: seq<Segment>, more: seq<Segment>, b: int) {
    && |files| <= |more|
    && (forall i :: 0 <= i < |files| ==> files[i] == more[i] || (files[i].name >= b && more[i].name >= b))
    && forall i :: |files| <= i < |more| ==> more[i].name >= b
  }

  lemma {:induction false} ContentKept(files: seq<Segment>, more: seq<Segment>, b: int, c: int)
    requires SameBefore(files, more, b) && c <= b
    ensures Content(more, c) == Content(files, c)
  {
    if files == [] {
      NothingBelow(more, c);
    } else {
      ContentKept(files[1..], more[1..], b, c);
    }
  }

  lemma {:induction false} ContentOfAll(a: seq<Segment>, f: Segment, b: int)
    requires f.name < b
    ensures Content(a + [f], b) == Content(a, b) + Readable(f)
  {
    hide Readable;
    if a == [] {
      assert a + [f] == [f] && [f][1..] == [];
    } else {
      assert (a + [f])[1..] == a[1..] + [f];
      ContentOfAll(a[1..], f, b);
    }
  }

  lemma {:induction false} TotalOf(a: seq<Segment>, f: Segment)
    ensures Total(a + [f]) == Total(a) + f.size
  {
    if a == [] {
      assert a + [f] == [f] && [f][1..] == [];
    } else {
      assert (a + [f])[1..] == a[1..] + [f];
      TotalOf(a[1..], f);
    }
  }

  // ---------------------------------------------------------------- increasing names and times

  ghost predicate Increasing(s: seq<int>) {
    forall i, j :: 0 <= i < j < |s| ==> s[i] < s[j]
  }

  lemma IncreasingNone()
    ensures Increasing([])
  {
  }

  lemma Cons(x: int, s: seq<int>)
    requires Increasing(s) && forall y :: y in s ==> x < y
    ensures Increasing([x] + s) && forall y :: y in [x] + s <==> y == x || y in s
  {
    assert forall i :: 0 <= i < |s| ==> s[i] in s;
  }

  lemma Uncons(s: seq<int>)
    requires Increasing(s) && s != []
    ensures Increasing(s[1..]) && (forall y :: y in s[1..] ==> s[0] < y) && s == [s[0]] + s[1..]
  {
  }
}
