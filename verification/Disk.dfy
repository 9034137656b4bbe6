/**
 The class of internal/tracing/disk.go. Every call is made with the storage's lock held.
 */
module SpanDisk {
  import opened Wrappers
  import opened Segments

  /** What opening the next segment comes to: no file; a file without its whole header; a segment. */
  datatype Opening = OpenFails | HeaderFails(bytes: nat, readable: bool) | Opens

  /** A failed write leaves some of the line, perhaps all but its newline. */
  datatype Writing = WriteFails(bytes: nat, left: Tail) | Writes

  /** What can be left of this span's line: nothing readable, or the span itself. */
  predicate Leaves(w: Writing, sp: Span) {
    w.WriteFails? ==> w.bytes <= sp.line && (w.left.WithoutNewline? ==> w.left.span == sp)
  }

  // ---------------------------------------------------------------- what holds between calls

  ghost predicate FilesOk(files: seq<Segment>, clock: int) {
    Ordered(files) && forall i :: 0 <= i < |files| ==> files[i].mod <= clock
  }

  /** The segment being written is the last, and whole so far. */
  ghost predicate CurrentOk(files: seq<Segment>, open: bool, curName: int, curSize: nat, start: int) {
    && HasName(files, curName) && start <= curName
    && (open ==>
          && files != [] && files[|files| - 1].name == curName && files[|files| - 1].size == curSize
          && files[|files| - 1].headed && files[|files| - 1].tail == NoTail)
  }

  /** The segments of earlier runs, in order. */
  ghost predicate EarlierOk(files: seq<Segment>, earlier: seq<int>, start: int) {
    && (forall i :: 0 <= i < |files| && files[i].name < start ==> files[i].name in earlier && files[i].mod < start)
    && (forall n :: n in earlier ==> n < start && HasName(files, n))
    && Increasing(earlier)
  }

  /** What expiry judges a segment by: the newest arrival on record, or else when it was modified. */
  function Judged(newest: map<int, int>, f: Segment): int {
    if f.name in newest then newest[f.name] else f.mod
  }

  /** That is no later than its last write, and no earlier than the spans it is known to hold. */
  ghost predicate JudgedOk(newest: map<int, int>, start: int, f: Segment) {
    && f.name <= Judged(newest, f) <= f.mod
    && (forall sp :: sp in Known(f, start) ==> sp.arrival <= Judged(newest, f))
    && (f.name in newest ==> JudgedBySpan(newest[f.name], Known(f, start)))
    && (f.name >= start && f.spans != [] ==> f.name in newest)
  }

  /** What is recorded of a segment is when the last of its spans arrived. */
  ghost predicate JudgedBySpan(at: int, spans: seq<Span>) {
    spans != [] && at == spans[|spans| - 1].arrival
  }

  /** What this run saved in it, or what can be read of it when an earlier run wrote it. */
  function Known(f: Segment, start: int): seq<Span> {
    if f.name < start then Readable(f) else f.spans
  }

  ghost predicate NewestOk(files: seq<Segment>, newest: map<int, int>, start: int, clock: int) {
    && (forall n :: n in newest ==> n <= clock)
    && forall i :: 0 <= i < |files| ==> JudgedOk(newest, start, files[i])
  }

  // ---------------------------------------------------------------- when a segment ends

  /**
   A segment of this run that nothing made it give up is an hour older than the next, or full;
   and the last, once it is not being written, is an hour old, or full.
   */
  ghost predicate TurnsOk(files: seq<Segment>, open: bool, start: int, clock: int, givenUp: set<int>) {
    && (forall i :: 0 <= i < |files| - 1 ==> files[i].name < start || files[i].name in givenUp || Done(files[i], files[i + 1].name))
    && (!open && files != [] ==>
          var f := files[|files| - 1]; f.name < start || f.name in givenUp || Done(f, clock))
  }

  /** Full, or an hour old by then. */
  predicate Done(f: Segment, t: int) {
    t - f.name >= SEGMENT_LIFE || f.size >= SEGMENT_MAX_BYTES
  }

  lemma TurnsOpened(left: seq<Segment>, f: Segment, t: int)
    requires FilesOk(left, t - 1) && f.name == t
    ensures TurnsOk(left + [f], true, t, t, {})
  {
    forall i | 0 <= i < |left| ensures left[i].name < t {
      assert SegmentOk(left[i]);
    }
  }

  lemma TurnsLater(files: seq<Segment>, open: bool, start: int, clock: int, givenUp: set<int>, t: int)
    requires TurnsOk(files, open, start, clock, givenUp) && clock <= t
    ensures TurnsOk(files, open, start, t, givenUp)
  {
  }

  /** The current segment is closed when it is due, and then perhaps another comes after it. */
  lemma TurnsRolled(files: seq<Segment>, open: bool, start: int, clock: int, givenUp: set<int>, f: Segment, t: int)
    requires TurnsOk(files, open, start, clock, givenUp) && clock <= t == f.name
    requires open ==> files != [] && Done(files[|files| - 1], t)
    ensures TurnsOk(files, false, start, t, givenUp)
    ensures TurnsOk(files + [f], true, start, t, givenUp) && TurnsOk(files + [f], false, start, t, givenUp + {t})
  {
    assert TurnsOk(files, false, start, t, givenUp);
    forall i | 0 <= i < |files| ensures files[i].name < start || files[i].name in givenUp || Done(files[i], (files + [f])[i + 1].name) {
    }
  }

  /** A line in the current segment; if it fails, the segment is given up. */
  lemma TurnsWritten(files: seq<Segment>, start: int, clock: int, givenUp: set<int>, g: Segment, t: int)
    requires TurnsOk(files, true, start, clock, givenUp) && files != [] && g.name == files[|files| - 1].name && clock <= t
    ensures TurnsOk(files[..|files| - 1] + [g], true, start, t, givenUp)
    ensures TurnsOk(files[..|files| - 1] + [g], false, start, t, givenUp + {g.name})
  {
  }

  lemma TurnsGivenUp(files: seq<Segment>, open: bool, start: int, clock: int, givenUp: set<int>)
    requires TurnsOk(files, open, start, clock, givenUp)
    ensures files != [] ==> TurnsOk(files, false, start, clock, givenUp + {files[|files| - 1].name})
    ensures files == [] ==> TurnsOk(files, false, start, clock, givenUp)
  {
  }

  lemma TurnsOfRest(files: seq<Segment>, open: bool, start: int, clock: int, givenUp: set<int>)
    requires TurnsOk(files, open, start, clock, givenUp) && files != []
    ensures TurnsOk(files[1..], open, start, clock, givenUp)
  {
    forall i | 0 <= i < |files[1..]| - 1
      ensures files[1..][i].name < start || files[1..][i].name in givenUp || Done(files[1..][i], files[1..][i + 1].name)
    {
      assert files[1..][i] == files[i + 1] && files[1..][i + 1] == files[i + 2];
    }
  }

  // ---------------------------------------------------------------- a new segment

  lemma NewSegment(t: int, run: int, headed: bool, size: nat)
    ensures SegmentOk(Segment(t, run, headed, [], NoTail, size, t))
  {
  }

  lemma FilesGrow(files: seq<Segment>, clock: int, f: Segment)
    requires FilesOk(files, clock) && SegmentOk(f) && clock < f.name
    ensures FilesOk(files + [f], f.mod)
  {
  }

  lemma HasNameGrow(files: seq<Segment>, f: Segment, n: int)
    ensures HasName(files + [f], n) <==> HasName(files, n) || f.name == n
  {
    if HasName(files, n) {
      assert (files + [f])[IndexOfName(files, n)].name == n;
    }
    assert (files + [f])[|files|] == f;
  }

  lemma EarlierGrow(files: seq<Segment>, earlier: seq<int>, start: int, f: Segment)
    requires EarlierOk(files, earlier, start) && f.name >= start
    ensures EarlierOk(files + [f], earlier, start)
  {
    hide HasName;
    forall n | n in earlier ensures HasName(files + [f], n) {
      HasNameGrow(files, f, n);
    }
  }

  lemma NewestGrow(files: seq<Segment>, newest: map<int, int>, start: int, clock: int, f: Segment)
    requires NewestOk(files, newest, start, clock) && clock < f.name == f.mod && f.spans == [] && start <= f.name
    ensures NewestOk(files + [f], newest, start, f.name)
  {
  }

  // ---------------------------------------------------------------- a line in the current segment

  /** The last segment with a line more, or part of one. */
  function Grown(f: Segment, sp: Span, w: Writing): Segment {
    if w.Writes? then f.(spans := f.spans + [sp], size := f.size + sp.line, mod := sp.arrival)
    else f.(tail := w.left, size := f.size + w.bytes, mod := sp.arrival)
  }

  lemma GrownOk(f: Segment, sp: Span, w: Writing)
    requires SegmentOk(f) && f.headed && f.tail == NoTail && Leaves(w, sp)
    requires f.mod <= sp.arrival < f.name + SEGMENT_LIFE
    requires Readable(f) == [] || f.mod < sp.arrival
    ensures SegmentOk(Grown(f, sp, w))
    ensures Readable(Grown(f, sp, w)) == Readable(f) + (if w.Writes? || w.left.WithoutNewline? then [sp] else [])
  {
    var r, g := Readable(f), Grown(f, sp, w);
    assert r == f.spans;
    assert Readable(g) == r + (if w.Writes? || w.left.WithoutNewline? then [sp] else []);
    assert forall x :: x in r ==> x.arrival < sp.arrival;
    hide Readable;
    assert Ascending(r) && Ascending(r + [sp]);
  }

  lemma FilesWritten(files: seq<Segment>, clock: int, f: Segment)
    requires files != [] && FilesOk(files, clock)
    requires SegmentOk(f) && f.name == files[|files| - 1].name && clock <= f.mod
    ensures FilesOk(files[..|files| - 1] + [f], f.mod)
  {
  }

  lemma EarlierWritten(files: seq<Segment>, earlier: seq<int>, start: int, f: Segment)
    requires files != [] && EarlierOk(files, earlier, start)
    requires f.name == files[|files| - 1].name >= start
    ensures EarlierOk(files[..|files| - 1] + [f], earlier, start)
    ensures SameBefore(files, files[..|files| - 1] + [f], start)
    ensures forall n :: HasName(files, n) ==> HasName(files[..|files| - 1] + [f], n)
  {
    var more := files[..|files| - 1] + [f];
    forall n | HasName(files, n) ensures HasName(more, n) {
      assert more[IndexOfName(files, n)].name == n;
    }
    hide HasName;
  }

  lemma NewestWritten(files: seq<Segment>, newest: map<int, int>, start: int, clock: int, sp: Span, w: Writing)
    requires files != [] && FilesOk(files, clock) && NewestOk(files, newest, start, clock)
    requires start <= files[|files| - 1].name <= sp.arrival && clock <= sp.arrival
    ensures var f := files[|files| - 1];
            NewestOk(files[..|files| - 1] + [Grown(f, sp, w)], if w.Writes? then newest[f.name := sp.arrival] else newest,
                     start, sp.arrival)
  {
    var last := |files| - 1;
    var f := files[last];
    var more, now := files[..last] + [Grown(f, sp, w)], if w.Writes? then newest[f.name := sp.arrival] else newest;
    forall i | 0 <= i < |more| ensures JudgedOk(now, start, more[i]) {
      assert JudgedOk(newest, start, files[i]) && files[i].mod <= clock;
      if i < last {
        assert files[i].name <= files[i].mod < f.name;
        JudgedStays(newest, start, files[i], f.name, sp.arrival);
      } else {
        JudgedGrows(newest, start, f, sp, w);
      }
    }
    hide JudgedOk, Grown, FilesOk;
  }

  lemma JudgedStays(newest: map<int, int>, start: int, f: Segment, other: int, at: int)
    requires JudgedOk(newest, start, f) && f.name != other
    ensures JudgedOk(newest[other := at], start, f)
  {
  }

  lemma JudgedGrows(newest: map<int, int>, start: int, f: Segment, sp: Span, w: Writing)
    requires JudgedOk(newest, start, f) && start <= f.name <= f.mod <= sp.arrival
    ensures JudgedOk(if w.Writes? then newest[f.name := sp.arrival] else newest, start, Grown(f, sp, w))
  {
    var g := Grown(f, sp, w);
    assert g.spans == if w.Writes? then f.spans + [sp] else f.spans;
  }

  function Names(files: seq<Segment>): seq<int> {
    seq(|files|, i requires 0 <= i < |files| => files[i].name)
  }

  lemma NamesAre(files: seq<Segment>)
    ensures forall n :: n in Names(files) <==> HasName(files, n)
  {
    forall n | HasName(files, n) ensures n in Names(files) {
      assert Names(files)[IndexOfName(files, n)] == n;
    }
  }

  /** What openDisk finds and makes. */
  lemma OpenedOk(left: seq<Segment>, f: Segment, t: int)
    requires FilesOk(left, t - 1) && SegmentOk(f) && f.name == f.mod == t && f.headed && f.spans == [] && f.tail == NoTail
    ensures FilesOk(left + [f], t) && CurrentOk(left + [f], true, t, f.size, t)
    ensures EarlierOk(left + [f], Names(left), t) && NewestOk(left + [f], map[], t, t)
    ensures SameBefore(left, left + [f], t)
  {
    FilesGrow(left, t - 1, f);
    HasNameGrow(left, f, t);
    forall i | 0 <= i < |left| ensures left[i].name < t && JudgedOk(map[], t, left[i]) {
      assert SegmentOk(left[i]);
    }
    NewestOpens(left, f, t);
    EarlierOpens(left, t);
    hide FilesOk, EarlierOk, NewestOk, SegmentOk, HasName, JudgedOk;
    EarlierGrow(left, Names(left), t, f);
  }

  lemma EarlierOpens(left: seq<Segment>, t: int)
    requires FilesOk(left, t - 1)
    ensures EarlierOk(left, Names(left), t)
  {
    OrderedNames(left);
    NamesAre(left);
    forall i | 0 <= i < |left| ensures left[i].name < t {
      assert SegmentOk(left[i]);
    }
    hide FilesOk;
  }

  lemma NewestOpens(left: seq<Segment>, f: Segment, t: int)
    requires forall i :: 0 <= i < |left| ==> JudgedOk(map[], t, left[i])
    requires SegmentOk(f) && f.name == f.mod == t && f.spans == []
    ensures NewestOk(left + [f], map[], t, t)
  {
  }

  lemma Later(files: seq<Segment>, open: bool, curName: int, curSize: nat, newest: map<int, int>, start: int,
              clock: int, t: int)
    requires FilesOk(files, clock) && CurrentOk(files, open, curName, curSize, start)
      && NewestOk(files, newest, start, clock)
    requires clock <= t
    ensures FilesOk(files, t) && CurrentOk(files, false, curName, curSize, start) && NewestOk(files, newest, start, t)
  {
  }

  lemma Rolled(files: seq<Segment>, open: bool, curName: int, curSize: nat, earlier: seq<int>, newest: map<int, int>,
               start: int, clock: int, f: Segment)
    requires FilesOk(files, clock) && CurrentOk(files, open, curName, curSize, start)
    requires EarlierOk(files, earlier, start) && NewestOk(files, newest, start, clock)
    requires SegmentOk(f) && start <= clock < f.name == f.mod && f.spans == [] && f.tail == NoTail
    ensures FilesOk(files + [f], f.name) && CurrentOk(files + [f], false, curName, curSize, start)
    ensures f.headed ==> CurrentOk(files + [f], true, f.name, f.size, start)
    ensures EarlierOk(files + [f], earlier, start) && NewestOk(files + [f], newest, start, f.name)
  {
    FilesGrow(files, clock, f);
    EarlierGrow(files, earlier, start, f);
    NewestGrow(files, newest, start, clock, f);
    HasNameGrow(files, f, curName);
    HasNameGrow(files, f, f.name);
    hide FilesOk, EarlierOk, NewestOk, HasName;
  }

  lemma {:induction false} AllNamed(files: seq<Segment>, b: int, c: int)
    requires forall i :: 0 <= i < |files| ==> files[i].name < b && files[i].name < c
    ensures Content(files, b) == Content(files, c)
  {
    if files != [] {
      AllNamed(files[1..], b, c);
    }
  }

  lemma NamedBy(files: seq<Segment>, clock: int)
    requires FilesOk(files, clock)
    ensures forall i :: 0 <= i < |files| ==> files[i].name <= clock
  {
  }

  lemma SameBeforeGrows(files: seq<Segment>, f: Segment, start: int)
    requires start <= f.name
    ensures SameBefore(files, files, start) && SameBefore(files, files + [f], start)
  {
  }

  /** A segment just opened adds nothing to read; nor does time. */
  lemma RolledHolds(files: seq<Segment>, clock: int, start: int, f: Segment, t: int)
    requires FilesOk(files, clock) && clock < f.name == t && f.spans == [] && f.tail == NoTail && start <= f.name
    ensures Content(files, t + 1) == Content(files, clock + 1) == Content(files + [f], t + 1)
    ensures Total(files + [f]) == Total(files) + f.size
    ensures SameBefore(files, files, start) && SameBefore(files, files + [f], start)
  {
    NamedBy(files, clock);
    assert Readable(f) == [];
    SameBeforeGrows(files, f, start);
    hide *;
    AllNamed(files, t + 1, clock + 1);
    ContentOfAll(files, f, t + 1);
    NothingMore(Content(files, t + 1), Readable(f));
    TotalOf(files, f);
  }

  lemma NothingMore(s: seq<Span>, none: seq<Span>)
    requires none == []
    ensures s + none == s
  {
  }

  lemma SameBeforeJoins(a: seq<Segment>, b: seq<Segment>, start: int)
    requires SameBefore(a, b, start)
    ensures forall c :: SameBefore(b, c, start) ==> SameBefore(a, c, start)
  {
  }

  lemma Unrolled(files: seq<Segment>, clock: int, start: int, t: int)
    requires FilesOk(files, clock) && clock <= t
    ensures Content(files, t + 1) == Content(files, clock + 1) && SameBefore(files, files, start)
  {
    NamedBy(files, clock);
    AllNamed(files, t + 1, clock + 1);
  }

  lemma NothingYet(t: int, run: int, size: nat)
    ensures Readable(Segment(t, run, true, [], NoTail, size, t)) == []
  {
  }

  /** What a line, or part of one, does to the segments. */
  lemma Written(files: seq<Segment>, open: bool, curName: int, curSize: nat, earlier: seq<int>, newest: map<int, int>,
                start: int, clock: int, sp: Span, w: Writing)
    requires FilesOk(files, clock) && open && CurrentOk(files, open, curName, curSize, start)
    requires EarlierOk(files, earlier, start) && NewestOk(files, newest, start, clock)
    requires Leaves(w, sp) && clock <= sp.arrival < curName + SEGMENT_LIFE
    requires Readable(files[|files| - 1]) == [] || clock < sp.arrival
    ensures var more := files[..|files| - 1] + [Grown(files[|files| - 1], sp, w)];
            && FilesOk(more, sp.arrival) && CurrentOk(more, w.Writes?, curName, more[|files| - 1].size, start)
            && EarlierOk(more, earlier, start)
            && NewestOk(more, if w.Writes? then newest[curName := sp.arrival] else newest, start, sp.arrival)
            && SameBefore(files, more, start)
            && Content(more, sp.arrival + 1) ==
                 Content(files, sp.arrival + 1) + (if w.Writes? || w.left.WithoutNewline? then [sp] else [])
            && Total(more) == Total(files) + (if w.Writes? then sp.line else w.bytes)
            && (w.Writes? || w.left.WithoutNewline? ==> sp in Readable(more[|files| - 1]))
  {
    hide FilesOk, CurrentOk, EarlierOk, NewestOk, SegmentOk, HasName, Content, Readable, Total, SameBefore, Grown, Leaves;
    CurrentIsLast(files, open, curName, curSize, start);
    var last := |files| - 1;
    var f, g := files[last], Grown(files[last], sp, w);
    GrownIs(f, sp, w);
    LastOk(files, clock);
    GrownOk(f, sp, w);
    FilesWritten(files, clock, g);
    EarlierWritten(files, earlier, start, g);
    NewestWritten(files, newest, start, clock, sp, w);
    CurrentWritten(files[..last] + [g], w.Writes?, curName, start);
    assert files == files[..last] + [f];
    ContentOfAll(files[..last], f, sp.arrival + 1);
    ContentOfAll(files[..last], g, sp.arrival + 1);
    TotalOf(files[..last], f);
    TotalOf(files[..last], g);
  }

  lemma GrownIs(f: Segment, sp: Span, w: Writing)
    ensures var g := Grown(f, sp, w);
            && g.name == f.name && g.mod == sp.arrival && g.headed == f.headed && (w.Writes? ==> g.tail == f.tail)
            && g.size == f.size + (if w.Writes? then sp.line else w.bytes)
  {
  }

  lemma CurrentIsLast(files: seq<Segment>, open: bool, curName: int, curSize: nat, start: int)
    requires open && CurrentOk(files, open, curName, curSize, start)
    ensures files != [] && HasName(files, curName) && start <= curName == files[|files| - 1].name
    ensures files[|files| - 1].size == curSize && files[|files| - 1].headed && files[|files| - 1].tail == NoTail
  {
  }

  lemma CurrentWritten(files: seq<Segment>, open: bool, curName: int, start: int)
    requires files != [] && files[|files| - 1].name == curName >= start
    requires open ==> files[|files| - 1].headed && files[|files| - 1].tail == NoTail
    ensures CurrentOk(files, open, curName, files[|files| - 1].size, start)
  {
  }

  lemma LastOk(files: seq<Segment>, clock: int)
    requires files != [] && FilesOk(files, clock)
    ensures SegmentOk(files[|files| - 1]) && files[|files| - 1].name <= files[|files| - 1].mod <= clock
  {
  }

  // ---------------------------------------------------------------- the oldest segment goes

  /** slices.DeleteFunc: every occurrence goes, the rest keep their order. */
  function Without(names: seq<int>, name: int): seq<int> {
    if names == [] then []
    else (if names[0] == name then [] else [names[0]]) + Without(names[1..], name)
  }

  lemma {:induction false} WithoutHolds(names: seq<int>, name: int)
    requires Increasing(names)
    ensures Increasing(Without(names, name)) && forall n :: n in Without(names, name) <==> n in names && n != name
  {
    hide Increasing;
    if names == [] {
      IncreasingNone();
    } else {
      Uncons(names);
      Cons(names[0], names[1..]);
      WithoutHolds(names[1..], name);
      Cons(names[0], Without(names[1..], name));
      assert [] + Without(names[1..], name) == Without(names[1..], name);
    }
  }

  lemma FirstGoes(files: seq<Segment>, open: bool, curName: int, curSize: nat, earlier: seq<int>, newest: map<int, int>,
                  start: int, clock: int)
    requires files != [] && files[0].name != curName
    requires FilesOk(files, clock) && CurrentOk(files, open, curName, curSize, start)
    requires EarlierOk(files, earlier, start) && NewestOk(files, newest, start, clock)
    ensures FilesOk(files[1..], clock) && CurrentOk(files[1..], open, curName, curSize, start)
    ensures EarlierOk(files[1..], Without(earlier, files[0].name), start)
    ensures NewestOk(files[1..], newest - {files[0].name}, start, clock)
  {
    OrderedNames(files);
    OrderedTail(files, 1);
    hide Ordered, EarlierOk, NewestOk;
    EarlierLeft(files, earlier, start);
    NewestLeft(files, newest, start, clock);
    CurrentLeft(files, open, curName, curSize, start);
  }

  lemma CurrentLeft(files: seq<Segment>, open: bool, curName: int, curSize: nat, start: int)
    requires files != [] && files[0].name != curName && NamesAscend(files)
      && CurrentOk(files, open, curName, curSize, start)
    ensures CurrentOk(files[1..], open, curName, curSize, start)
  {
  }

  lemma NamesLeft(files: seq<Segment>)
    requires files != [] && NamesAscend(files)
    ensures forall n :: HasName(files[1..], n) <==> HasName(files, n) && n != files[0].name
  {
  }

  lemma EarlierLeft(files: seq<Segment>, earlier: seq<int>, start: int)
    requires files != [] && NamesAscend(files) && EarlierOk(files, earlier, start)
    ensures EarlierOk(files[1..], Without(earlier, files[0].name), start)
  {
    NamesLeft(files);
    WithoutHolds(earlier, files[0].name);
    hide HasName;
  }

  lemma NewestLeft(files: seq<Segment>, newest: map<int, int>, start: int, clock: int)
    requires files != [] && NamesAscend(files) && NewestOk(files, newest, start, clock)
    ensures NewestOk(files[1..], newest - {files[0].name}, start, clock)
  {
  }

  lemma HasCurrent(files: seq<Segment>, open: bool, curName: int, curSize: nat, start: int)
    requires CurrentOk(files, open, curName, curSize, start)
    ensures HasName(files, curName) && files != []
  {
  }

  lemma NamesOnce(files: seq<Segment>, clock: int)
    requires FilesOk(files, clock)
    ensures NamesAscend(files)
  {
  }

  function Mods(newest: map<int, int>, files: seq<Segment>): seq<int> {
    seq(|files|, i requires 0 <= i < |files| => Judged(newest, files[i]))
  }

  lemma ModsAscend(newest: map<int, int>, files: seq<Segment>, start: int, clock: int)
    requires FilesOk(files, clock) && NewestOk(files, newest, start, clock)
    ensures |Mods(newest, files)| == |files|
    ensures forall i :: 0 <= i < |files| ==> Mods(newest, files)[i] == Judged(newest, files[i])
    ensures forall i :: 0 < i < |files| ==> Mods(newest, files)[i - 1] < Mods(newest, files)[i]
  {
  }

  /** Past its age, or one too many: expiry may delete it. */
  ghost predicate Expired(newest: map<int, int>, files: seq<Segment>, i: nat, cutoff: int, maxBytes: nat)
    requires i < |files|
  {
    Judged(newest, files[i]) < cutoff || Total(files[i..]) > maxBytes
  }

  lemma HadToGo(newest: map<int, int>, files: seq<Segment>, k: nat, cutoff: int, maxBytes: nat)
    requires k <= |files| && forall i :: 0 <= i < k ==> Expired(newest, files, i, cutoff, maxBytes)
    ensures forall i :: 0 <= i < k ==> Judged(newest, files[i]) < cutoff || Total(files[i..]) > maxBytes
  {
    forall i | 0 <= i < k ensures Judged(newest, files[i]) < cutoff || Total(files[i..]) > maxBytes {
      assert Expired(newest, files, i, cutoff, maxBytes);
    }
  }

  /** `rest` is what is left of the listing after its first `k`. */
  ghost predicate Rest(files: seq<Segment>, k: nat, rest: seq<Segment>) {
    k < |files| && rest == files[k..]
  }

  lemma NextRest(files: seq<Segment>, k: nat, rest: seq<Segment>)
    requires Rest(files, k, rest)
    ensures rest != [] && rest[0] == files[k] && Total(rest) == files[k].size + Total(rest[1..])
    ensures rest[1..] != [] ==> Rest(files, k + 1, rest[1..])
  {
  }

  lemma FirstRest(files: seq<Segment>)
    requires files != []
    ensures Rest(files, 0, files) && files[0..] == files
  {
  }

  lemma IsRest(files: seq<Segment>, k: nat, rest: seq<Segment>)
    requires Rest(files, k, rest)
    ensures rest == files[k..]
  {
  }

  lemma IsExpired(newest: map<int, int>, files: seq<Segment>, k: nat, rest: seq<Segment>, cutoff: int, maxBytes: nat)
    requires Rest(files, k, rest)
    ensures Expired(newest, files, k, cutoff, maxBytes) <==>
              Judged(newest, files[k]) < cutoff || Total(rest) > maxBytes
  {
  }

  /** Once expiry stops at a segment, every span still on disk arrived within maxAge and an hour. */
  lemma {:induction false} SurvivorsAreYoung(newest: map<int, int>, files: seq<Segment>, start: int, clock: int,
                                             cutoff: int, maxBytes: nat)
    requires FilesOk(files, clock) && NewestOk(files, newest, start, clock)
    requires files != [] && !Expired(newest, files, 0, cutoff, maxBytes)
    ensures Total(files) <= maxBytes
    ensures forall i, sp :: 0 <= i < |files| && sp in Readable(files[i]) ==> sp.arrival > cutoff - SEGMENT_LIFE
  {
  }

  /** Every span on disk arrived within maxAge and an hour. */
  ghost predicate Young(files: seq<Segment>, cutoff: int) {
    forall i, sp :: 0 <= i < |files| && sp in Readable(files[i]) ==> sp.arrival > cutoff - SEGMENT_LIFE
  }

  /** What expiry leaves where it stops of itself. */
  ghost predicate Expiring(files: seq<Segment>, curName: int, cutoff: int, maxBytes: nat) {
    || (Total(files) <= maxBytes && Young(files, cutoff))
    || (files != [] && files[0].name == curName && (files[|files| - 1].name == curName ==> |files| == 1))
  }

  /** The arrivals recorded of the segments left are those recorded at first. */
  ghost predicate Remembers(was: map<int, int>, newest: map<int, int>, files: seq<Segment>) {
    forall i :: 0 <= i < |files| ==>
                  && (files[i].name in newest <==> files[i].name in was)
                  && (files[i].name in newest ==> newest[files[i].name] == was[files[i].name])
  }

  lemma RemembersAll(newest: map<int, int>, files: seq<Segment>)
    ensures Remembers(newest, newest, files)
  {
  }

  lemma StillRemembers(was: map<int, int>, newest: map<int, int>, files: seq<Segment>, clock: int)
    requires Remembers(was, newest, files) && FilesOk(files, clock) && files != []
    ensures Remembers(was, newest - {files[0].name}, files[1..])
  {
    forall i | 0 < i < |files| ensures files[i].name != files[0].name {
      assert files[0].name <= files[0].mod < files[i].name;
    }
  }

  lemma Remembered(was: map<int, int>, newest: map<int, int>, files: seq<Segment>)
    requires Remembers(was, newest, files)
    ensures files != [] ==>
              && (files[0].name in newest <==> files[0].name in was)
              && (files[0].name in newest ==> newest[files[0].name] == was[files[0].name])
  {
  }

  lemma ExpiryStops(newest: map<int, int>, segs: seq<Segment>, k: nat, files: seq<Segment>, start: int, clock: int,
                    left: map<int, int>, curName: int, cutoff: int, maxBytes: nat)
    requires FilesOk(files, clock) && NewestOk(files, left, start, clock) && files != [] && Rest(segs, k, files)
    requires files[0].name == curName || !Expired(newest, segs, k, cutoff, maxBytes)
    requires files[0].name in left <==> files[0].name in newest
    requires files[0].name in left ==> left[files[0].name] == newest[files[0].name]
    ensures Expiring(files, curName, cutoff, maxBytes)
  {
    if files[0].name != curName {
      FirstRest(files);
      IsExpired(newest, segs, k, files, cutoff, maxBytes);
      IsExpired(left, files, 0, files, cutoff, maxBytes);
      NextRest(segs, k, files);
      SurvivorsAreYoung(left, files, start, clock, cutoff, maxBytes);
    }
  }

  class Disk {
    const run: int
    const maxAge: nat
    const maxBytes: nat
    const header: nat           // bytes of a segment's header line
    var files: seq<Segment>     // the directory, as listSegments lists it
    var open: bool              // cur is not nil
    var curName: int            // the current segment, named by when it was opened
    var curSize: nat
    var failing: bool
    var earlier: seq<int>       // segments of earlier runs
    var newest: map<int, int>   // latest arrival, by segment
    ghost const start: int      // when this run opened its first segment
    ghost var clock: int
    ghost var givenUp: set<int> // segments whose header or a line of which failed

    ghost predicate Valid()
      reads this
    {
      && FilesOk(files, clock) && start <= clock && curName <= clock
      && TurnsOk(files, open, start, clock, givenUp)
      && CurrentOk(files, open, curName, curSize, start)
      && EarlierOk(files, earlier, start)
      && NewestOk(files, newest, start, clock)
    }

    /** The current segment is missing, an hour old or full. */
    predicate Due(t: int)
      reads this
    {
      !open || t - curName >= SEGMENT_LIFE || curSize >= SEGMENT_MAX_BYTES
    }

    /** Everything a later run could read back. */
    ghost function Saved(): seq<Span>
      reads this
    {
      Content(files, clock + 1)
    }

    ghost predicate InLast(sp: Span)
      reads this
    {
      files != [] && sp in Readable(files[|files| - 1])
    }

    /** openDisk, on the segments earlier runs left; it fails when its first roll does. */
    constructor (left: seq<Segment>, run: int, maxAge: nat, maxBytes: nat, header: nat, t: int)
      requires FilesOk(left, t - 1)
      ensures Valid()
      ensures this.run == run && this.maxAge == maxAge && this.maxBytes == maxBytes && this.header == header
      ensures start == clock == t && earlier == Names(left) && open && givenUp == {}
      ensures Content(files, t) == Content(left, t) && SameBefore(left, files, t)
    {
      hide FilesOk, CurrentOk, EarlierOk, NewestOk, SegmentOk, SameBefore, Content, TurnsOk;
      var f := Segment(t, run, true, [], NoTail, header, t);
      NewSegment(t, run, true, header);
      OpenedOk(left, f, t);
      ContentKept(left, left + [f], t, t);
      TurnsOpened(left, f, t);
      this.run, this.maxAge, this.maxBytes, this.header := run, maxAge, maxBytes, header;
      files := left + [f];
      open, curName, curSize, failing := true, t, header, false;
      earlier, newest, start, clock, givenUp := Names(left), map[], t, t, {};
    }

    /** roll: the current segment is given up first, whether or not the next can be opened. */
    method Roll(t: int, opening: Opening) returns (ok: bool)
      requires Valid() && clock < t && Due(t)
      modifies this
      ensures Valid() && clock == t && ok == opening.Opens?
      ensures givenUp == old(givenUp) + (if opening.HeaderFails? then {t} else {})
      ensures unchanged(`earlier) && unchanged(`newest) && unchanged(`failing)
      ensures open == ok && curName == (if ok then t else old(curName)) && (ok ==> curSize == header)
      ensures files == old(files) + (match opening
                                     case OpenFails => []
                                     case HeaderFails(n, readable) => [Segment(t, run, readable, [], NoTail, n, t)]
                                     case Opens => [Segment(t, run, true, [], NoTail, header, t)])
      ensures SameBefore(old(files), files, start) && Saved() == old(Saved())
    {
      hide FilesOk, CurrentOk, EarlierOk, NewestOk, SegmentOk, TurnsOk, SameBefore, Content, Total, Done, Due;
      if open { DueIsDone(t); }
      Later(files, open, curName, curSize, newest, start, clock, t);
      var f := Segment(t, run, if opening.HeaderFails? then opening.readable else true, [], NoTail,
                       if opening.HeaderFails? then opening.bytes else header, t);
      NewSegment(t, run, f.headed, f.size);
      Rolled(files, open, curName, curSize, earlier, newest, start, clock, f);
      RolledHolds(files, clock, start, f, t);
      TurnsRolled(files, open, start, clock, givenUp, f, t);
      open := false;
      clock := t;
      if opening.OpenFails? {
        return false;
      }
      files := files + [f];
      if opening.HeaderFails? {
        givenUp := givenUp + {t};
        return false;
      }
      open, curName, curSize := true, t, header;
      return true;
    }

    method WriteLine(sp: Span, w: Writing)
      requires Valid() && open && Leaves(w, sp) && clock <= sp.arrival < curName + SEGMENT_LIFE
      requires Readable(files[|files| - 1]) == [] || clock < sp.arrival
      modifies this
      ensures Valid() && clock == sp.arrival && open == w.Writes?
      ensures unchanged(`earlier) && unchanged(`failing) && unchanged(`curName)
      ensures givenUp == old(givenUp) + (if w.Writes? then {} else {curName})
      ensures curSize == old(curSize) + (if w.Writes? then sp.line else w.bytes)
      ensures newest == if w.Writes? then old(newest)[curName := sp.arrival] else old(newest)
      ensures SameBefore(old(files), files, start)
      ensures Saved() == old(Content(files, sp.arrival + 1)) + (if w.Writes? || w.left.WithoutNewline? then [sp] else [])
      ensures Total(files) == old(Total(files)) + (if w.Writes? then sp.line else w.bytes)
      ensures w.Writes? || w.left.WithoutNewline? ==> InLast(sp)
    {
      hide FilesOk, EarlierOk, NewestOk, CurrentOk, SameBefore, Content, Total, Readable, HasName, Grown, TurnsOk;
      CurrentIsLast(files, open, curName, curSize, start);
      Written(files, open, curName, curSize, earlier, newest, start, clock, sp, w);
      var last := |files| - 1;
      GrownIs(files[last], sp, w);
      TurnsWritten(files, start, clock, givenUp, Grown(files[last], sp, w), sp.arrival);
      curSize := curSize + (if w.Writes? then sp.line else w.bytes);
      files := files[..last] + [Grown(files[last], sp, w)];
      clock := sp.arrival;
      if w.Writes? {
        newest := newest[curName := sp.arrival];
      } else {
        open := false;
        givenUp := givenUp + {curName};
      }
    }

    /** Whether this span's line reaches the disk whole, newline apart. */
    predicate Keeps(t: int, encodes: bool, opening: Opening, w: Writing)
      reads this
    {
      encodes && (Due(t) ==> opening.Opens?) && (w.Writes? || w.left.WithoutNewline?)
    }

    /** The first half of append: whether the line can be written, to a segment begun for it if the current one is due. */
    method RollIfDue(t: int, encodes: bool, opening: Opening) returns (rolled: bool, ok: bool)
      requires Valid() && clock < t
      modifies this
      ensures Valid() && clock <= t && unchanged(`earlier) && unchanged(`newest)
      ensures ok == (encodes && (old(Due(t)) ==> opening.Opens?)) && rolled == (ok && old(Due(t)))
      ensures ok ==> open && t < curName + SEGMENT_LIFE && (files != [] ==> Readable(files[|files| - 1]) == [] || clock < t)
      ensures givenUp <= old(givenUp) + {t} && (ok ==> givenUp == old(givenUp))
      ensures open ==> curName == (if rolled then t else old(curName))
      ensures SameBefore(old(files), files, start) && Content(files, t + 1) == old(Saved())
      ensures ok && !rolled ==> files == old(files) && curSize == old(curSize) < SEGMENT_MAX_BYTES
      ensures rolled ==> curSize == header
    {
      hide FilesOk, CurrentOk, EarlierOk, NewestOk, SameBefore, Content, Total, Readable, TurnsOk;
      Unrolled(files, clock, start, t);
      rolled, ok := false, encodes;
      if encodes && Due(t) {
        ok := Roll(t, opening);
        rolled := ok;
        NothingYet(t, run, header);
      }
    }

    /** append */
    method Append(sp: Span, encodes: bool, opening: Opening, w: Writing) returns (rolled: bool)
      requires Valid() && clock < sp.arrival && Leaves(w, sp)
      modifies this
      ensures Valid() && clock == sp.arrival && unchanged(`earlier)
      ensures SameBefore(old(files), files, start)
      ensures rolled == (encodes && opening.Opens? &&
        (!old(open) || sp.arrival - old(curName) >= SEGMENT_LIFE || old(curSize) >= SEGMENT_MAX_BYTES))
      ensures givenUp <= old(givenUp) + {old(curName), sp.arrival}
      ensures open ==> givenUp == old(givenUp)
      ensures Saved() == old(Saved()) + (if old(Keeps(sp.arrival, encodes, opening, w)) then [sp] else [])
      ensures old(Keeps(sp.arrival, encodes, opening, w)) ==> InLast(sp)
      ensures open == (old(Keeps(sp.arrival, encodes, opening, w)) && w.Writes?) && failing == !open
      ensures open ==> curSize <= sp.line + (if rolled then header else SEGMENT_MAX_BYTES)
      ensures !rolled && open ==> Total(files) - curSize == old(Total(files) - curSize)
    {
      hide FilesOk, CurrentOk, EarlierOk, NewestOk, SameBefore, Content, Total, Readable, TurnsOk;
      ghost var before := files;
      var ok: bool;
      rolled, ok := RollIfDue(sp.arrival, encodes, opening);
      Later(files, open, curName, curSize, newest, start, clock, sp.arrival);
      TurnsLater(files, open, start, clock, givenUp, sp.arrival);
      if ok {
        CurrentIsLast(files, open, curName, curSize, start);
        SameBeforeJoins(before, files, start);
        WriteLine(sp, w);
        ok := w.Writes?;
      }
      failing := !ok;
      if !ok {
        if open {
          GivesUp(sp.arrival);
          givenUp := givenUp + {curName};
        }
        open := false;
      }
      clock := sp.arrival;
    }

    /**
     Expiry goes by when the last of a segment's spans arrived, whatever was written to it since,
     for each that this run saved a span in or a load has recorded; by its last write for the rest.
     */
    lemma JudgedByItsSpans(i: nat)
      requires Valid() && i < |files|
      ensures var f := files[i];
              if f.name in newest || (f.name >= start && f.spans != [])
              then Known(f, start) != [] && Judged(newest, f) == Known(f, start)[|Known(f, start)| - 1].arrival
              else Judged(newest, f) == f.mod
    {
      assert JudgedOk(newest, start, files[i]);
    }

    lemma DueIsDone(t: int)
      requires Valid() && open && Due(t)
      ensures files != [] && Done(files[|files| - 1], t)
    {
      hide FilesOk, CurrentOk, EarlierOk, NewestOk, TurnsOk, HasName;
      CurrentIsLast(files, open, curName, curSize, start);
    }

    lemma GivesUp(t: int)
      requires Valid() && open && clock <= t
      ensures TurnsOk(files, false, start, t, givenUp + {curName})
    {
      hide FilesOk, CurrentOk, EarlierOk, NewestOk, TurnsOk, HasName;
      TurnsLater(files, open, start, clock, givenUp, t);
      TurnsGivenUp(files, open, start, t, givenUp);
      CurrentIsLast(files, open, curName, curSize, start);
    }

    /** No segment is left for the next before it is an hour old or full, unless writing it failed. */
    lemma SegmentsFillUp(i: nat)
      requires Valid() && i + 1 < |files| && start <= files[i].name && files[i].name !in givenUp
      ensures files[i + 1].name - files[i].name >= SEGMENT_LIFE || files[i].size >= SEGMENT_MAX_BYTES
    {
    }

    ghost method Tick(t: int)
      requires Valid() && clock <= t
      modifies `clock
      ensures Valid() && clock == t
    {
      hide FilesOk, EarlierOk, NewestOk, CurrentOk, TurnsOk;
      Later(files, open, curName, curSize, newest, start, clock, t);
      TurnsLater(files, open, start, clock, givenUp, t);
      clock := t;
    }

    lemma LastIsSaved(sp: Span)
      requires Valid() && InLast(sp)
      ensures sp in Saved()
    {
      LastOk(files, clock);
      assert files[|files| - 1] in files;
      hide Readable;
      ContentHolds(files, clock + 1, sp);
    }

    lemma Holds()
      requires Valid()
      ensures files != [] && FilesOk(files, clock) && NewestOk(files, newest, start, clock)
    {
    }

    /** What deleting the oldest segment does. */
    method RemoveFirst()
      requires Valid() && files != [] && files[0].name != curName
      modifies `files, `earlier, `newest
      ensures Valid() && files == old(files)[1..] && newest == old(newest) - {old(files)[0].name} && files != []
    {
      hide FilesOk, EarlierOk, NewestOk, CurrentOk, TurnsOk;
      TurnsOfRest(files, open, start, clock, givenUp);
      FirstGoes(files, open, curName, curSize, earlier, newest, start, clock);
      HasCurrent(files[1..], open, curName, curSize, start);
      earlier := Without(earlier, files[0].name);
      newest := newest - {files[0].name};
      files := files[1..];
    }

    /**
     expire. `listed` is whether the directory could be listed, `removable` how many files can
     be removed. The first `k` segments go: each had to, and the next need not.
     */
    method Expire(t: int, listed: bool, removable: nat) returns (through: Option<int>, k: nat)
      requires Valid() && clock <= t
      modifies this
      ensures Valid() && clock == t
      ensures unchanged(`open) && unchanged(`curName) && unchanged(`curSize) && unchanged(`failing)
      ensures k < |old(files)| && files == old(files)[k..]
      ensures through == if k == 0 then None else Some(Judged(old(newest), old(files)[k - 1]))
      ensures forall i :: 0 <= i < k ==>
                old(files)[i].name != curName && Expired(old(newest), old(files), i, t - maxAge, maxBytes)
      ensures forall i :: 0 <= i < k ==>
                Judged(old(newest), old(files)[i]) < t - maxAge || Total(old(files)[i..]) > maxBytes
      ensures listed && k < removable ==> files[0].name == curName || !Expired(old(newest), old(files), k, t - maxAge, maxBytes)
      ensures listed && k < removable ==> Expiring(files, curName, t - maxAge, maxBytes)
    {
      hide *;
      through, k := None, 0;
      Tick(t);
      Holds();
      FirstRest(files);
      var segs, total, cutoff := files, Total(files), t - maxAge;
      ghost var was := newest;
      RemembersAll(was, files);
      if !listed {
        return;
      }
      var mods := Mods(newest, segs);
      ModsAscend(newest, segs, start, t);
      while files[0].name != curName && !(mods[k] >= cutoff && total <= maxBytes) && k < removable
        invariant k < |segs| && Rest(segs, k, files) && total == Total(files) && Valid() && files != []
        invariant through == if k == 0 then None else Some(mods[k - 1])
        invariant forall i :: 0 <= i < k ==> segs[i].name != curName && Expired(was, segs, i, cutoff, maxBytes)
        invariant unchanged(`open) && unchanged(`curName) && unchanged(`curSize) && unchanged(`failing) && clock == t
        invariant Remembers(was, newest, files)
        decreases |segs| - k
      {
        NextRest(segs, k, files);
        IsExpired(was, segs, k, files, cutoff, maxBytes);
        if through.None? || mods[k] > through.value {
          through := Some(mods[k]);
        }
        total := total - files[0].size;
        Holds();
        StillRemembers(was, newest, files, clock);
        RemoveFirst();
        k := k + 1;
      }
      IsExpired(was, segs, k, files, cutoff, maxBytes);
      IsRest(segs, k, files);
      HadToGo(was, segs, k, cutoff, maxBytes);
      if k < removable {
        Remembered(was, newest, files);
        Holds();
        ExpiryStops(was, segs, k, files, start, t, newest, curName, cutoff, maxBytes);
      }
    }
  }
}
