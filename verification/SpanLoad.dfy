/**
 What LoadFromDisk (internal/tracing/storage.go) has read so far, and why appends and
 expiry between its reads do it no harm. A load copies the names of the earlier runs'
 segments under the lock, reads them one by one without it, and takes it again to merge.
 */
module SpanLoad {
  import opened Wrappers
  import opened Segments
  import opened SpanDisk

  /** The struct loaded of disk.go. */
  datatype Loaded = Loaded(spans: seq<Span>, runs: seq<int>, newest: map<int, int>, skipped: nat)

  /** Where LoadFromDisk is: its names, how many are read, and what they held. */
  datatype Load = NotStarted | Reading(names: seq<int>, i: nat, got: Loaded) | Finished

  /** Lines of a segment that cannot be read: no more than the torn one. */
  function BadLines(f: Segment): nat {
    if f.headed && f.tail.Unreadable? then 1 else 0
  }

  /** One turn of the loop in Disk.load; a name that no longer has a file gives nothing. */
  function ReadInto(got: Loaded, files: seq<Segment>, name: int): Loaded {
    if !HasName(files, name) then got
    else
      var f := files[IndexOfName(files, name)];
      Loaded(got.spans + Readable(f),
             if f.headed then got.runs + [f.run] else got.runs,
             if Readable(f) != [] then got.newest[name := Last(f)] else got.newest,
             got.skipped + BadLines(f))
  }

  /** A segment read: its spans, its run if its header could be read, when its last span arrived, and the torn line. */
  ghost predicate AddsSegment(got: Loaded, f: Segment, more: Loaded) {
    && more.spans == got.spans + Readable(f)
    && more.runs == got.runs + (if f.headed then [f.run] else [])
    && more.skipped == got.skipped + (if f.headed && f.tail == Unreadable then 1 else 0)
    && (forall n :: n in more.newest <==> n in got.newest || (n == f.name && Readable(f) != []))
    && forall n :: n in more.newest ==>
                     more.newest[n] == if n == f.name && Readable(f) != [] then Readable(f)[|Readable(f)| - 1].arrival else got.newest[n]
  }

  lemma ReadAdds(got: Loaded, files: seq<Segment>, name: int)
    ensures var more := ReadInto(got, files, name);
            if HasName(files, name) then AddsSegment(got, files[IndexOfName(files, name)], more) else more == got
  {
  }

  function Last(f: Segment): int
    requires Readable(f) != []
  {
    Readable(f)[|Readable(f)| - 1].arrival
  }

  /** The name up to which `i` reads have got. */
  function Bound(names: seq<int>, i: nat, start: int): int {
    if i < |names| then names[i] else start
  }

  lemma BoundGrows(names: seq<int>, i: nat, start: int)
    requires Increasing(names)
    requires i <= |names| && forall n :: n in names ==> n < start
    ensures Bound(names, i, start) <= start
    ensures i < |names| ==> Bound(names, i, start) < Bound(names, i + 1, start) <= start
  {
    assert forall x :: 0 <= x < |names| ==> names[x] in names;
  }

  /** The earlier runs' segments still there are among the names. */
  ghost predicate NamesOk(files: seq<Segment>, start: int, names: seq<int>) {
    && Increasing(names)
    && (forall n :: n in names ==> n < start)
    && forall i :: 0 <= i < |files| && files[i].name < start ==> files[i].name in names
  }

  /** A segment read and still there is recorded with its last arrival. */
  ghost predicate RecordOk(files: seq<Segment>, start: int, newest: map<int, int>) {
    && (forall n :: n in newest ==> n < start)
    && forall i :: 0 <= i < |files| && files[i].name in newest ==>
                     Readable(files[i]) != [] && newest[files[i].name] == Last(files[i])
  }

  /**
   What a load has read, less what arrived too early to be kept, is what the segments read
   so far hold now, whatever has been deleted since.
   */
  ghost predicate LoadOk(files: seq<Segment>, start: int, dropped: int, names: seq<int>, i: nat, got: Loaded) {
    && i <= |names| && NamesOk(files, start, names) && RecordOk(files, start, got.newest)
    && After(got.spans, dropped) == Content(files, Bound(names, i, start))
  }

  ghost predicate HeldAfter(files: seq<Segment>, b: int, dropped: int) {
    forall sp :: sp in Content(files, b) ==> sp.arrival > dropped
  }

  lemma LoadBegins(files: seq<Segment>, earlier: seq<int>, start: int, dropped: int)
    requires EarlierOk(files, earlier, start)
    ensures LoadOk(files, start, dropped, earlier, 0, Loaded([], [], map[], 0))
  {
    if earlier == [] {
      NothingBelow(files, start);
    } else {
      forall i | 0 <= i < |files| ensures files[i].name >= earlier[0] {
        if files[i].name < start {
          var j :| 0 <= j < |earlier| && earlier[j] == files[i].name;
        } else {
          assert earlier[0] in earlier;
        }
      }
      NothingBelow(files, earlier[0]);
    }
  }

  lemma LoadReads(files: seq<Segment>, clock: int, start: int, dropped: int, names: seq<int>, i: nat, got: Loaded)
    requires FilesOk(files, clock) && HeldAfter(files, start, dropped)
    requires LoadOk(files, start, dropped, names, i, got) && i < |names|
    ensures LoadOk(files, start, dropped, names, i + 1, ReadInto(got, files, names[i]))
  {
    var b, c := Bound(names, i, start), Bound(names, i + 1, start);
    NamesOnce(files, clock);
    BoundGrows(names, i, start);
    forall x | 0 <= x < |files| && b <= files[x].name < c ensures files[x].name == b {
      NoneBetween(names, i, start, files[x].name);
    }
    ContentUpTo(files, b, c);
    RecordReads(files, start, names[i], got);
    hide FilesOk, NamesAscend, RecordOk, NamesOk, Content;
    if HasName(files, b) {
      var r := Readable(files[IndexOfName(files, b)]);
      HeldByOne(files, b, start, dropped);
      AfterAll(r, dropped);
      AfterJoin(got.spans, r, dropped);
    }
  }

  lemma NoneBetween(names: seq<int>, i: nat, start: int, n: int)
    requires Increasing(names)
    requires i < |names| && n in names && names[i] <= n < Bound(names, i + 1, start)
    ensures n == names[i]
  {
  }

  lemma HeldByOne(files: seq<Segment>, name: int, b: int, dropped: int)
    requires HeldAfter(files, b, dropped) && HasName(files, name) && name < b
    ensures forall sp :: sp in Readable(files[IndexOfName(files, name)]) ==> sp.arrival > dropped
  {
  }

  lemma RecordReads(files: seq<Segment>, start: int, name: int, got: Loaded)
    requires NamesAscend(files) && RecordOk(files, start, got.newest) && name < start
    ensures RecordOk(files, start, ReadInto(got, files, name).newest)
  {
  }

  /** Appends, and new segments, come after everything a load reads. */
  lemma LoadSurvivesAppend(files: seq<Segment>, more: seq<Segment>, start: int, dropped: int, names: seq<int>,
                           i: nat, got: Loaded)
    requires LoadOk(files, start, dropped, names, i, got) && SameBefore(files, more, start)
    ensures LoadOk(more, start, dropped, names, i, got)
  {
    BoundGrows(names, i, start);
    ContentKept(files, more, start, Bound(names, i, start));
    hide Content, Readable, After;
  }

  function Max(a: int, b: int): int {
    if a > b then a else b
  }

  /** What expiry tells the storage about the `k` segments it deleted. */
  ghost predicate Drops(files: seq<Segment>, k: nat, start: int, through: int) {
    && 0 < k <= |files| && through <= files[k - 1].mod
    && forall i, sp :: 0 <= i < k && sp in Known(files[i], start) ==> sp.arrival <= through
  }

  /** A load begun before an expiry brings back nothing that it deleted, and loses nothing else. */
  lemma LoadSurvivesExpiry(files: seq<Segment>, clock: int, k: nat, through: int, start: int, dropped: int,
                           names: seq<int>, i: nat, got: Loaded)
    requires FilesOk(files, clock) && Drops(files, k, start, through) && HeldAfter(files, start, dropped)
    requires LoadOk(files, start, dropped, names, i, got)
    ensures LoadOk(files[k..], start, Max(dropped, through), names, i, got)
  {
    var b := Bound(names, i, start);
    BoundGrows(names, i, start);
    hide FilesOk, Content, After, Readable, Known, Drops, RecordOk, NamesOk, HeldAfter, Bound;
    ContentExpires(files, clock, k, through, start, b);
    var all := Content(files, b);
    assert After(all, Max(dropped, through)) == After(all, through) by {
      HeldBelow(files, b, start, dropped);
      AfterBoth(all, dropped, through);
    }
    AfterKeepsMax(got.spans, dropped, through);
    StillNamed(files, k, start, names, got.newest);
  }

  lemma AfterKeepsMax(s: seq<Span>, dropped: int, through: int)
    ensures After(After(s, dropped), Max(dropped, through)) == After(s, Max(dropped, through))
  {
    AfterTwice(s, dropped, Max(dropped, through));
  }

  lemma StillNamed(files: seq<Segment>, k: nat, start: int, names: seq<int>, newest: map<int, int>)
    requires k <= |files| && NamesOk(files, start, names) && RecordOk(files, start, newest)
    ensures NamesOk(files[k..], start, names) && RecordOk(files[k..], start, newest)
  {
  }

  lemma HeldBelow(files: seq<Segment>, b: int, c: int, dropped: int)
    requires HeldAfter(files, c, dropped) && b <= c
    ensures HeldAfter(files, b, dropped)
  {
    forall sp | sp in Content(files, b) ensures sp.arrival > dropped {
      ContentHolds(files, b, sp);
      ContentHolds(files, c, sp);
    }
  }

  lemma {:induction false} AfterBoth(s: seq<Span>, dropped: int, through: int)
    requires forall sp :: sp in s ==> sp.arrival > dropped
    ensures After(s, Max(dropped, through)) == After(s, through)
  {
    if s != [] {
      AfterBoth(s[1..], dropped, through);
    }
  }

  lemma ContentExpires(files: seq<Segment>, clock: int, k: nat, through: int, start: int, b: int)
    requires FilesOk(files, clock) && Drops(files, k, start, through) && b <= start
    ensures Content(files[k..], b) == After(Content(files, b), through)
  {
    forall i, sp | 0 <= i < k && files[i].name < b && sp in Readable(files[i]) ensures sp.arrival <= through {
      assert sp in Known(files[i], start);
    }
    ExpiryIsByArrival(files, k, b, through);
  }
}
