/**
 The class SpanStorage of internal/tracing/storage.go, with a disk attached. Each method is
 one critical section; LoadFromDisk, which reads without the lock, is three: BeginLoad,
 ReadNext for each segment, FinishLoad. Any calls in any order are an interleaving of them.
 */
module SpanStore {
  import opened Wrappers
  import opened Segments
  import opened SpanDisk
  import opened SpanLoad

  /** The zero time.Time, in nanoseconds since 1970: before anything ever stored. */
  const ZERO_TIME: int := -62_135_596_800_000_000_000

  function Bytes(s: seq<Span>): nat {
    if s == [] then 0 else s[0].size + Bytes(s[1..])
  }

  lemma {:induction false} BytesJoin(a: seq<Span>, b: seq<Span>)
    ensures Bytes(a + b) == Bytes(a) + Bytes(b)
  {
    if a == [] {
      assert a + b == b;
    } else {
      assert (a + b)[1..] == a[1..] + b;
      BytesJoin(a[1..], b);
    }
  }

  // ---------------------------------------------------------------- retention

  /** The limits in force; `lone` spares a span that is larger than all of them, alone. */
  datatype Limits = Limits(cutoff: int, maxBytes: nat, maxSize: nat, lone: bool)

  ghost predicate Fits(l: Limits, s: seq<Span>) {
    && (forall sp :: sp in s ==> sp.arrival >= l.cutoff)
    && (Bytes(s) <= l.maxBytes || (l.lone && |s| == 1))
    && |s| <= l.maxSize
  }

  /** Nothing but the oldest goes, and no more than has to. */
  ghost predicate LongestFit(l: Limits, all: seq<Span>, k: nat) {
    && k <= |all| && Fits(l, all[k..])
    && forall j :: 0 <= j < k ==> !Fits(l, all[j..])
  }

  /** The longest run of the newest spans that fits. */
  ghost predicate Retained(l: Limits, all: seq<Span>, kept: seq<Span>) {
    exists k: nat :: k <= |all| && LongestFit(l, all, k) && kept == all[k..]
  }

  lemma ShorterFits(l: Limits, all: seq<Span>, j: nat, k: nat)
    requires j <= k <= |all| && Fits(l, all[j..])
    ensures Fits(l, all[k..])
  {
    assert all[j..] == all[j..k] + all[k..];
    BytesJoin(all[j..k], all[k..]);
  }

  /** `s` is what is left when the oldest `k` have gone, and each of them had to. */
  ghost predicate Left(l: Limits, all: seq<Span>, k: nat, s: seq<Span>) {
    && k <= |all| && s == all[k..] && (k > 0 ==> !Fits(l, all[k - 1..]))
    && forall sp :: sp in s ==> sp.arrival >= l.cutoff
  }

  /** After evictOldSpans. */
  lemma LeftYoung(l: Limits, all: seq<Span>, k: nat)
    requires k <= |all| && (k > 0 ==> all[k - 1].arrival < l.cutoff)
    requires forall sp :: sp in all[k..] ==> sp.arrival >= l.cutoff
    ensures Left(l, all, k, all[k..])
  {
    if k > 0 { assert all[k - 1] in all[k - 1..]; }
  }

  /** After one more, when what is left is too large. */
  lemma LeftSmaller(l: Limits, all: seq<Span>, k: nat, s: seq<Span>)
    requires Left(l, all, k, s) && s != [] && (Bytes(s) > l.maxBytes || |s| > l.maxSize) && (l.lone ==> |s| > 1)
    ensures Left(l, all, k + 1, s[1..])
  {
    hide Bytes;
    assert all[k..] == s && all[k + 1..] == s[1..];
  }

  /** After those over the count. */
  lemma LeftFewer(l: Limits, all: seq<Span>, k: nat, s: seq<Span>, over: nat)
    requires Left(l, all, k, s) && over > 0 && |s| - over == l.maxSize
    ensures Left(l, all, k + over, s[over..])
  {
    hide Bytes;
    assert all[k + over..] == s[over..] && |all[k + over - 1..]| == l.maxSize + 1;
  }

  /** What is left once it is within the limits is the longest fit. */
  lemma LeftIsRetained(l: Limits, all: seq<Span>, k: nat, s: seq<Span>)
    requires Left(l, all, k, s) && (Bytes(s) <= l.maxBytes || (l.lone && |s| == 1)) && |s| <= l.maxSize
    ensures Retained(l, all, s)
  {
    hide Bytes;
    assert Fits(l, all[k..]);
    forall j | 0 <= j < k ensures !Fits(l, all[j..]) {
      if Fits(l, all[j..]) {
        ShorterFits(l, all, j, k - 1);
      }
    }
    assert LongestFit(l, all, k);
  }

  // ---------------------------------------------------------------- what holds between calls

  /** Held spans are in arrival order, counted exactly, and none arrived as early as a deleted one. */
  ghost predicate MemoryOk(spans: seq<Span>, bytes: int, dropped: int, clock: int) {
    && Ascending(spans) && bytes == Bytes(spans)
    && forall sp :: sp in spans ==> dropped < sp.arrival <= clock
  }

  /** Until a load has finished, everything held arrived in this run. */
  ghost predicate LoadingOk(load: Load, spans: seq<Span>, files: seq<Segment>, start: int, dropped: int) {
    && (!load.Finished? ==> forall sp :: sp in spans ==> sp.arrival > start)
    && (load.Reading? ==> LoadOk(files, start, dropped, load.names, load.i, load.got))
  }

  lemma {:induction false} BytesOfRest(s: seq<Span>, n: nat)
    requires n <= |s|
    ensures Bytes(s[n..]) == Bytes(s) - Bytes(s[..n])
  {
    assert s == s[..n] + s[n..];
    BytesJoin(s[..n], s[n..]);
  }

  /** Dropping everything up to the first span after `t` is keeping what arrived after it. */
  lemma RestIsAfter(s: seq<Span>, i: nat, t: int)
    requires Ascending(s) && i <= |s|
    requires forall x :: 0 <= x < i ==> s[x].arrival <= t
    requires i < |s| ==> s[i].arrival > t
    ensures s[i..] == After(s, t)
  {
    assert s == s[..i] + s[i..];
    AfterNone(s[..i], t);
    AfterAll(s[i..], t);
    AfterJoin(s[..i], s[i..], t);
  }

  lemma MemoryIs(spans: seq<Span>, bytes: int, dropped: int, clock: int)
    requires MemoryOk(spans, bytes, dropped, clock)
    ensures Ascending(spans) && bytes == Bytes(spans) && forall sp :: sp in spans ==> sp.arrival <= clock
  {
  }

  // ---------------------------------------------------------------- expiry

  /** Everything these segments are known to have held. */
  ghost function Deleted(files: seq<Segment>, start: int): set<Span> {
    set i, sp | 0 <= i < |files| && sp in Known(files[i], start) :: sp
  }

  lemma ExpiryDrops(files: seq<Segment>, newest: map<int, int>, start: int, clock: int, k: nat)
    requires FilesOk(files, clock) && SpanDisk.NewestOk(files, newest, start, clock) && 0 < k <= |files|
    ensures Drops(files, k, start, Judged(newest, files[k - 1])) && Judged(newest, files[k - 1]) <= clock
    ensures forall sp :: sp in Deleted(files[..k], start) ==> sp.arrival <= Judged(newest, files[k - 1])
  {
    assert JudgedOk(newest, start, files[k - 1]);
    forall i, sp | 0 <= i < k && sp in Known(files[i], start) ensures sp.arrival <= Judged(newest, files[k - 1]) {
      assert JudgedOk(newest, start, files[i]);
      assert i < k - 1 ==> files[i].mod < files[k - 1].name;
    }
  }

  lemma MemoryExpires(spans: seq<Span>, bytes: int, dropped: int, clock: int, t: int, through: int)
    requires MemoryOk(spans, bytes, dropped, clock) && clock <= t && through <= clock
    ensures After(spans, Max(dropped, through)) == After(spans, through)
    ensures MemoryOk(After(spans, through), Bytes(After(spans, through)), Max(dropped, through), t)
    ensures MemoryOk(spans, bytes, dropped, t) && After(spans, dropped) == spans
  {
    AfterBoth(spans, dropped, through);
    AfterAll(spans, dropped);
    AfterAscends(spans, through);
  }

  /** What memory drops is not on disk either. */
  lemma DroppedIsOff(spans: seq<Span>, dropped: int, files: seq<Segment>, b: int)
    requires Ascending(spans) && HeldAfter(files, b, dropped)
    ensures forall sp :: sp in spans && sp !in After(spans, dropped) ==> sp !in Content(files, b)
  {
    AfterAscends(spans, dropped);
    hide After, Content;
  }

  lemma {:induction false} AfterAscends(s: seq<Span>, t: int)
    requires Ascending(s)
    ensures Ascending(After(s, t)) && forall sp :: sp in After(s, t) <==> sp in s && sp.arrival > t
  {
    if s != [] {
      FirstIsOldest(s);
      hide Ascending;
      AfterAscends(s[1..], t);
      Older(s[0], After(s[1..], t));
    }
  }

  lemma FirstIsOldest(s: seq<Span>)
    requires Ascending(s) && s != []
    ensures Ascending(s[1..]) && s == [s[0]] + s[1..] && forall sp :: sp in s[1..] ==> s[0].arrival < sp.arrival
  {
  }

  lemma Older(sp: Span, s: seq<Span>)
    requires Ascending(s) && forall x :: x in s ==> sp.arrival < x.arrival
    ensures Ascending([sp] + s) && forall x :: x in [sp] + s <==> x == sp || x in s
  {
  }

  lemma HeldExpires(files: seq<Segment>, clock: int, k: nat, through: int, start: int, dropped: int, t: int)
    requires FilesOk(files, clock) && clock <= t && HeldAfter(files, clock + 1, dropped)
    requires k == 0 || Drops(files, k, start, through)
    requires k <= |files|
    ensures HeldAfter(files[k..], t + 1, if k == 0 then dropped else Max(dropped, through))
  {
    hide FilesOk, Readable, Content, Drops;
    forall sp | sp in Content(files[k..], t + 1)
      ensures sp.arrival > dropped && (k > 0 ==> sp.arrival > through)
    {
      ContentHolds(files[k..], t + 1, sp);
      var f :| f in files[k..] && f.name < t + 1 && sp in Readable(f);
      var i :| k <= i < |files| && files[i] == f;
      assert f in files;
      SurvivorLater(files, clock, k, through, start, i, sp);
      ContentHolds(files, clock + 1, sp);
    }
  }

  lemma SurvivorLater(files: seq<Segment>, clock: int, k: nat, through: int, start: int, i: nat, sp: Span)
    requires FilesOk(files, clock) && (k == 0 || Drops(files, k, start, through)) && k <= i < |files|
      && sp in Readable(files[i])
    ensures files[i].name <= clock && (k > 0 ==> sp.arrival > through)
  {
  }

  lemma LoadingExpires(load: Load, spans: seq<Span>, files: seq<Segment>, clock: int, k: nat, through: int,
                       start: int, dropped: int)
    requires LoadingOk(load, spans, files, start, dropped) && FilesOk(files, clock) && start <= clock
    requires Drops(files, k, start, through) && HeldAfter(files, clock + 1, dropped) && Ascending(spans)
    ensures LoadingOk(load, After(spans, through), files[k..], start, Max(dropped, through))
  {
    AfterAscends(spans, through);
    HeldBelow(files, start, clock + 1, dropped);
    if load.Reading? {
      LoadSurvivesExpiry(files, clock, k, through, start, dropped, load.names, load.i, load.got);
    }
    hide LoadOk, After;
  }

  // ---------------------------------------------------------------- adding a span

  /** What Keep leaves, in every part of what holds between calls. */
  lemma AddedOk(was: seq<Span>, bytes: int, sp: Span, kept: seq<Span>, keptBytes: int, l: Limits, load: Load,
                files: seq<Segment>, more: seq<Segment>, start: int, clock: int, dropped: int)
    requires MemoryOk(was, bytes, dropped, clock) && LoadingOk(load, was, files, start, dropped)
    requires Retained(l, was + [sp], kept) && keptBytes == Bytes(kept)
    requires start <= clock < sp.arrival && dropped <= clock && SameBefore(files, more, start)
    ensures MemoryOk(kept, keptBytes, dropped, sp.arrival) && LoadingOk(load, kept, more, start, dropped)
    ensures After(kept, dropped) == kept
  {
    hide Fits, LoadOk, SameBefore, LongestFit, Bytes, After, Retained;
    RetainedAscends(l, was, sp, kept);
    AfterAll(kept, dropped);
    if load.Reading? {
      LoadSurvivesAppend(files, more, start, dropped, load.names, load.i, load.got);
    }
  }

  lemma RetainedAscends(l: Limits, was: seq<Span>, sp: Span, kept: seq<Span>)
    requires Ascending(was) && (forall x :: x in was ==> x.arrival < sp.arrival) && Retained(l, was + [sp], kept)
    ensures Ascending(kept) && forall x :: x in kept ==> x in was || x == sp
  {
  }

  lemma HeldGrows(files: seq<Segment>, more: seq<Segment>, clock: int, sp: Span, dropped: int)
    requires HeldAfter(files, clock + 1, dropped) && dropped <= clock < sp.arrival
    requires || Content(more, sp.arrival + 1) == Content(files, clock + 1)
             || Content(more, sp.arrival + 1) == Content(files, clock + 1) + [sp]
    ensures HeldAfter(more, sp.arrival + 1, dropped)
  {
  }

  // ---------------------------------------------------------------- runs

  /** slices.SortFunc, then slices.CompactFunc. */
  function SortedDistinct(s: seq<int>): seq<int> {
    if s == [] then [] else Insert(SortedDistinct(s[1..]), s[0])
  }

  function Insert(s: seq<int>, x: int): seq<int> {
    if s == [] || x < s[0] then [x] + s
    else if x == s[0] then s
    else [s[0]] + Insert(s[1..], x)
  }

  lemma {:induction false} InsertHolds(s: seq<int>, x: int)
    requires Increasing(s)
    ensures Increasing(Insert(s, x)) && forall y :: y in Insert(s, x) <==> y in s || y == x
  {
    hide Increasing;
    if s == [] {
      IncreasingNone();
      Cons(x, []);
    } else {
      Uncons(s);
      Cons(s[0], s[1..]);
      if x < s[0] {
        Cons(x, s);
      } else if x > s[0] {
        InsertHolds(s[1..], x);
        Cons(s[0], Insert(s[1..], x));
      }
    }
  }

  lemma {:induction false} SortedDistinctHolds(s: seq<int>)
    ensures Increasing(SortedDistinct(s)) && forall y :: y in SortedDistinct(s) <==> y in s
  {
    IncreasingNone();
    hide Increasing;
    if s != [] {
      SortedDistinctHolds(s[1..]);
      InsertHolds(SortedDistinct(s[1..]), s[0]);
    }
  }

  // ---------------------------------------------------------------- finishing a load

  /** d.newest after a load: what it did not have, for the segments still there. */
  function Recorded(newest: map<int, int>, read: map<int, int>, earlier: seq<int>): map<int, int> {
    newest + map n | n in read && n !in newest && n in earlier :: read[n]
  }

  lemma RecordedOk(newest: map<int, int>, read: map<int, int>, earlier: seq<int>, files: seq<Segment>, start: int,
                   clock: int)
    requires FilesOk(files, clock) && SpanDisk.NewestOk(files, newest, start, clock)
      && RecordOk(files, start, read) && start <= clock
    ensures SpanDisk.NewestOk(files, Recorded(newest, read, earlier), start, clock)
  {
    hide Recorded, JudgedOk, Readable;
    forall i | 0 <= i < |files| ensures JudgedOk(Recorded(newest, read, earlier), start, files[i]) {
      assert JudgedOk(newest, start, files[i]) && SegmentOk(files[i]);
      RecordedSegment(newest, read, earlier, files[i], start);
    }
    RecordedKeys(newest, read, earlier);
  }

  lemma RecordedKeys(newest: map<int, int>, read: map<int, int>, earlier: seq<int>)
    ensures forall n :: n in Recorded(newest, read, earlier) ==> n in newest || n in read
  {
  }

  lemma RecordedSegment(newest: map<int, int>, read: map<int, int>, earlier: seq<int>, f: Segment, start: int)
    requires JudgedOk(newest, start, f) && SegmentOk(f)
    requires f.name in read ==> f.name < start && Readable(f) != [] && read[f.name] == Last(f)
    ensures JudgedOk(Recorded(newest, read, earlier), start, f)
  {
  }

  /** A finished load has read what the earlier runs' segments hold now, all of it before what is held. */
  lemma LoadHolds(load: Load, spans: seq<Span>, files: seq<Segment>, earlier: seq<int>, newest: map<int, int>,
                  start: int, clock: int, dropped: int)
    requires LoadingOk(load, spans, files, start, dropped) && load.Reading? && load.i == |load.names| && start <= clock
    requires FilesOk(files, clock) && EarlierOk(files, earlier, start) && SpanDisk.NewestOk(files, newest, start, clock)
    requires Ascending(spans)
    ensures After(load.got.spans, dropped) == Content(files, start)
    ensures SpanDisk.NewestOk(files, Recorded(newest, load.got.newest, earlier), start, clock)
    ensures Ascending(Content(files, start) + spans)
    ensures forall sp :: sp in Content(files, start) ==> dropped < sp.arrival <= clock
  {
    RecordedOk(newest, load.got.newest, earlier, files, start, clock);
    ContentAscends(files, start);
    AfterHolds(load.got.spans, dropped);
    hide After, RecordOk, SpanDisk.NewestOk, NamesOk, SpanLoad.NamesOk;
    forall sp | sp in Content(files, start) ensures sp.arrival < start {
      ContentHolds(files, start, sp);
      hide Content, Readable;
      var f :| f in files && f.name < start && sp in Readable(f);
      assert SegmentOk(f);
    }
  }

  lemma {:induction false} AfterHolds(s: seq<Span>, t: int)
    ensures forall sp :: sp in After(s, t) ==> sp.arrival > t
  {
    if s != [] {
      AfterHolds(s[1..], t);
    }
  }

  lemma LoadedOk(was: seq<Span>, bytes: int, loaded: seq<Span>, kept: seq<Span>, keptBytes: int, l: Limits,
                 dropped: int, clock: int)
    requires MemoryOk(was, bytes, dropped, clock) && Ascending(loaded + was) && Retained(l, loaded + was, kept)
      && keptBytes == Bytes(kept)
    requires forall sp :: sp in loaded ==> dropped < sp.arrival <= clock
    ensures MemoryOk(kept, keptBytes, dropped, clock)
  {
  }

  class SpanStorage {
    const maxSize: nat
    const maxAge: nat
    const maxBytes: nat
    const disk: Disk
    const run: int              // when this run started
    var spans: seq<Span>
    var bytes: int
    var droppedThrough: int
    var load: Load
    var loading: bool
    var skipped: nat
    var runs: seq<int>          // the run starts known, this one's and those loaded
    ghost var gone: set<Span>   // everything the deleted segments held

    ghost predicate Valid()
      reads this, disk
    {
      && disk.Valid() && droppedThrough <= disk.clock
      && MemoryOk(spans, bytes, droppedThrough, disk.clock)
      && HeldAfter(disk.files, disk.clock + 1, droppedThrough)
      && (forall sp :: sp in gone ==> sp.arrival <= droppedThrough)
      && Increasing(runs)
      && LoadingOk(load, spans, disk.files, disk.start, droppedThrough)
    }

    /** NewSpanStorage and AttachDisk. */
    constructor (maxSize: nat, maxAge: nat, maxBytes: nat, disk: Disk, run: int)
      requires disk.Valid() && HeldAfter(disk.files, disk.clock + 1, ZERO_TIME) && ZERO_TIME <= disk.clock
      ensures Valid() && fresh(this) && this.disk == disk && this.run == run
      ensures this.maxSize == maxSize && this.maxAge == maxAge && this.maxBytes == maxBytes
      ensures spans == [] && gone == {} && runs == [run] && load.NotStarted? && loading == (disk.earlier != [])
    {
      hide SpanDisk.TurnsOk, FilesOk, CurrentOk, EarlierOk, SpanDisk.NewestOk, HeldAfter;
      this.maxSize, this.maxAge, this.maxBytes, this.disk, this.run := maxSize, maxAge, maxBytes, disk, run;
      spans, bytes, droppedThrough, load, loading, skipped := [], 0, ZERO_TIME, NotStarted, disk.earlier != [], 0;
      gone, runs := {}, [run];
    }

    method DropOldest(n: nat)
      requires n <= |spans| && bytes == Bytes(spans)
      modifies `spans, `bytes
      ensures spans == old(spans)[n..] && bytes == Bytes(spans)
    {
      hide Bytes;
      var i := 0;
      NoBytes();
      assert spans[..0] == [];
      while i < n
        invariant i <= n && i <= |spans| && bytes == old(bytes) - Bytes(spans[..i]) && spans == old(spans)
      {
        BytesJoin(spans[..i], [spans[i]]);
        BytesOne(spans[i]);
        assert spans[..i + 1] == spans[..i] + [spans[i]];
        bytes := bytes - spans[i].size;
        i := i + 1;
      }
      BytesOfRest(spans, n);
      spans := spans[n..];
    }

    /** evictOldSpans: what goes is exactly what arrived before the cutoff. */
    method EvictOld(t: int) returns (n: nat)
      requires Ascending(spans) && bytes == Bytes(spans)
      modifies `spans, `bytes
      ensures n <= |old(spans)| && spans == old(spans)[n..] && bytes == Bytes(spans)
      ensures n > 0 ==> old(spans)[n - 1].arrival < t - maxAge
      ensures forall sp :: sp in spans ==> sp.arrival >= t - maxAge
    {
      n := 0;
      while n < |spans| && spans[n].arrival < t - maxAge
        invariant n <= |spans| && (n > 0 ==> spans[n - 1].arrival < t - maxAge)
      {
        n := n + 1;
      }
      DropOldest(n);
    }

    method DropThrough(through: int)
      requires Ascending(spans) && bytes == Bytes(spans)
      modifies `spans, `bytes
      ensures spans == After(old(spans), through) && bytes == Bytes(spans)
    {
      var i := 0;
      while i < |spans| && spans[i].arrival <= through
        invariant i <= |spans| && forall x :: 0 <= x < i ==> spans[x].arrival <= through
      {
        i := i + 1;
      }
      RestIsAfter(spans, i, through);
      DropOldest(i);
    }

    /** expireDisk: what the disk deleted goes from memory, and is remembered as gone. */
    method ExpireDisk(t: int, listed: bool, removable: nat)
      requires Valid() && disk.clock <= t
      modifies this, disk
      ensures Valid() && disk.clock == t && unchanged(`load) && unchanged(`loading) && unchanged(`skipped)
        && unchanged(`runs)
      ensures droppedThrough >= old(droppedThrough) && spans == After(old(spans), droppedThrough)
      ensures exists k: nat :: k < |old(disk.files)| && disk.files == old(disk.files)[k..]
                && (k == 0 ==> droppedThrough == old(droppedThrough))
                && gone == old(gone) + Deleted(old(disk.files)[..k], disk.start)
      ensures forall sp :: sp in old(spans) && sp !in spans ==> sp !in disk.Saved()
    {
      hide SpanDisk.TurnsOk, MemoryOk, LoadingOk, HeldAfter, Deleted, Bytes, FilesOk, CurrentOk, EarlierOk, SpanDisk.NewestOk, Drops, After,
           Expired, Judged;
      ghost var files, newest, clock, dropped := disk.files, disk.newest, disk.clock, droppedThrough;
      var through, k := disk.Expire(t, listed, removable);
      MemoryIs(spans, bytes, dropped, clock);
      if through.None? {
        HeldExpires(files, clock, 0, t, disk.start, dropped, t);
        MemoryExpires(spans, bytes, dropped, clock, t, clock);
        NothingDeleted(files, disk.start);
        return;
      }
      ExpiryDrops(files, newest, disk.start, clock, k);
      HeldExpires(files, clock, k, through.value, disk.start, dropped, t);
      MemoryExpires(spans, bytes, dropped, clock, t, through.value);
      LoadingExpires(load, spans, files, clock, k, through.value, disk.start, dropped);
      if through.value > droppedThrough {
        droppedThrough := through.value;
      }
      DropThrough(through.value);
      DroppedIsOff(old(spans), droppedThrough, disk.files, t + 1);
      gone := gone + Deleted(files[..k], disk.start);
    }

    /** The age and byte limits, with room for the new span: what is left, and the span, had no room for one more. */
    method MakeRoom(sp: Span) returns (ghost k: nat)
      requires Ascending(spans) && bytes == Bytes(spans) && forall x :: x in spans ==> x.arrival < sp.arrival
      modifies `spans, `bytes
      ensures bytes == Bytes(spans) && (spans == [] || bytes + sp.size <= maxBytes)
      ensures Left(Limits(sp.arrival - maxAge, maxBytes, maxSize, true), old(spans) + [sp], k, spans + [sp])
    {
      hide Left, Fits, Bytes, Ascending;
      ghost var l, all := Limits(sp.arrival - maxAge, maxBytes, maxSize, true), spans + [sp];
      k := EvictOld(sp.arrival);
      assert all[k..] == spans + [sp];
      LeftYoung(l, all, k);
      while |spans| > 0 && bytes + sp.size > maxBytes
        invariant Left(l, all, k, spans + [sp]) && bytes == Bytes(spans)
      {
        BytesJoin(spans, [sp]);
        BytesOne(sp);
        LeftSmaller(l, all, k, spans + [sp]);
        assert (spans + [sp])[1..] == spans[1..] + [sp];
        DropOldest(1);
        k := k + 1;
      }
    }

    /** The half of Add that is in memory: the newest spans that fit are kept, and no others. */
    method Keep(sp: Span)
      requires Ascending(spans) && bytes == Bytes(spans) && forall x :: x in spans ==> x.arrival < sp.arrival
      modifies `spans, `bytes
      ensures bytes == Bytes(spans)
      ensures Retained(Limits(sp.arrival - maxAge, maxBytes, maxSize, true), old(spans) + [sp], spans)
    {
      hide Left, Retained, Fits, Bytes, Ascending;
      ghost var l, all := Limits(sp.arrival - maxAge, maxBytes, maxSize, true), spans + [sp];
      ghost var k := MakeRoom(sp);
      BytesJoin(spans, [sp]);
      BytesOne(sp);
      NoBytes();
      spans := spans + [sp];
      bytes := bytes + sp.size;
      var over := |spans| - maxSize;
      if over > 0 {
        LeftFewer(l, all, k, spans, over);
        BytesOfRest(spans, over);
        DropOldest(over);
        k := k + over;
      }
      LeftIsRetained(l, all, k, spans);
    }

    /**
     Add. Of what was held and the new span, the newest that fit are kept, a span over the
     byte limit on its own; then whatever expiry, if a segment was rolled, has deleted goes.
     */
    method Add(span: Span, t: int, encodes: bool, opening: Opening, w: Writing, listed: bool, removable: nat)
      requires Valid() && disk.clock < t && Leaves(w, span.(arrival := t))
      modifies this, disk
      ensures Valid() && disk.clock == t && unchanged(`load) && unchanged(`loading) && unchanged(`skipped)
        && unchanged(`runs)
      ensures old(gone) <= gone && old(droppedThrough) <= droppedThrough
      ensures exists kept :: && Retained(Limits(t - maxAge, maxBytes, maxSize, true), old(spans) + [span.(arrival := t)], kept)
                             && spans == After(kept, droppedThrough)
      ensures old(disk.Keeps(t, encodes, opening, w)) ==> span.(arrival := t) in disk.Saved()
    {
      hide SpanDisk.TurnsOk, MemoryOk, LoadingOk, HeldAfter, Bytes, Retained, After, FilesOk, CurrentOk, EarlierOk, SpanDisk.NewestOk, Total,
           Content, SameBefore, Ascending, Increasing;
      var sp := span.(arrival := t);
      ghost var was, files, clock, dropped := spans, disk.files, disk.clock, droppedThrough;
      MemoryIs(spans, bytes, dropped, clock);
      Keep(sp);
      ghost var kept := spans;
      var rolled := disk.Append(sp, encodes, opening, w);
      AddedOk(was, old(bytes), sp, kept, bytes, Limits(t - maxAge, maxBytes, maxSize, true), load, files, disk.files,
              disk.start, clock, dropped);
      HeldGrows(files, disk.files, clock, sp, dropped);
      if rolled {
        ExpireDisk(t, listed, removable);
      }
      hide Readable;
      if disk.InLast(sp) {
        disk.LastIsSaved(sp);
      }
    }

    /** LoadFromDisk, its first lock region: the names of what earlier runs left. */
    method BeginLoad()
      requires Valid() && load.NotStarted?
      modifies `load
      ensures Valid() && load == Reading(disk.earlier, 0, Loaded([], [], map[], 0))
    {
      hide SpanDisk.TurnsOk, MemoryOk, HeldAfter, LoadOk;
      LoadBegins(disk.files, disk.earlier, disk.start, droppedThrough);
      load := Reading(disk.earlier, 0, Loaded([], [], map[], 0));
    }

    /** Reading the next segment, without the lock: only the load moves on. */
    method ReadNext()
      requires Valid() && load.Reading? && load.i < |load.names|
      modifies `load
      ensures Valid()
      ensures load == Reading(old(load.names), old(load.i) + 1, ReadInto(old(load.got), disk.files, old(load.names)[old(load.i)]))
      ensures var name, got := old(load.names)[old(load.i)], old(load.got);
              if HasName(disk.files, name) then AddsSegment(got, disk.files[IndexOfName(disk.files, name)], load.got) else load.got == got
    {
      hide SpanDisk.TurnsOk, MemoryOk, LoadOk, HeldAfter, FilesOk, SpanDisk.NewestOk, EarlierOk, CurrentOk;
      HeldBelow(disk.files, disk.start, disk.clock + 1, droppedThrough);
      LoadReads(disk.files, disk.clock, disk.start, droppedThrough, load.names, load.i, load.got);
      ReadAdds(load.got, disk.files, load.names[load.i]);
      load := Reading(load.names, load.i + 1, ReadInto(load.got, disk.files, load.names[load.i]));
    }

    /** What a load has read and no expiry has deleted since. */
    method Surviving(read: seq<Span>) returns (keep: seq<Span>, size: int)
      ensures keep == After(read, droppedThrough) && size == Bytes(keep)
    {
      hide After, Bytes;
      keep, size := [], 0;
      assert read[..0] == [];
      AfterNone([], droppedThrough);
      NoBytes();
      for i := 0 to |read|
        invariant keep == After(read[..i], droppedThrough) && size == Bytes(keep)
      {
        assert read[..i + 1] == read[..i] + [read[i]];
        AfterJoin(read[..i], [read[i]], droppedThrough);
        AfterOne(read[i], droppedThrough);
        BytesJoin(keep, [read[i]]);
        BytesOne(read[i]);
        if read[i].arrival > droppedThrough {
          size := size + read[i].size;
          keep := keep + [read[i]];
        }
      }
      assert read[..|read|] == read;
    }

    /** Puts the loaded spans before the others and applies the limits; here a span over the limit goes, even alone. */
    method Merge(keep: seq<Span>, size: int, t: int)
      requires size == Bytes(keep) && bytes == Bytes(spans) && Ascending(keep + spans)
      modifies `spans, `bytes
      ensures bytes == Bytes(spans)
      ensures Retained(Limits(t - maxAge, maxBytes, maxSize, false), keep + old(spans), spans)
    {
      hide Left, Retained, Fits, Bytes, Ascending;
      ghost var l, all := Limits(t - maxAge, maxBytes, maxSize, false), keep + spans;
      BytesJoin(keep, spans);
      spans := keep + spans;
      bytes := bytes + size;
      ghost var k: nat := EvictOld(t);
      LeftYoung(l, all, k);
      while |spans| > 0 && (bytes > maxBytes || |spans| > maxSize)
        invariant Left(l, all, k, spans) && bytes == Bytes(spans)
      {
        LeftSmaller(l, all, k, spans);
        DropOldest(1);
        k := k + 1;
      }
      NoBytes();
      LeftIsRetained(l, all, k, spans);
    }

    /**
     LoadFromDisk, its last lock region. Whatever was added and expired since the load began,
     memory holds the newest that fit of what the earlier runs' segments hold now, followed
     by what was held: nothing deleted is brought back, and nothing else read is lost.
     */
    method FinishLoad(t: int)
      requires Valid() && load.Reading? && load.i == |load.names| && disk.clock <= t
      modifies this, disk`newest
      ensures Valid() && load.Finished? && !loading && skipped == old(load.got.skipped)
      ensures unchanged(`droppedThrough) && unchanged(`gone)
      ensures Retained(Limits(t - maxAge, maxBytes, maxSize, false), Content(disk.files, disk.start) + old(spans), spans)
      ensures forall r :: r in runs <==> r in old(runs) || r in old(load.got.runs)
      ensures forall n :: n in old(disk.newest) ==> n in disk.newest && disk.newest[n] == old(disk.newest[n])
      ensures forall n :: n !in old(disk.newest) ==>
                            if n in old(load.got.newest) && n in disk.earlier
                            then n in disk.newest && disk.newest[n] == old(load.got.newest[n]) else n !in disk.newest
    {
      hide SpanDisk.TurnsOk, MemoryOk, HeldAfter, LoadOk, FilesOk, CurrentOk, EarlierOk, SpanDisk.NewestOk, Bytes, After, Retained, Content;
      ghost var was := spans;
      MemoryIs(spans, bytes, droppedThrough, disk.clock);
      LoadHolds(load, spans, disk.files, disk.earlier, disk.newest, disk.start, disk.clock, droppedThrough);
      disk.newest := Recorded(disk.newest, load.got.newest, disk.earlier);
      var keep, size := Surviving(load.got.spans);
      Merge(keep, size, t);
      skipped := load.got.skipped;
      runs := SortedDistinct(runs + load.got.runs);
      SortedDistinctHolds(old(runs) + load.got.runs);
      load, loading := Finished, false;
      LoadedOk(was, old(bytes), Content(disk.files, disk.start), spans, bytes, Limits(t - maxAge, maxBytes, maxSize, false),
               droppedThrough, disk.clock);
    }

    /** When Running Man restarted, among the spans held: newest first, each after the oldest span. */
    method Restarts() returns (out: seq<int>)
      requires Valid()
      ensures spans == [] ==> out == []
      ensures spans != [] ==> forall r :: r in out <==> r in runs && r > spans[0].arrival
      ensures forall i, j :: 0 <= i < j < |out| ==> out[i] > out[j]
    {
      hide *;
      out := [];
      if |spans| == 0 {
        return;
      }
      RunsIncrease();
      var i: int := |runs|;
      while i > 0
        invariant 0 <= i <= |runs|
        invariant forall r :: r in out <==> r in runs[i..] && r > spans[0].arrival
        invariant forall x, y :: 0 <= x < y < |out| ==> out[x] > out[y]
      {
        i := i - 1;
        if runs[i] > spans[0].arrival {
          assert forall x :: 0 <= x < |out| ==> out[x] in out;
          out := out + [runs[i]];
        }
      }
      assert runs[0..] == runs;
    }

    lemma RunsIncrease()
      requires Valid()
      ensures forall i, j :: 0 <= i < j < |runs| ==> runs[i] < runs[j]
    {
    }

    /** Whether a held trace arrived wholly before this run started. */
    method FromEarlierRun(trace: string) returns (r: bool)
      ensures r <==> (exists sp :: sp in spans && sp.trace == trace)
                     && forall sp :: sp in spans && sp.trace == trace ==> sp.arrival < run
    {
      r := false;
      for i := 0 to |spans|
        invariant r <==> exists j :: 0 <= j < i && spans[j].trace == trace
        invariant forall j :: 0 <= j < i && spans[j].trace == trace ==> spans[j].arrival < run
      {
        if spans[i].trace == trace {
          if spans[i].arrival >= run {
            assert spans[i] in spans;
            return false;
          }
          r := true;
        }
      }
    }

    /** Nothing a deleted segment held is in memory, or still on disk. */
    lemma GoneIsGone(sp: Span)
      requires Valid() && sp in gone
      ensures sp !in spans && sp !in disk.Saved()
    {
    }
  }

  /** What Add keeps of a lone span and LoadFromDisk does not: one larger than the whole limit. */
  lemma LoneSpan(l: Limits, sp: Span, kept: seq<Span>)
    requires Retained(l, [sp], kept) && sp.arrival >= l.cutoff && l.maxSize >= 1
    ensures kept == (if l.lone || sp.size <= l.maxBytes then [sp] else [])
  {
    BytesOne(sp);
    var k: nat :| k <= 1 && LongestFit(l, [sp], k) && kept == [sp][k..];
    assert [sp][0..] == [sp];
  }

  /** What is retained is the end of it all, within every limit, and with one span more it would not be. */
  lemma RetainedMeetsLimits(l: Limits, all: seq<Span>, kept: seq<Span>)
    requires Retained(l, all, kept)
    ensures |kept| <= |all| && kept == all[|all| - |kept|..]
    ensures |kept| <= l.maxSize && (Bytes(kept) <= l.maxBytes || (l.lone && |kept| == 1))
      && forall sp :: sp in kept ==> sp.arrival >= l.cutoff
    ensures |kept| < |all| ==>
              var more := all[|all| - |kept| - 1..];
              || |more| > l.maxSize || (Bytes(more) > l.maxBytes && (l.lone ==> |more| > 1))
              || exists sp :: sp in more && sp.arrival < l.cutoff
  {
    var k: nat :| k <= |all| && LongestFit(l, all, k) && kept == all[k..];
    hide Bytes;
    if k > 0 {
      assert !Fits(l, all[k - 1..]);
    }
  }

  /** The limits and the spans determine what is retained. */
  lemma RetainedIsUnique(l: Limits, all: seq<Span>, a: seq<Span>, b: seq<Span>)
    requires Retained(l, all, a) && Retained(l, all, b)
    ensures a == b
  {
  }

  lemma AfterOne(sp: Span, t: int)
    ensures After([sp], t) == if sp.arrival > t then [sp] else []
  {
  }

  lemma NothingDeleted(files: seq<Segment>, start: int)
    ensures Deleted(files[..0], start) == {} && files[0..] == files
  {
  }

  lemma NoBytes()
    ensures Bytes([]) == 0
  {
  }

  lemma BytesOne(sp: Span)
    ensures Bytes([sp]) == sp.size
  {
  }
}
