/**
 The log buffer of internal/storage/ringbuffer.go: three chained eviction loops that keep
 the longest suffix meeting every limit at once, and a trace index that is always the
 in-order filter of the entries. filepath.Match is a parameter of Query.
 */
module LogBuffer {
  import opened Wrappers
  import opened LogEntries

  function Size(s: seq<Entry>): nat {
    if s == [] then 0 else |s[0].raw| + Size(s[1..])
  }

  /** The entries of a trace, in order. */
  function WithTrace(s: seq<Entry>, trace: string): seq<Entry> {
    if s == [] then [] else (if s[0].trace == trace then [s[0]] else []) + WithTrace(s[1..], trace)
  }

  lemma {:induction false} SizeGrows(s: seq<Entry>, e: Entry)
    ensures Size(s + [e]) == Size(s) + |e.raw|
  {
    if s == [] {
      assert [] + [e] == [e] && [e][1..] == [];
    } else {
      assert (s + [e])[1..] == s[1..] + [e];
      SizeGrows(s[1..], e);
    }
  }

  lemma {:induction false} WithTraceGrows(s: seq<Entry>, e: Entry, trace: string)
    ensures WithTrace(s + [e], trace) == WithTrace(s, trace) + (if e.trace == trace then [e] else [])
  {
    if s == [] {
      assert [] + [e] == [e] && [e][1..] == [];
    } else {
      assert (s + [e])[1..] == s[1..] + [e] && (s + [e])[0] == s[0];
      WithTraceGrows(s[1..], e, trace);
      var first, rest, last := if s[0].trace == trace then [s[0]] else [], WithTrace(s[1..], trace), if e.trace == trace then [e] else [];
      assert first + (rest + last) == (first + rest) + last;
    }
  }

  // ---------------------------------------------------------------- picking entries

  ghost predicate Ascends(at: seq<nat>) {
    forall i, j :: 0 <= i < j < |at| ==> at[i] < at[j]
  }

  /** The entries at these places, in order. */
  ghost predicate Picks(s: seq<Entry>, at: seq<nat>, out: seq<Entry>) {
    |at| == |out| && Ascends(at) && forall i :: 0 <= i < |at| ==> at[i] < |s| && out[i] == s[at[i]]
  }

  lemma OneMorePicked(s: seq<Entry>, at: seq<nat>, out: seq<Entry>, e: Entry)
    requires Picks(s, at, out)
    ensures |s| !in at && Picks(s + [e], at + [|s|], out + [e]) && Picks(s + [e], at, out)
  {
  }

  /** A trace's entries are those at exactly the places that have it. */
  lemma {:induction false} TraceOnce(s: seq<Entry>, trace: string) returns (at: seq<nat>)
    ensures Picks(s, at, WithTrace(s, trace))
    ensures forall j :: 0 <= j < |s| ==> (j in at <==> s[j].trace == trace)
  {
    at := [];
    if s != [] {
      var rest, last := s[..|s| - 1], s[|s| - 1];
      at := TraceOnce(rest, trace);
      OneMorePicked(rest, at, WithTrace(rest, trace), last);
      WithTraceGrows(rest, last, trace);
      hide Picks, WithTrace;
      assert rest + [last] == s && forall j :: 0 <= j < |rest| ==> rest[j] == s[j];
      if last.trace == trace {
        at := at + [|rest|];
      } else {
        assert WithTrace(rest, trace) + [] == WithTrace(rest, trace);
      }
    }
  }

  // ---------------------------------------------------------------- what holds between calls

  ghost predicate Sorted(s: seq<int>) {
    forall i, j :: 0 <= i < j < |s| ==> s[i] <= s[j]
  }

  ghost predicate IndexOk(index: map<string, seq<Entry>>, entries: seq<Entry>) {
    && (forall t :: t in index <==> t != "" && WithTrace(entries, t) != [])
    && forall t :: t in index ==> index[t] == WithTrace(entries, t)
  }

  /** An entry more, and a trace's list with it. */
  lemma IndexGrows(index: map<string, seq<Entry>>, entries: seq<Entry>, e: Entry)
    requires IndexOk(index, entries)
    ensures e.trace == "" ==> IndexOk(index, entries + [e])
    ensures e.trace != "" ==>
              IndexOk(index[e.trace := (if e.trace in index then index[e.trace] else []) + [e]], entries + [e])
  {
    forall t ensures WithTrace(entries + [e], t) == WithTrace(entries, t) + (if e.trace == t then [e] else []) {
      WithTraceGrows(entries, e, t);
    }
    hide WithTrace;
  }

  /** The list of a trace without one of its entries, or no list when that was the last. */
  function Dropped(index: map<string, seq<Entry>>, trace: string, i: nat): map<string, seq<Entry>>
    requires trace in index && i < |index[trace]|
  {
    var list := index[trace];
    if |list| == 1 then index - {trace} else index[trace := if i == 0 then list[1..] else list[..i] + list[i + 1..]]
  }

  /** The oldest entry is first in its trace's list; without it, the list is what is left. */
  lemma IndexShrinks(index: map<string, seq<Entry>>, entries: seq<Entry>)
    requires IndexOk(index, entries) && entries != []
    ensures var e := entries[0];
            if e.trace == "" then IndexOk(index, entries[1..])
            else e.trace in index && index[e.trace] != [] && index[e.trace][0] == e && IndexOk(Dropped(index, e.trace, 0), entries[1..])
  {
  }

  /** Times in order, size and index of these entries, and the entries the end of all that was appended. */
  ghost predicate BufferOk(entries: seq<Entry>, received: seq<int>, size: int, index: map<string, seq<Entry>>,
                           history: seq<Entry>, clock: int)
  {
    && |received| == |entries| && Sorted(received) && (forall i :: 0 <= i < |received| ==> received[i] <= clock)
    && size == Size(entries) && IndexOk(index, entries)
    && |entries| <= |history| && entries == history[|history| - |entries|..]
  }

  lemma Appended(entries: seq<Entry>, received: seq<int>, size: int, index: map<string, seq<Entry>>,
                 history: seq<Entry>, clock: int, e: Entry, arrived: int, more: map<string, seq<Entry>>)
    requires BufferOk(entries, received, size, index, history, clock) && clock <= arrived
    requires more == if e.trace == "" then index
                     else index[e.trace := (if e.trace in index then index[e.trace] else []) + [e]]
    ensures BufferOk(entries + [e], received + [arrived], size + |e.raw|, more, history + [e], arrived)
  {
    SizeGrows(entries, e);
    IndexGrows(index, entries, e);
    TimesGrow(received, clock, arrived);
    HistoryGrows(history, entries, e);
    hide IndexOk, Size, Sorted;
  }

  lemma TimesGrow(received: seq<int>, clock: int, arrived: int)
    requires Sorted(received) && clock <= arrived && forall i :: 0 <= i < |received| ==> received[i] <= clock
    ensures Sorted(received + [arrived]) && forall i :: 0 <= i < |received + [arrived]| ==>
      (received + [arrived])[i] <= arrived
  {
  }

  lemma HistoryGrows(history: seq<Entry>, entries: seq<Entry>, e: Entry)
    requires |entries| <= |history| && entries == history[|history| - |entries|..]
    ensures entries + [e] == (history + [e])[|history + [e]| - |entries + [e]|..]
  {
  }

  // ---------------------------------------------------------------- retention

  /** What a suffix of the entries must meet for a new entry of this size to join it. */
  datatype Limits = Limits(cutoff: int, maxBytes: int, maxSize: int, newSize: nat)

  ghost predicate Young(received: seq<int>, cutoff: int) {
    forall i :: 0 <= i < |received| ==> received[i] >= cutoff
  }

  ghost predicate Fits(l: Limits, entries: seq<Entry>, received: seq<int>) {
    && Young(received, l.cutoff)
    && (entries == [] || (Size(entries) + l.newSize <= l.maxBytes && |entries| < l.maxSize))
  }

  /** Dropping `k` entries is enough, and dropping fewer is not. */
  ghost predicate Drops(l: Limits, entries: seq<Entry>, received: seq<int>, k: nat) {
    && k <= |entries| == |received| && Fits(l, entries[k..], received[k..])
    && forall j :: 0 <= j < k ==> !Fits(l, entries[j..], received[j..])
  }

  ghost predicate Rest(all: seq<Entry>, times: seq<int>, k: nat, entries: seq<Entry>, received: seq<int>) {
    && k <= |all| == |times| && entries == all[k..] && received == times[k..]
  }

  lemma {:induction false} SizeOfRest(s: seq<Entry>, n: nat)
    requires n <= |s|
    ensures Size(s[n..]) <= Size(s)
  {
    if n > 0 {
      assert s[1..][n - 1..] == s[n..];
      SizeOfRest(s[1..], n - 1);
    }
  }

  /** A suffix that fits has shorter suffixes that fit. */
  lemma FitsShorter(l: Limits, entries: seq<Entry>, received: seq<int>, j: nat, k: nat)
    requires j <= k <= |entries| == |received| && Fits(l, entries[j..], received[j..])
    ensures Fits(l, entries[k..], received[k..])
  {
    assert entries[j..][k - j..] == entries[k..];
    SizeOfRest(entries[j..], k - j);
    forall i | 0 <= i < |received[k..]| ensures received[k..][i] >= l.cutoff {
      assert received[k..][i] == received[j..][i + k - j];
    }
  }

  lemma DropsIs(l: Limits, all: seq<Entry>, times: seq<int>, k: nat, entries: seq<Entry>, received: seq<int>)
    requires Rest(all, times, k, entries, received) && Fits(l, entries, received)
    requires k > 0 ==> !Fits(l, all[k - 1..], times[k - 1..])
    ensures Drops(l, all, times, k) && entries == all[k..] && received == times[k..]
  {
    hide Fits;
    forall j | 0 <= j < k ensures !Fits(l, all[j..], times[j..]) {
      if Fits(l, all[j..], times[j..]) {
        FitsShorter(l, all, times, j, k - 1);
      }
    }
  }

  /** The limits determine how much goes. */
  lemma DropsIsUnique(l: Limits, entries: seq<Entry>, received: seq<int>, j: nat, k: nat)
    requires Drops(l, entries, received, j) && Drops(l, entries, received, k)
    ensures j == k
  {
  }

  /** Within the limits: a new entry alone may be over them. */
  ghost predicate WithinLimits(entries: seq<Entry>, received: seq<int>, cutoff: int, maxBytes: int, maxSize: int) {
    && |entries| == |received| && (forall i :: 0 <= i < |received| - 1 ==> received[i] >= cutoff)
    && (|entries| > 1 ==> Size(entries) <= maxBytes && |entries| <= maxSize)
  }

  /** What is left with the new entry is within the limits, and with one entry more it would not be. */
  lemma LimitsAreMet(l: Limits, all: seq<Entry>, times: seq<int>, k: nat, e: Entry, arrived: int)
    requires Drops(l, all, times, k) && l.newSize == |e.raw|
    ensures WithinLimits(all[k..] + [e], times[k..] + [arrived], l.cutoff, l.maxBytes, l.maxSize)
    ensures k > 0 ==> !WithinLimits(all[k - 1..] + [e], times[k - 1..] + [arrived], l.cutoff, l.maxBytes, l.maxSize)
  {
    LimitsOf(l, all[k..], times[k..], e, arrived);
    if k > 0 {
      LimitsOf(l, all[k - 1..], times[k - 1..], e, arrived);
    }
    hide WithinLimits, Fits;
  }

  lemma LimitsOf(l: Limits, entries: seq<Entry>, received: seq<int>, e: Entry, arrived: int)
    requires l.newSize == |e.raw| && |entries| == |received|
    ensures WithinLimits(entries + [e], received + [arrived], l.cutoff, l.maxBytes, l.maxSize) <==> Fits(l, entries, received)
  {
    SizeGrows(entries, e);
    var more := received + [arrived];
    assert forall i :: 0 <= i < |received| ==> more[i] == received[i];
  }

  // ---------------------------------------------------------------- queries

  datatype Filters = Filters(
    since: int,
    levels: seq<Level>,
    sources: seq<string>,
    exclude: seq<string>,
    contains: string,
    errorsOnly: bool,
    limit: int)

  /** strings.Contains */
  predicate Contains(s: string, part: string) {
    exists i :: 0 <= i <= |s| && IsAt(s, part, i)
  }

  predicate IsAt(s: string, part: string, i: nat) {
    i + |part| <= |s| && s[i..i + |part|] == part
  }

  /** A source is matched by its own name or by a pattern; `glob` is filepath.Match, false on a bad pattern. */
  predicate MatchedBy(source: string, patterns: seq<string>, glob: (string, string) -> bool) {
    exists i :: 0 <= i < |patterns| && (source == patterns[i] || glob(patterns[i], source))
  }

  /** What a query asks of an entry: every filter that is set. */
  predicate Selects(f: Filters, e: Entry, now: int, glob: (string, string) -> bool) {
    && (f.since > 0 ==> e.timestamp >= now - f.since)
    && (f.levels != [] ==> e.level in f.levels)
    && (f.sources != [] ==> MatchedBy(e.source, f.sources, glob))
    && !MatchedBy(e.source, f.exclude, glob)
    && (f.contains != "" ==> Contains(e.message, f.contains) || Contains(e.raw, f.contains))
    && (f.errorsOnly ==> e.level == Error)
  }

  function Selected(f: Filters, s: seq<Entry>, now: int, glob: (string, string) -> bool): seq<Entry> {
    if s == [] then []
    else
      var last := s[|s| - 1];
      Selected(f, s[..|s| - 1], now, glob) + (if Selects(f, last, now, glob) then [last] else [])
  }

  /** Selecting keeps every match and nothing else, and can be done piece by piece, in order. */
  lemma {:induction false} SelectedJoins(f: Filters, a: seq<Entry>, b: seq<Entry>, now: int, glob: (string,
                                         string) -> bool)
    ensures Selected(f, a + b, now, glob) == Selected(f, a, now, glob) + Selected(f, b, now, glob)
    ensures forall e :: e in Selected(f, b, now, glob) <==> e in b && Selects(f, e, now, glob)
  {
    hide Selects;
    if b == [] {
      assert a + b == a;
    } else {
      var rest, last := b[..|b| - 1], b[|b| - 1];
      assert (a + b)[..|a + b| - 1] == a + rest;
      SelectedJoins(f, a, rest, now, glob);
      assert b == rest + [last];
    }
  }

  /** The places that match. */
  ghost predicate Matching(f: Filters, s: seq<Entry>, now: int, glob: (string, string) -> bool, at: seq<nat>) {
    forall j :: 0 <= j < |s| ==> (j in at <==> Selects(f, s[j], now, glob))
  }

  lemma MatchingGrows(f: Filters, s: seq<Entry>, e: Entry, now: int, glob: (string, string) -> bool, at: seq<nat>)
    requires Matching(f, s, now, glob, at) && |s| !in at
    ensures Matching(f, s + [e], now, glob, if Selects(f, e, now, glob) then at + [|s|] else at)
  {
    hide Selects;
    var more := at + [|s|];
    assert |s| in more && forall j :: j != |s| ==> (j in more <==> j in at);
  }

  lemma SelectedGrows(f: Filters, s: seq<Entry>, e: Entry, now: int, glob: (string, string) -> bool)
    ensures Selected(f, s + [e], now, glob) == Selected(f, s, now, glob) + if Selects(f, e, now, glob) then [e] else []
  {
    hide Selects;
    assert (s + [e])[..|s|] == s;
  }

  lemma NoneMatching(f: Filters, now: int, glob: (string, string) -> bool)
    ensures Selected(f, [], now, glob) == [] && Picks([], [], []) && Matching(f, [], now, glob, [])
  {
  }

  /** Each match is selected once, in order. */
  lemma {:induction false} SelectedOnce(f: Filters, s: seq<Entry>, now: int, glob: (string, string) -> bool)
    returns (at: seq<nat>)
    ensures Picks(s, at, Selected(f, s, now, glob)) && Matching(f, s, now, glob, at)
  {
    hide *;
    at := [];
    if s == [] {
      NoneMatching(f, now, glob);
    } else {
      var rest, last := s[..|s| - 1], s[|s| - 1];
      var out := Selected(f, rest, now, glob);
      at := SelectedOnce(f, rest, now, glob);
      OneMorePicked(rest, at, out, last);
      MatchingGrows(f, rest, last, now, glob, at);
      SelectedGrows(f, rest, last, now, glob);
      assert rest + [last] == s && out + [] == out;
      if Selects(f, last, now, glob) {
        at := at + [|rest|];
      }
    }
  }

  /** The last `limit` of them, or all when there is no limit. */
  function LastOf(s: seq<Entry>, limit: int): seq<Entry> {
    if 0 < limit < |s| then s[|s| - limit..] else s
  }

  method AnyMatches(source: string, patterns: seq<string>, glob: (string, string) -> bool) returns (found: bool)
    ensures found == MatchedBy(source, patterns, glob)
  {
    for i := 0 to |patterns|
      invariant forall j :: 0 <= j < i ==> source != patterns[j] && !glob(patterns[j], source)
    {
      if source == patterns[i] || glob(patterns[i], source) {
        return true;
      }
    }
    return false;
  }

  class RingBuffer {
    const maxSize: int
    const maxAge: int
    const maxBytes: int
    var entries: seq<Entry>
    var received: seq<int>      // when each entry arrived
    var currentSize: int
    var traceIndex: map<string, seq<Entry>>
    ghost var history: seq<Entry>  // everything ever appended
    ghost var clock: int

    ghost predicate Valid()
      reads this
    {
      BufferOk(entries, received, currentSize, traceIndex, history, clock)
    }

    constructor (maxSize: int, maxAge: int, maxBytes: int, now: int)
      ensures Valid() && entries == [] && history == [] && clock == now
      ensures this.maxSize == maxSize && this.maxAge == maxAge && this.maxBytes == maxBytes
    {
      this.maxSize, this.maxAge, this.maxBytes := maxSize, maxAge, maxBytes;
      entries, received, currentSize, traceIndex, history, clock := [], [], 0, map[], [], now;
    }

    /** removeFromTraceIndex: the first place of the entry in its trace's list, if it has one, is taken out. */
    method RemoveFromTraceIndex(trace: string, entry: Entry) returns (slot: Option<nat>)
      modifies `traceIndex
      ensures slot.None? ==>
                traceIndex == old(traceIndex) && (trace in traceIndex ==> entry !in traceIndex[trace])
      ensures slot.Some? ==>
                && trace in old(traceIndex) && slot.value < |old(traceIndex[trace])|
                && old(traceIndex[trace])[slot.value] == entry && entry !in old(traceIndex[trace])[..slot.value]
                && traceIndex == Dropped(old(traceIndex), trace, slot.value)
    {
      slot := None;
      if trace in traceIndex {
        var list := traceIndex[trace];
        for i := 0 to |list|
          invariant slot == None && traceIndex == old(traceIndex)
          invariant entry !in list[..i]
        {
          if list[i] == entry {
            slot := Some(i);
            var rest := if i == 0 then list[1..] else list[..i] + list[i + 1..];
            traceIndex := if |rest| == 0 then traceIndex - {trace} else traceIndex[trace := rest];
            return;
          }
        }
      }
    }

    /** evictOldest: what is removed from a trace's list is always first in it. */
    method EvictOldest() returns (slot: Option<nat>)
      requires Valid() && entries != []
      modifies `entries, `received, `currentSize, `traceIndex
      ensures Valid() && entries == old(entries)[1..] && received == old(received)[1..]
      ensures slot == if old(entries)[0].trace != "" then Some(0) else None
    {
      hide IndexOk;
      var removed := entries[0];
      IndexShrinks(traceIndex, entries);
      entries, received := entries[1..], received[1..];
      currentSize := currentSize - |removed.raw|;
      slot := None;
      if removed.trace != "" {
        slot := RemoveFromTraceIndex(removed.trace, removed);
      }
    }

    /** `k` entries have gone so far, none of which could stay. */
    ghost predicate Evicting(l: Limits, all: seq<Entry>, times: seq<int>, k: nat)
      reads this
    {
      && Valid() && Rest(all, times, k, entries, received)
      && (k > 0 ==> !Fits(l, all[k - 1..], times[k - 1..]))
    }

    method EvictOne(ghost l: Limits, ghost all: seq<Entry>, ghost times: seq<int>, ghost k: nat)
      requires Evicting(l, all, times, k) && entries != []
      requires received[0] < l.cutoff || currentSize + l.newSize > l.maxBytes || |entries| >= l.maxSize
      modifies `entries, `received, `currentSize, `traceIndex
      ensures Evicting(l, all, times, k + 1) && |entries| < |old(entries)| && |received| == |entries|
        && currentSize <= old(currentSize)
      ensures Young(old(received), l.cutoff) ==> Young(received, l.cutoff)
    {
      hide IndexOk, Fits, Young, Size, Rest;
      MustGo(l, all, times, k, entries, received);
      var _ := EvictOldest();
    }

    /** The first loop: age, by arrival. */
    method EvictOld(ghost l: Limits, ghost all: seq<Entry>, ghost times: seq<int>, cutoff: int) returns (k: nat)
      requires Evicting(l, all, times, 0) && |received| == |entries| && cutoff == l.cutoff
      modifies `entries, `received, `currentSize, `traceIndex
      ensures Evicting(l, all, times, k) && |received| == |entries| && Young(received, cutoff)
    {
      hide *;
      k := 0;
      while |entries| > 0 && received[0] < cutoff
        invariant Evicting(l, all, times, k) && |received| == |entries|
        decreases |entries|
      {
        EvictOne(l, all, times, k);
        k := k + 1;
      }
      OldestDecides(l, all, times, k);
    }

    /** The second: size. */
    method EvictForSize(ghost l: Limits, ghost all: seq<Entry>, ghost times: seq<int>, newSize: nat,
                        gone: nat) returns (k: nat)
      requires Evicting(l, all, times, gone) && |received| == |entries| && Young(received, l.cutoff)
      requires l.maxBytes == maxBytes && l.newSize == newSize
      modifies `entries, `received, `currentSize, `traceIndex
      ensures Evicting(l, all, times, k) && |received| == |entries| && Young(received, l.cutoff)
      ensures entries != [] ==> currentSize + newSize <= maxBytes
    {
      hide *;
      k := gone;
      while |entries| > 0 && currentSize + newSize > maxBytes
        invariant Evicting(l, all, times, k) && |received| == |entries| && Young(received, l.cutoff)
        decreases |entries|
      {
        EvictOne(l, all, times, k);
        k := k + 1;
      }
    }

    /** The third: count. */
    method EvictForCount(ghost l: Limits, ghost all: seq<Entry>, ghost times: seq<int>, gone: nat) returns (k: nat)
      requires Evicting(l, all, times, gone) && |received| == |entries| && Young(received, l.cutoff)
      requires l.maxBytes == maxBytes && l.maxSize == maxSize && (entries != [] ==> currentSize + l.newSize <= maxBytes)
      modifies `entries, `received, `currentSize, `traceIndex
      ensures Evicting(l, all, times, k) && Young(received, l.cutoff)
      ensures entries != [] ==> currentSize + l.newSize <= maxBytes && |entries| < maxSize
    {
      hide *;
      k := gone;
      while |entries| > 0 && |entries| >= maxSize
        invariant Evicting(l, all, times, k) && |received| == |entries| && Young(received, l.cutoff)
        invariant entries != [] ==> currentSize + l.newSize <= maxBytes
        decreases |entries|
      {
        EvictOne(l, all, times, k);
        k := k + 1;
      }
    }

    /** evictIfNeeded: the three loops together drop the fewest oldest entries that will do. */
    method EvictIfNeeded(newSize: nat, now: int) returns (k: nat)
      requires Valid()
      modifies `entries, `received, `currentSize, `traceIndex
      ensures Valid()
      ensures Drops(Limits(now - maxAge, maxBytes, maxSize, newSize), old(entries), old(received), k)
      ensures entries == old(entries)[k..] && received == old(received)[k..]
    {
      ghost var l, all, times := Limits(now - maxAge, maxBytes, maxSize, newSize), entries, received;
      hide *;
      Starts(l);
      k := EvictOld(l, all, times, now - maxAge);
      k := EvictForSize(l, all, times, newSize, k);
      k := EvictForCount(l, all, times, k);
      Ends(l, all, times, k);
    }

    /**
     Append: the buffer is the longest suffix of what it held that meets the age, byte and
     count limits together with the new entry, and the new entry, however large.
     */
    method Append(entry: Entry, now: int, arrived: int)
      requires Valid() && clock <= now <= arrived
      modifies this
      ensures Valid() && history == old(history) + [entry]
      ensures exists k: nat :: && Drops(Limits(now - maxAge, maxBytes, maxSize, |entry.raw|), old(entries), old(received), k)
                               && entries == old(entries)[k..] + [entry] && received == old(received)[k..] + [arrived]
                               && WithinLimits(entries, received, now - maxAge, maxBytes, maxSize)
                               && (k > 0 ==> !WithinLimits(old(entries)[k - 1..] + [entry], old(received)[k - 1..] + [arrived],
                                                           now - maxAge, maxBytes, maxSize))
    {
      hide BufferOk, Drops, WithinLimits;
      var k := EvictIfNeeded(|entry.raw|, now);
      LimitsAreMet(Limits(now - maxAge, maxBytes, maxSize, |entry.raw|), old(entries), old(received), k, entry, arrived);
      ghost var kept, times, size, index, all := entries, received, currentSize, traceIndex, history;
      ghost var before := clock;
      entries := entries + [entry];
      received := received + [arrived];
      currentSize := currentSize + |entry.raw|;
      history := history + [entry];
      clock := arrived;
      if entry.trace != "" {
        traceIndex := traceIndex[entry.trace := (if entry.trace in traceIndex then traceIndex[entry.trace] else []) + [entry]];
      }
      Appended(kept, times, size, index, all, before, entry, arrived, traceIndex);
    }

    /** The index answers what scanning the entries would. */
    method GetLogsByTraceID(trace: string) returns (result: seq<Entry>)
      requires Valid()
      ensures trace != "" ==> result == WithTrace(entries, trace)
      ensures trace == "" ==> result == []
    {
      result := [];
      if trace in traceIndex {
        result := traceIndex[trace];
      }
    }

    /** Query: the most recent of all that match, not the matches among the most recent. */
    method Query(f: Filters, now: int, glob: (string, string) -> bool) returns (result: seq<Entry>)
      ensures var all := Selected(f, entries, now, glob);
              && result == LastOf(all, f.limit)
              && |result| <= |all| && result == all[|all| - |result|..]
              && |result| == if 0 < f.limit < |all| then f.limit else |all|
    {
      hide Contains, MatchedBy;
      result := [];
      for i := 0 to |entries|
        invariant result == Selected(f, entries[..i], now, glob)
      {
        assert entries[..i + 1][..i] == entries[..i];
        var entry := entries[i];
        if f.since > 0 && entry.timestamp < now - f.since {
          continue;
        }
        if |f.levels| > 0 {
          var found := false;
          for j := 0 to |f.levels|
            invariant !found && forall x :: 0 <= x < j ==> f.levels[x] != entry.level
          {
            if f.levels[j] == entry.level {
              found := true;
              break;
            }
          }
          if !found {
            continue;
          }
        }
        if |f.sources| > 0 {
          var found := AnyMatches(entry.source, f.sources, glob);
          if !found {
            continue;
          }
        }
        var excluded := AnyMatches(entry.source, f.exclude, glob);
        if excluded {
          continue;
        }
        if f.contains != "" {
          if !Contains(entry.message, f.contains) && !Contains(entry.raw, f.contains) {
            continue;
          }
        }
        if f.errorsOnly && entry.level != Error {
          continue;
        }
        result := result + [entry];
      }
      assert entries[..|entries|] == entries;
      if f.limit > 0 && |result| > f.limit {
        result := result[|result| - f.limit..];
      }
    }

    lemma Starts(l: Limits)
      requires Valid()
      ensures Evicting(l, entries, received, 0) && Sorted(received) && |received| == |entries|
    {
    }

    lemma OldestDecides(l: Limits, all: seq<Entry>, times: seq<int>, k: nat)
      requires Evicting(l, all, times, k) && (entries == [] || received[0] >= l.cutoff)
      ensures Young(received, l.cutoff)
    {
    }

    lemma Ends(l: Limits, all: seq<Entry>, times: seq<int>, k: nat)
      requires Evicting(l, all, times, k) && Young(received, l.cutoff)
      requires entries != [] ==> currentSize + l.newSize <= l.maxBytes && |entries| < l.maxSize
      ensures Valid() && Drops(l, all, times, k) && entries == all[k..] && received == times[k..]
    {
      hide Young, Size, IndexOk;
      DropsIs(l, all, times, k, entries, received);
    }
  }

  lemma FirstRest(entries: seq<Entry>, received: seq<int>)
    requires |entries| == |received|
    ensures Rest(entries, received, 0, entries, received)
  {
  }

  /** An oldest entry too old, or one too many for either limit, fits in no suffix that holds it. */
  lemma MustGo(l: Limits, all: seq<Entry>, times: seq<int>, k: nat, entries: seq<Entry>, received: seq<int>)
    requires Rest(all, times, k, entries, received) && entries != []
    requires received[0] < l.cutoff || Size(entries) + l.newSize > l.maxBytes || |entries| >= l.maxSize
    ensures k < |all| && k < |times| && !Fits(l, all[k..], times[k..])
      && Rest(all, times, k + 1, entries[1..], received[1..])
    ensures Young(received, l.cutoff) ==> Young(received[1..], l.cutoff)
    ensures Size(entries[1..]) <= Size(entries)
  {
  }
}
