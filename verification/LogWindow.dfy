/**
 The windowed log view of cmd/running-man/tui.go: formatting only what is shown, and
 jumping to search matches. How a line is drawn and how often it matches are parameters.
 */
module LogWindow {
  type Log = string  // an entry's message; the rest of it only matters to drawing

  // ---------------------------------------------------------------- display lines

  /** strings.Split(s, "\n") */
  function Split(s: string): (lines: seq<string>)
    ensures |lines| > 0
  {
    if s == "" then [""]
    else if s[0] == '\n' then [""] + Split(s[1..])
    else [[s[0]] + Split(s[1..])[0]] + Split(s[1..])[1..]
  }

  /** strings.Count(s, "\n") */
  function Newlines(s: string): nat {
    if s == "" then 0 else (if s[0] == '\n' then 1 else 0) + Newlines(s[1..])
  }

  function EntryLines(log: Log): nat {
    1 + Newlines(log)
  }

  lemma {:induction false} EntryLinesIsSplit(log: Log)
    ensures EntryLines(log) == |Split(log)|
  {
    if log != "" {
      EntryLinesIsSplit(log[1..]);
    }
  }

  /** Lines as text, a newline between any two. */
  function Joined(lines: seq<string>): string {
    if lines == [] then "" else if |lines| == 1 then lines[0] else lines[0] + "\n" + Joined(lines[1..])
  }

  /** Splitting a message loses nothing of it, and leaves no newline in a line. */
  lemma {:induction false} SplitRejoins(s: string)
    ensures Joined(Split(s)) == s && forall line :: line in Split(s) ==> '\n' !in line
  {
    if s != "" {
      SplitRejoins(s[1..]);
      var rest := Split(s[1..]);
      assert s == [s[0]] + s[1..];
      if s[0] == '\n' {
        assert Split(s)[1..] == rest && [] + "\n" + s[1..] == s;
      } else {
        assert Split(s)[1..] == rest[1..] && rest[0] in rest;
        if |rest| > 1 {
          assert [s[0]] + rest[0] + "\n" + Joined(rest[1..]) == [s[0]] + (rest[0] + "\n" + Joined(rest[1..]));
        }
      }
    }
  }

  /** One display line: its entry, which of the entry's lines it is, and its text. */
  datatype Row = Row(log: Log, i: nat, text: string)

  function RowsOf(log: Log): seq<Row> {
    seq(|Split(log)|, i requires 0 <= i < |Split(log)| => Row(log, i, Split(log)[i]))
  }

  /** Every display line of every entry. */
  function AllRows(logs: seq<Log>): seq<Row> {
    if logs == [] then [] else AllRows(logs[..|logs| - 1]) + RowsOf(logs[|logs| - 1])
  }

  // ---------------------------------------------------------------- the window

  /** logWindow: the range of lines to show when scrolled up by `offset`. */
  function Window(total: nat, height: nat, offset: int): (int, int) {
    if total <= height then (0, total)
    else
      var end := total - offset;
      if end < height then (0, height)
      else if end > total then (total - height, total)
      else (end - height, end)
  }

  /** The window is as tall as it can be, inside the lines, and follows the offset until it meets either end. */
  lemma WindowFits(total: nat, height: nat, offset: int)
    ensures var (start, end) := Window(total, height, offset);
            && 0 <= start <= end <= total && end - start == (if total < height then total else height)
            && (offset <= 0 ==> end == total) && (offset >= total - height ==> start == 0)
            && (0 <= offset <= total - height ==> end == total - offset)
  {
  }

  function ScrollOffset(target: nat, total: nat, height: nat): nat {
    var offset := total - target - 1 - height / 2;
    if offset < 0 then 0 else offset
  }

  /** scrollToMatch: wherever the target is, it is in the window; and in its middle when both ends are far enough. */
  lemma TargetIsShown(target: nat, total: nat, height: nat)
    requires target < total && height >= 1
    ensures var (start, end) := Window(total, height, ScrollOffset(target, total, height));
            && start <= target < end
            && (0 < start && end < total ==> end - 1 - target == height / 2)
  {
  }

  // ---------------------------------------------------------------- matches

  ghost predicate Sorted(s: seq<nat>) {
    forall i, j :: 0 <= i < j < |s| ==> s[i] <= s[j]
  }

  /** How many of the indices are below `x`. */
  function Below(s: seq<nat>, x: nat): nat {
    if s == [] then 0 else (if s[0] < x then 1 else 0) + Below(s[1..], x)
  }

  lemma {:induction false} BelowSplits(s: seq<nat>, x: nat, k: nat)
    requires k <= |s| && (forall i :: 0 <= i < k ==> s[i] < x) && forall i :: k <= i < |s| ==> s[i] >= x
    ensures Below(s, x) == k
  {
    if s != [] {
      BelowSplits(s[1..], x, if k > 0 then k - 1 else 0);
    }
  }

  /** sort.SearchInts: in a sorted index, the binary search is the count of what is before. */
  method SearchInts(s: seq<nat>, x: nat) returns (k: nat)
    requires Sorted(s)
    ensures k == Below(s, x)
    ensures k <= |s| && (forall i :: 0 <= i < k ==> s[i] < x) && forall i :: k <= i < |s| ==> s[i] >= x
  {
    var lo, hi := 0, |s|;
    while lo < hi
      invariant 0 <= lo <= hi <= |s|
      invariant forall i :: 0 <= i < lo ==> s[i] < x
      invariant forall i :: hi <= i < |s| ==> s[i] >= x
    {
      var mid := (lo + hi) / 2;
      if s[mid] < x {
        lo := mid + 1;
      } else {
        hi := mid;
      }
    }
    k := lo;
    BelowSplits(s, x, k);
  }

  /** How many matches the first `n` of these rows hold. */
  function MatchesIn(rows: seq<Row>, n: nat, count: Row -> nat): nat
    requires n <= |rows|
  {
    if n == 0 then 0 else MatchesIn(rows, n - 1, count) + count(rows[n - 1])
  }

  function Repeat(v: nat, n: nat): seq<nat> {
    if n == 0 then [] else Repeat(v, n - 1) + [v]
  }

  /** A line's index as often as the line matches, line by line. */
  function IndexOf(rows: seq<Row>, count: Row -> nat): seq<nat> {
    if rows == [] then []
    else IndexOf(rows[..|rows| - 1], count) + Repeat(|rows| - 1, count(rows[|rows| - 1]))
  }

  lemma IndexGrows(rows: seq<Row>, row: Row, count: Row -> nat)
    ensures IndexOf(rows + [row], count) == IndexOf(rows, count) + Repeat(|rows|, count(row))
  {
  }

  /** The lines of one entry, after those of `done`. */
  method IndexEntry(log: Log, count: Row -> nat, indexed: seq<nat>, first: nat,
                    ghost done: seq<Row>) returns (result: seq<nat>, lineIdx: nat)
    requires indexed == IndexOf(done, count) && first == |done|
    ensures result == IndexOf(done + RowsOf(log), count) && lineIdx == |done + RowsOf(log)|
  {
    hide IndexOf;
    var rows := RowsOf(log);
    result, lineIdx := indexed, first;
    assert done + rows[..0] == done;
    for i := 0 to |rows|
      invariant result == IndexOf(done + rows[..i], count) && lineIdx == |done| + i
    {
      assert done + rows[..i + 1] == (done + rows[..i]) + [rows[i]];
      IndexGrows(done + rows[..i], rows[i], count);
      ghost var before := result;
      for k := 0 to count(rows[i])
        invariant result == before + Repeat(lineIdx, k)
      {
        result := result + [lineIdx];
      }
      lineIdx := lineIdx + 1;
    }
    assert rows[..|rows|] == rows;
  }

  method BuildMatchLineIndex(logs: seq<Log>, count: Row -> nat) returns (result: seq<nat>)
    ensures result == IndexOf(AllRows(logs), count)
  {
    result := [];
    var lineIdx := 0;
    hide RowsOf;
    for a := 0 to |logs|
      invariant lineIdx == |AllRows(logs[..a])| && result == IndexOf(AllRows(logs[..a]), count)
    {
      assert logs[..a + 1][..a] == logs[..a];
      result, lineIdx := IndexEntry(logs[a], count, result, lineIdx, AllRows(logs[..a]));
    }
    assert logs[..|logs|] == logs;
  }

  lemma {:induction false} BelowJoin(a: seq<nat>, b: seq<nat>, x: nat)
    ensures Below(a + b, x) == Below(a, x) + Below(b, x)
  {
    if a == [] {
      assert a + b == b;
    } else {
      assert (a + b)[1..] == a[1..] + b;
      BelowJoin(a[1..], b, x);
    }
  }

  lemma {:induction false} BelowRepeated(v: nat, n: nat, x: nat)
    ensures Below(Repeat(v, n), x) == if v < x then n else 0
  {
    if n > 0 {
      BelowRepeated(v, n - 1, x);
      BelowJoin(Repeat(v, n - 1), [v], x);
      assert [v][1..] == [];
    }
  }

  lemma {:induction false} RepeatHolds(v: nat, n: nat)
    ensures |Repeat(v, n)| == n && forall i :: 0 <= i < n ==> Repeat(v, n)[i] == v
  {
    if n > 0 {
      RepeatHolds(v, n - 1);
    }
  }

  /** The index is sorted, and names no line past the last. */
  lemma {:induction false} IndexIsSorted(rows: seq<Row>, count: Row -> nat)
    ensures Sorted(IndexOf(rows, count)) && AllUnder(IndexOf(rows, count), |rows|)
  {
    hide Sorted, AllUnder;
    NoneSorted();
    if rows != [] {
      var last := |rows| - 1;
      IndexIsSorted(rows[..last], count);
      SortedGrows(IndexOf(rows[..last], count), last, count(rows[last]));
    }
  }

  lemma NoneSorted()
    ensures Sorted([]) && AllUnder([], 0)
  {
  }

  /** What the index has below a line is the matches on the lines before it. */
  lemma {:induction false} IndexCountsMatches(rows: seq<Row>, count: Row -> nat, x: nat)
    requires x <= |rows|
    ensures Below(IndexOf(rows, count), x) == MatchesIn(rows, x, count)
  {
    if rows != [] {
      var last := |rows| - 1;
      var rest, n := IndexOf(rows[..last], count), count(rows[last]);
      IndexCountsMatches(rows[..last], count, if x < |rows| then x else last);
      MatchesOfPrefix(rows, last, if x < |rows| then x else last, count);
      IndexIsSorted(rows[..last], count);
      hide Sorted, AllUnder, Below, Repeat;
      BelowJoin(rest, Repeat(last, n), x);
      BelowRepeated(last, n, x);
      if x == |rows| {
        AllBelow(rest, last, x);
      }
    }
  }

  lemma SortedGrows(s: seq<nat>, last: nat, n: nat)
    requires Sorted(s) && AllUnder(s, last)
    ensures Sorted(s + Repeat(last, n)) && AllUnder(s + Repeat(last, n), last + 1)
  {
    RepeatHolds(last, n);
    hide Repeat;
  }

  ghost predicate AllUnder(s: seq<nat>, x: nat) {
    forall i :: 0 <= i < |s| ==> s[i] < x
  }

  lemma {:induction false} MatchesOfPrefix(rows: seq<Row>, m: nat, n: nat, count: Row -> nat)
    requires n <= m <= |rows|
    ensures MatchesIn(rows[..m], n, count) == MatchesIn(rows, n, count)
  {
    if n > 0 {
      MatchesOfPrefix(rows, m, n - 1, count);
    }
  }

  lemma {:induction false} AllBelow(s: seq<nat>, x: nat, y: nat)
    requires x <= y && AllUnder(s, x)
    ensures Below(s, x) == Below(s, y)
  {
    if s != [] {
      AllBelow(s[1..], x, y);
    }
  }

  // ---------------------------------------------------------------- rendering

  /** A row drawn, given how many matches come before it. */
  type Draw = (Row, nat) -> string

  /** Everything, drawn. */
  function DrawAll(rows: seq<Row>, index: seq<nat>, draw: Draw): seq<string> {
    seq(|rows|, i requires 0 <= i < |rows| => draw(rows[i], Below(index, i)))
  }

  method CountLines(logs: seq<Log>) returns (total: nat)
    ensures total == |AllRows(logs)|
  {
    total := 0;
    for a := 0 to |logs|
      invariant total == |AllRows(logs[..a])|
    {
      assert logs[..a + 1][..a] == logs[..a];
      EntryLinesIsSplit(logs[a]);
      total := total + EntryLines(logs[a]);
    }
    assert logs[..|logs|] == logs;
  }

  lemma {:induction false} RowAt(logs: seq<Log>, a: nat, i: nat)
    requires a < |logs| && i < |RowsOf(logs[a])|
    ensures var first := |AllRows(logs[..a])|;
            first + i < |AllRows(logs)| && AllRows(logs)[first + i] == RowsOf(logs[a])[i]
    ensures |AllRows(logs[..a + 1])| == |AllRows(logs[..a])| + |RowsOf(logs[a])|
  {
    hide RowsOf;
    assert logs[..a + 1][..a] == logs[..a];
    if a == |logs| - 1 {
      assert logs[..a + 1] == logs;
    } else {
      var rest := logs[..|logs| - 1];
      RowAt(rest, a, i);
      assert rest[..a] == logs[..a] && rest[..a + 1] == logs[..a + 1];
    }
  }

  /** How far into the window line `n` is. */
  function Clamp(n: nat, start: nat, end: nat): (c: nat)
    requires start <= end
    ensures start <= c <= end
  {
    if n < start then start else if n > end then end else n
  }

  datatype View = InvalidDimensions | NoLogs | Lines(lines: seq<string>)

  /** One entry's lines, those of them inside the window. */
  method DrawEntry(logs: seq<Log>, a: nat, start: nat, end: nat, index: seq<nat>, draw: Draw, drawn: seq<string>,
                   first: nat)
    returns (lines: seq<string>, lineIdx: nat)
    requires a < |logs| && Sorted(index) && first == |AllRows(logs[..a])| && start <= end <= |AllRows(logs)|
    requires drawn == DrawAll(AllRows(logs), index, draw)[start..Clamp(first, start, end)]
    ensures lineIdx == |AllRows(logs[..a + 1])|
    ensures lines == DrawAll(AllRows(logs), index, draw)[start..Clamp(lineIdx, start, end)]
  {
    hide RowsOf, AllRows, Below;
    var rows := RowsOf(logs[a]);
    ghost var all := DrawAll(AllRows(logs), index, draw);
    SomeRows(logs[a]);
    lines, lineIdx := drawn, first;
    for i := 0 to |rows|
      invariant lineIdx == first + i && lines == all[start..Clamp(lineIdx, start, end)]
    {
      RowAt(logs, a, i);
      if start <= lineIdx < end {
        var before := SearchInts(index, lineIdx);
        assert all[lineIdx] == draw(rows[i], before);
        assert all[start..lineIdx + 1] == all[start..lineIdx] + [all[lineIdx]];
        lines := lines + [draw(rows[i], before)];
      }
      lineIdx := lineIdx + 1;
    }
    RowAt(logs, a, 0);
  }

  lemma SomeRows(log: Log)
    ensures |RowsOf(log)| > 0
  {
  }

  /** Its second pass: only entries that reach into the window are drawn. */
  method DrawWindow(logs: seq<Log>, start: nat, end: nat, index: seq<nat>, draw: Draw) returns (lines: seq<string>)
    requires Sorted(index) && start <= end <= |AllRows(logs)|
    ensures lines == DrawAll(AllRows(logs), index, draw)[start..end]
  {
    lines := [];
    var lineIdx := 0;
    ghost var all := DrawAll(AllRows(logs), index, draw);
    var a := 0;
    assert logs[..0] == [];
    hide RowsOf, Below, DrawAll;
    while a < |logs|
      invariant 0 <= a <= |logs| && lineIdx == |AllRows(logs[..a])| && lines == all[start..Clamp(lineIdx, start, end)]
    {
      var n := EntryLines(logs[a]);
      RowsAre(logs, a);
      if lineIdx + n <= start {
        lineIdx := lineIdx + n;
        a := a + 1;
        continue;
      }
      if lineIdx >= end {
        break;
      }
      lines, lineIdx := DrawEntry(logs, a, start, end, index, draw, lines, lineIdx);
      a := a + 1;
    }
    assert logs[..|logs|] == logs;
  }

  /** renderLogWindow: exactly the window's slice of all the lines, drawn, and blanks above if they are few. */
  method RenderLogWindow(logs: seq<Log>, height: int, width: int, scrollOffset: int, index: seq<nat>, draw: Draw,
                         blank: string)
    returns (view: View)
    requires Sorted(index)
    ensures height <= 0 || width <= 0 ==> view == InvalidDimensions
    ensures height > 0 && width > 0 && logs == [] ==> view == NoLogs
    ensures height > 0 && width > 0 && logs != [] ==>
              var all := DrawAll(AllRows(logs), index, draw);
              var (start, end) := Window(|AllRows(logs)|, height, if scrollOffset < 0 then 0 else scrollOffset);
              view == Lines(seq(height - (end - start), _ => blank) + all[start..end])
  {
    if height <= 0 || width <= 0 {
      return InvalidDimensions;
    }
    if |logs| == 0 {
      return NoLogs;
    }
    var offset := if scrollOffset < 0 then 0 else scrollOffset;
    var total := CountLines(logs);
    WindowFits(total, height, offset);
    var (start, end) := Window(total, height, offset);
    var lines := DrawWindow(logs, start, end, index, draw);
    hide AllRows, DrawAll;
    var pad := height - |lines|;
    if pad > 0 {
      return Lines(seq(pad, _ => blank) + lines);
    }
    assert seq(0, _ => blank) + lines == lines;
    return Lines(lines);
  }

  lemma RowsAre(logs: seq<Log>, a: nat)
    requires a < |logs|
    ensures |AllRows(logs[..a + 1])| == |AllRows(logs[..a])| + EntryLines(logs[a])
  {
    EntryLinesIsSplit(logs[a]);
    assert logs[..a + 1][..a] == logs[..a];
  }
}
