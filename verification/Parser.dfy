/**
 Grouping Python tracebacks by stream: internal/parser/parser.go and python.go. The
 regular expressions, JSON, level detection and ANSI stripping are the functions of
 `Patterns`; all that is used of them is that the pure parsers keep the line as `raw`.
 */
module Parsing {
  import opened Wrappers
  import opened LogEntries

  datatype Patterns = Patterns(
    sanitise: string -> string,
    header: string -> bool,     // tracebackStartRegex
    frame: string -> bool,      // tracebackFileRegex
    ending: string -> bool,     // errorLineRegex
    blank: string -> bool,      // nothing left after strings.TrimSpace
    traceId: string -> string,  // extractTraceID
    json: (string, string, int) -> Option<Entry>,
    plain: (string, string, int, bool) -> Entry)

  /** JSONParser and PlainTextParser set Raw to the line they are given. */
  ghost predicate KeepsRaw(pat: Patterns) {
    && (forall source, line, time :: pat.json(source, line, time).Some? ==> pat.json(source, line, time).value.raw == line)
    && forall source, line, time, err :: pat.plain(source, line, time, err).raw == line
  }

  // ---------------------------------------------------------------- PythonParser

  datatype Traceback = Traceback(open: bool, lines: seq<string>, firstLine: string, firstTime: int)

  const CLOSED := Traceback(false, [], "", 0)

  function Join(lines: seq<string>): string {
    if lines == [] then ""
    else if |lines| == 1 then lines[0]
    else Join(lines[..|lines| - 1]) + "\n" + lines[|lines| - 1]
  }

  function FirstTraceId(pat: Patterns, lines: seq<string>): string {
    if lines == [] then ""
    else if pat.traceId(lines[0]) != "" then pat.traceId(lines[0])
    else FirstTraceId(pat, lines[1..])
  }

  function Build(pat: Patterns, source: string, st: Traceback): Entry {
    var message := if st.lines != [] && pat.ending(st.lines[|st.lines| - 1]) then st.lines[|st.lines| - 1] else st.firstLine;
    Entry(st.firstTime, Error, source, "", message, Join(st.lines), Join(st.lines), FirstTraceId(pat, st.lines))
  }

  /** reset: the time of the first line is left. */
  function Reset(st: Traceback): Traceback {
    Traceback(false, [], "", st.firstTime)
  }

  predicate Continues(pat: Patterns, line: string) {
    (|line| >= 2 && line[..2] == "  ") || pat.frame(line)
  }

  datatype Parsed = Parsed(st: Traceback, entry: Option<Entry>, consumed: bool)

  function ParseTraceback(pat: Patterns, st: Traceback, source: string, line: string, time: int): Parsed {
    if pat.header(line) then Parsed(Traceback(true, [line], line, time), None, true)
    else if !st.open then Parsed(st, None, false)
    else if Continues(pat, line) then Parsed(st.(lines := st.lines + [line]), None, true)
    else if pat.ending(line) then Parsed(Reset(st), Some(Build(pat, source, st.(lines := st.lines + [line]))), true)
    else Parsed(Reset(st), Some(Build(pat, source, st)), pat.blank(line) && |st.lines| > 2)
  }

  function FlushTraceback(pat: Patterns, st: Traceback, source: string): (Traceback, Option<Entry>) {
    if st.open && st.lines != [] then (Reset(st), Some(Build(pat, source, st))) else (st, None)
  }

  class PythonParser {
    var inTraceback: bool
    var lines: seq<string>
    var firstLine: string
    var firstTime: int

    function State(): Traceback
      reads this
    {
      Traceback(inTraceback, lines, firstLine, firstTime)
    }

    constructor ()
      ensures State() == CLOSED
    {
      inTraceback, lines, firstLine, firstTime := false, [], "", 0;
    }

    method Parse(pat: Patterns, source: string, line: string, timestamp: int) returns (entry: Option<Entry>,
                 consumed: bool)
      modifies this
      ensures Parsed(State(), entry, consumed) == ParseTraceback(pat, old(State()), source, line, timestamp)
    {
      if pat.header(line) {
        inTraceback, lines, firstLine, firstTime := true, [line], line, timestamp;
        return None, true;
      }
      if inTraceback {
        if Continues(pat, line) {
          lines := lines + [line];
          return None, true;
        }
        if pat.ending(line) {
          lines := lines + [line];
          var built := BuildEntry(pat, source);
          Close();
          return Some(built), true;
        }
        if pat.blank(line) && |lines| > 2 {
          var built := BuildEntry(pat, source);
          Close();
          return Some(built), true;
        }
        var built := BuildEntry(pat, source);
        Close();
        return Some(built), false;
      }
      return None, false;
    }

    method Flush(pat: Patterns, source: string) returns (entry: Option<Entry>)
      modifies this
      ensures (State(), entry) == FlushTraceback(pat, old(State()), source)
    {
      entry := None;
      if inTraceback && |lines| > 0 {
        var built := BuildEntry(pat, source);
        entry := Some(built);
        Close();
      }
    }

    method BuildEntry(pat: Patterns, source: string) returns (entry: Entry)
      ensures entry == Build(pat, source, State())
    {
      var message := firstLine;
      if |lines| > 0 && pat.ending(lines[|lines| - 1]) {
        message := lines[|lines| - 1];
      }
      var id := "";
      var i := 0;
      while i < |lines|
        invariant i <= |lines| && id == "" && FirstTraceId(pat, lines) == FirstTraceId(pat, lines[i..])
      {
        if pat.traceId(lines[i]) != "" {
          id := pat.traceId(lines[i]);
          break;
        }
        i := i + 1;
      }
      return Entry(firstTime, Error, source, "", message, Join(lines), Join(lines), id);
    }

    method Close()
      modifies this
      ensures State() == Reset(old(State()))
    {
      inTraceback, lines, firstLine := false, [], "";
    }
  }

  // ---------------------------------------------------------------- MultiParser, as a function of its states

  /** streamKey: one stream of one source. */
  datatype Key = Key(source: string, isStderr: bool)

  datatype Event = Line(key: Key, sourceType: string, text: string, time: int) | Flush(key: Key)

  function Typed(e: Entry, sourceType: string): Entry {
    e.(sourceType := sourceType)
  }

  function Listed(e: Option<Entry>, sourceType: string): seq<Entry> {
    if e.Some? then [Typed(e.value, sourceType)] else []
  }

  /** parse, once the stream's state is at hand. */
  function ParseLine(pat: Patterns, st: Traceback, e: Event): (Traceback, seq<Entry>)
    requires e.Line?
  {
    var line, source := pat.sanitise(e.text), e.key.source;
    var first := if st.open then ParseTraceback(pat, st, source, line, e.time) else Parsed(st, None, false);
    var entries := Listed(first.entry, e.sourceType);
    if first.consumed then (first.st, entries)
    else
      var json := pat.json(source, line, e.time);
      if json.Some? then (first.st, entries + [Typed(json.value, e.sourceType)])
      else
        var second := ParseTraceback(pat, first.st, source, line, e.time);
        var more := entries + Listed(second.entry, e.sourceType);
        if second.consumed then (second.st, more)
        else (second.st, more + [Typed(pat.plain(source, line, e.time, e.key.isStderr), e.sourceType)])
  }

  function HandleOne(pat: Patterns, st: Traceback, e: Event): (Traceback, seq<Entry>) {
    match e
    case Line(_, _, _, _) => ParseLine(pat, st, e)
    case Flush(key) =>
      var (st', entry) := FlushTraceback(pat, st, key.source);
      (st', if entry.Some? then [entry.value] else [])
  }

  type States = map<Key, Traceback>

  /** stateFor: a stream not seen before has no traceback open. */
  function StateOf(states: States, key: Key): Traceback {
    if key in states then states[key] else CLOSED
  }

  function Handle(pat: Patterns, states: States, e: Event): (States, seq<Entry>) {
    var (st, entries) := HandleOne(pat, StateOf(states, e.key), e);
    (states[e.key := st], entries)
  }

  class MultiParser {
    const pat: Patterns
    var states: map<Key, PythonParser>

    function Parsers(): set<PythonParser>
      reads this
    {
      set k | k in states :: states[k]
    }

    ghost predicate Valid()
      reads this
    {
      forall j, k :: j in states && k in states && j != k ==> states[j] != states[k]
    }

    function State(): States
      reads this, Parsers()
    {
      map k | k in states :: states[k].State()
    }

    constructor (pat: Patterns)
      ensures Valid() && State() == map[] && this.pat == pat
    {
      this.pat := pat;
      states := map[];
    }

    method StateFor(key: Key) returns (st: PythonParser)
      requires Valid()
      modifies this
      ensures Valid() && key in states && states[key] == st
        && (if key in old(states) then st in old(Parsers()) else fresh(st))
      ensures states == old(states)[key := st] && Parsers() == old(Parsers()) + {st}
      ensures st.State() == StateOf(old(State()), key)
    {
      if key !in states {
        var p := new PythonParser();
        states := states[key := p];
      }
      st := states[key];
      forall p | p in old(Parsers()) ensures p in Parsers() {
        var k :| k in old(states) && old(states)[k] == p;
        assert k in states && states[k] == p;
      }
    }

    /** parse, with the stream's lock held. */
    method ParseWith(st: PythonParser, source: string, sourceType: string, text: string, timestamp: int, isStderr: bool)
      returns (entries: seq<Entry>)
      modifies st
      ensures (st.State(), entries) == ParseLine(pat, old(st.State()), Line(Key(source, isStderr), sourceType, text, timestamp))
    {
      hide ParseTraceback;
      var line := pat.sanitise(text);
      entries := [];
      if st.inTraceback {
        var entry, consumed := st.Parse(pat, source, line, timestamp);
        entries := Listed(entry, sourceType);
        if consumed {
          return;
        }
      }
      var json := pat.json(source, line, timestamp);
      if json.Some? {
        return entries + [Typed(json.value, sourceType)];
      }
      var entry, consumed := st.Parse(pat, source, line, timestamp);
      entries := entries + Listed(entry, sourceType);
      if consumed {
        return;
      }
      return entries + [Typed(pat.plain(source, line, timestamp, isStderr), sourceType)];
    }

    /** ParseLineWithType and ParseStderrLine: one line of one stream. */
    method Parse(source: string, sourceType: string, text: string, timestamp: int,
                 isStderr: bool) returns (entries: seq<Entry>)
      requires Valid()
      modifies this, Parsers()
      ensures Valid() && fresh(Parsers() - old(Parsers()))
      ensures (State(), entries) == Handle(pat, old(State()), Line(Key(source, isStderr), sourceType, text, timestamp))
    {
      hide ParseLine;
      var st := StateFor(Key(source, isStderr));
      assert forall k :: k in states && k != Key(source, isStderr) ==> states[k] != st;
      entries := ParseWith(st, source, sourceType, text, timestamp, isStderr);
      assert State() == old(State())[Key(source, isStderr) := st.State()];
    }

    method FlushStream(source: string, isStderr: bool) returns (entry: Option<Entry>)
      requires Valid()
      modifies this, Parsers()
      ensures Valid() && fresh(Parsers() - old(Parsers()))
      ensures (State(), if entry.Some? then [entry.value] else []) == Handle(pat, old(State()), Flush(Key(source, isStderr)))
    {
      var st := StateFor(Key(source, isStderr));
      assert forall k :: k in states && k != Key(source, isStderr) ==> states[k] != st;
      entry := st.Flush(pat, source);
      assert State() == old(State())[Key(source, isStderr) := st.State()];
    }
  }

  // ---------------------------------------------------------------- streams do not meet

  /** What the events of one stream emit in a run of all of them. */
  function EmittedFor(pat: Patterns, states: States, events: seq<Event>, key: Key): seq<Entry>
    decreases |events|
  {
    if events == [] then []
    else
      var (next, entries) := Handle(pat, states, events[0]);
      (if events[0].key == key then entries else []) + EmittedFor(pat, next, events[1..], key)
  }

  function OfStream(events: seq<Event>, key: Key): seq<Event> {
    if events == [] then []
    else (if events[0].key == key then [events[0]] else []) + OfStream(events[1..], key)
  }

  /** One stream's events, and nothing else. */
  function Alone(pat: Patterns, st: Traceback, events: seq<Event>): seq<Entry>
    decreases |events|
  {
    if events == [] then []
    else HandleOne(pat, st, events[0]).1 + Alone(pat, HandleOne(pat, st, events[0]).0, events[1..])
  }

  /** However streams interleave, each emits what it would have emitted alone. */
  lemma {:induction false} StreamsAreIsolated(pat: Patterns, states: States, events: seq<Event>, key: Key)
    ensures EmittedFor(pat, states, events, key) == Alone(pat, StateOf(states, key), OfStream(events, key))
    decreases |events|
  {
    hide HandleOne;
    if events != [] {
      var next := Handle(pat, states, events[0]).0;
      StreamsAreIsolated(pat, next, events[1..], key);
      if events[0].key == key {
        assert OfStream(events, key)[1..] == OfStream(events[1..], key);
      } else {
        assert StateOf(next, key) == StateOf(states, key);
        assert [] + OfStream(events[1..], key) == OfStream(events[1..], key);
        assert [] + EmittedFor(pat, next, events[1..], key) == EmittedFor(pat, next, events[1..], key);
      }
    }
  }

  // ---------------------------------------------------------------- lines are not lost

  /** Lines already in an entry, and the lines of the open traceback. */
  datatype Kept = Kept(done: seq<string>, open: seq<string>)

  /** What becomes of a line, told without entries or levels. */
  function Keep(pat: Patterns, k: Kept, e: Event): Kept {
    if e.Flush? then Kept(k.done + k.open, [])
    else
      var line := pat.sanitise(e.text);
      if k.open == [] then
        if !pat.json(e.key.source, line, e.time).Some? && pat.header(line) then Kept(k.done, [line])
        else Kept(k.done + [line], [])
      else if pat.header(line) then Kept(k.done, [line])
      else if Continues(pat, line) then Kept(k.done, k.open + [line])
      else if !pat.ending(line) && pat.blank(line) && |k.open| > 2 then Kept(k.done + k.open, [])
      else Kept(k.done + k.open + [line], [])
  }

  /** The lines an event loses: a traceback that a new header replaces, a blank line that closes one. */
  function Lost(pat: Patterns, k: Kept, e: Event): seq<string> {
    if e.Flush? || k.open == [] then []
    else
      var line := pat.sanitise(e.text);
      if pat.header(line) then k.open
      else if !Continues(pat, line) && !pat.ending(line) && pat.blank(line) && |k.open| > 2 then [line]
      else []
  }

  function KeepAll(pat: Patterns, k: Kept, events: seq<Event>): Kept
    decreases |events|
  {
    if events == [] then k else KeepAll(pat, Keep(pat, k, events[0]), events[1..])
  }

  function LostAll(pat: Patterns, k: Kept, events: seq<Event>): seq<string>
    decreases |events|
  {
    if events == [] then [] else Lost(pat, k, events[0]) + LostAll(pat, Keep(pat, k, events[0]), events[1..])
  }

  function Sanitised(pat: Patterns, events: seq<Event>): seq<string> {
    if events == [] then []
    else (if events[0].Line? then [pat.sanitise(events[0].text)] else []) + Sanitised(pat, events[1..])
  }

  function Now(pat: Patterns, e: Event): seq<string> {
    if e.Line? then [pat.sanitise(e.text)] else []
  }

  /** The lines flagged, in order. */
  function Picked(lines: seq<string>, flags: seq<bool>): seq<string>
    requires |flags| == |lines|
  {
    if lines == [] then [] else (if flags[0] then [lines[0]] else []) + Picked(lines[1..], flags[1..])
  }

  /** And the others. */
  function Unpicked(lines: seq<string>, flags: seq<bool>): seq<string>
    requires |flags| == |lines|
  {
    if lines == [] then [] else (if flags[0] then [] else [lines[0]]) + Unpicked(lines[1..], flags[1..])
  }

  /** `kept` and `lost` are what the flags make of `lines`, each in the order of `lines`. */
  ghost predicate Divides(lines: seq<string>, flags: seq<bool>, kept: seq<string>, lost: seq<string>) {
    |flags| == |lines| && Picked(lines, flags) == kept && Unpicked(lines, flags) == lost
  }

  lemma {:induction false} DividesAll(lines: seq<string>, flag: bool)
    ensures Divides(lines, seq(|lines|, _ => flag), if flag then lines else [], if flag then [] else lines)
  {
    if lines != [] {
      DividesAll(lines[1..], flag);
      assert seq(|lines|, _ => flag)[1..] == seq(|lines| - 1, _ => flag);
      assert lines == [lines[0]] + lines[1..];
    }
  }

  lemma {:induction false} DividesJoin(a: seq<string>, f: seq<bool>, kept: seq<string>, lost: seq<string>,
                                       b: seq<string>, g: seq<bool>, more: seq<string>, gone: seq<string>)
    requires Divides(a, f, kept, lost) && Divides(b, g, more, gone)
    ensures Divides(a + b, f + g, kept + more, lost + gone)
  {
    if a == [] {
      assert a + b == b && f + g == g && kept + more == more && lost + gone == gone;
    } else {
      assert (a + b)[1..] == a[1..] + b && (f + g)[1..] == f[1..] + g;
      DividesJoin(a[1..], f[1..], Picked(a[1..], f[1..]), Unpicked(a[1..], f[1..]), b, g, more, gone);
      assert kept + more == (if f[0] then [a[0]] else []) + (Picked(a[1..], f[1..]) + more);
      assert lost + gone == (if f[0] then [] else [a[0]]) + (Unpicked(a[1..], f[1..]) + gone);
    }
  }

  /** One event moves a piece of the open traceback and its line on, losing all of the piece, none, or the last line. */
  lemma OneEventDivides(pat: Patterns, k: Kept, e: Event) returns (piece: seq<string>, flags: seq<bool>, kept: seq<string>)
    ensures k.open + Now(pat, e) == piece + Keep(pat, k, e).open
    ensures Keep(pat, k, e).done == k.done + kept && Divides(piece, flags, kept, Lost(pat, k, e))
  {
    hide Divides;
    var now, next, lost := Now(pat, e), Keep(pat, k, e), Lost(pat, k, e);
    if lost == [] {
      piece := if next.open == [] then k.open + now else if next.open == now then k.open else [];
      DividesAll(piece, true);
      return piece, seq(|piece|, _ => true), piece;
    } else if next.open != [] {
      DividesAll(k.open, false);
      return k.open, seq(|k.open|, _ => false), [];
    } else {
      DividesAll(k.open, true);
      DividesAll(now, false);
      DividesJoin(k.open, seq(|k.open|, _ => true), k.open, [], now, seq(|now|, _ => false), [], now);
      assert k.open + [] == k.open && [] + now == now;
      return k.open + now, seq(|k.open|, _ => true) + seq(|now|, _ => false), k.open;
    }
  }

  lemma Regroup(open: seq<string>, now: seq<string>, piece: seq<string>, open': seq<string>, rest: seq<string>)
    requires open + now == piece + open'
    ensures open + (now + rest) == piece + (open' + rest)
  {
    assert open + (now + rest) == (open + now) + rest;
  }

  /**
   In every run the lines kept, finished entries first and then the open traceback, are those
   that came, in the order they came, less exactly the lost ones; what had been put in an
   entry is never lost.
   */
  lemma {:induction false} LinesKeepOrder(pat: Patterns, k: Kept, events: seq<Event>)
    ensures var end := KeepAll(pat, k, events);
            exists flags, kept ::
              && Divides(k.open + Sanitised(pat, events), flags, kept, LostAll(pat, k, events))
              && end.done + end.open == k.done + kept
    decreases |events|
  {
    hide Divides;
    if events == [] {
      DividesAll(k.open, true);
      assert k.open + Sanitised(pat, events) == k.open && LostAll(pat, k, events) == [];
    } else {
      var piece, f, kept := OneEventDivides(pat, k, events[0]);
      var next, now, rest := Keep(pat, k, events[0]), Now(pat, events[0]), Sanitised(pat, events[1..]);
      hide Keep, Lost, Now;
      LinesKeepOrder(pat, next, events[1..]);
      var g, more :| Divides(next.open + rest, g, more, LostAll(pat, next, events[1..])) &&
                     KeepAll(pat, next, events[1..]).done + KeepAll(pat, next, events[1..]).open == next.done + more;
      DividesJoin(piece, f, kept, Lost(pat, k, events[0]), next.open + rest, g, more, LostAll(pat, next, events[1..]));
      NowIs(pat, events[0]);
      Regroup(k.open, now, piece, next.open, rest);
      assert Sanitised(pat, events) == now + rest && k.done + (kept + more) == (k.done + kept) + more;
      assert Divides(k.open + Sanitised(pat, events), f + g, kept + more, LostAll(pat, k, events));
    }
  }

  lemma NowIs(pat: Patterns, e: Event)
    ensures Now(pat, e) == if e.Line? then [pat.sanitise(e.text)] else []
  {
  }

  /** How often a line occurs. */
  function Times(lines: seq<string>, x: string): nat {
    if lines == [] then 0 else (if lines[0] == x then 1 else 0) + Times(lines[1..], x)
  }

  lemma {:induction false} TimesJoin(a: seq<string>, b: seq<string>, x: string)
    ensures Times(a + b, x) == Times(a, x) + Times(b, x)
  {
    if a == [] {
      assert a + b == b;
    } else {
      assert (a + b)[1..] == a[1..] + b;
      TimesJoin(a[1..], b, x);
    }
  }

  lemma {:induction false} DividedTimes(lines: seq<string>, flags: seq<bool>, x: string)
    requires |flags| == |lines|
    ensures Times(Picked(lines, flags), x) + Times(Unpicked(lines, flags), x) == Times(lines, x)
    ensures Unpicked(lines, flags) == [] ==> Picked(lines, flags) == lines
  {
    if lines != [] {
      var p, u := Picked(lines[1..], flags[1..]), Unpicked(lines[1..], flags[1..]);
      DividedTimes(lines[1..], flags[1..], x);
      assert ([lines[0]] + p)[1..] == p && ([lines[0]] + u)[1..] == u;
      assert [] + p == p && [] + u == u && lines == [lines[0]] + lines[1..];
    }
  }

  /** So every line is kept, open or lost, each as often as it came, and when none is lost they are as they came. */
  lemma EveryLineAccounted(pat: Patterns, k: Kept, events: seq<Event>, x: string)
    ensures var end := KeepAll(pat, k, events);
            Times(end.done + end.open, x) + Times(LostAll(pat, k, events), x) == Times(k.done + k.open + Sanitised(pat, events), x)
    ensures var end := KeepAll(pat, k, events);
            LostAll(pat, k, events) == [] ==> end.done + end.open == k.done + k.open + Sanitised(pat, events)
  {
    LinesKeepOrder(pat, k, events);
    hide KeepAll, LostAll, Sanitised, Divides;
    var end, lines := KeepAll(pat, k, events), Sanitised(pat, events);
    var flags, kept :| Divides(k.open + lines, flags, kept, LostAll(pat, k, events)) && end.done + end.open == k.done + kept;
    DivisionAccounts(k.done, k.open + lines, flags, kept, LostAll(pat, k, events), x);
    assert k.done + (k.open + lines) == k.done + k.open + lines;
  }

  lemma DivisionAccounts(done: seq<string>, lines: seq<string>, flags: seq<bool>, kept: seq<string>, lost: seq<string>,
                         x: string)
    requires Divides(lines, flags, kept, lost)
    ensures Times(done + kept, x) + Times(lost, x) == Times(done + lines, x)
    ensures lost == [] ==> done + kept == done + lines
  {
    DividedTimes(lines, flags, x);
    TimesJoin(done, kept, x);
    TimesJoin(done, lines, x);
  }

  /** A traceback is lost: another begins while it is open, and only the second is emitted. */
  lemma ANewHeaderLosesATraceback(pat: Patterns, key: Key, sourceType: string, time: int, start: string, more: string)
    requires pat.sanitise(start) == start && pat.header(start) && pat.json(key.source, start, time).None?
    requires pat.sanitise(more) == more && !pat.header(more) && Continues(pat, more)
    ensures var header, frame := Line(key, sourceType, start, time), Line(key, sourceType, more, time);
            var events := [header, frame, header, Flush(key)];
            && Raws(Alone(pat, CLOSED, events)) == [start]
            && LostAll(pat, Kept([], []), events) == [start, more]
  {
    var header, frame, flush := Line(key, sourceType, start, time), Line(key, sourceType, more, time), Flush(key);
    var one, two := Traceback(true, [start], start, time), Traceback(true, [start, more], start, time);
    assert [start] + [more] == [start, more];
    assert pat.header(pat.sanitise(header.text)) && Kept([], []).open == [];
    assert Keep(pat, Kept([], []), header).open == [start] && Keep(pat, Kept([], []), header).done == [];
    assert HandleOne(pat, CLOSED, header).0 == one && HandleOne(pat, CLOSED, header).1 == [];
    assert HandleOne(pat, one, frame) == (two, []) && Keep(pat, Kept([], [start]), frame) == Kept([], [start, more]);
    assert HandleOne(pat, two, header) == (one, []) && Keep(pat, Kept([], [start, more]), header) == Kept([], [start]);
    assert Raws(HandleOne(pat, one, flush).1) == [start];
    assert Lost(pat, Kept([], [start, more]), header) == [start, more];
    hide HandleOne, Keep;
    var events := [header, frame, header, flush];
    assert events[1..] == [frame, header, flush] && events[1..][1..] == [header, flush] && events[1..][1..][1..] == [flush];
    assert Alone(pat, two, [header, flush]) == Alone(pat, one, [flush]) == HandleOne(pat, one, flush).1;
    assert LostAll(pat, Kept([], [start]), [flush]) == [];
    assert LostAll(pat, Kept([], [start, more]), [header, flush]) == [start, more];
  }

  // ---------------------------------------------------------------- entries hold the lines kept

  /** Lines as text, each ended by a newline. */
  function Text(lines: seq<string>): string {
    if lines == [] then "" else Text(lines[..|lines| - 1]) + lines[|lines| - 1] + "\n"
  }

  function Raws(entries: seq<Entry>): seq<string> {
    seq(|entries|, i requires 0 <= i < |entries| => entries[i].raw)
  }

  lemma {:induction false} TextJoin(a: seq<string>, b: seq<string>)
    ensures Text(a + b) == Text(a) + Text(b)
  {
    if b == [] {
      assert a + b == a;
    } else {
      assert (a + b)[..|a + b| - 1] == a + b[..|b| - 1];
      TextJoin(a, b[..|b| - 1]);
    }
  }

  /** A traceback's raw text is its lines. */
  lemma {:induction false} JoinIsText(lines: seq<string>)
    requires lines != []
    ensures Join(lines) + "\n" == Text(lines)
  {
    if |lines| > 1 {
      JoinIsText(lines[..|lines| - 1]);
    } else {
      assert lines[..0] == [];
    }
  }

  lemma TextOfOne(line: string)
    ensures Text([line]) == line + "\n"
  {
  }

  ghost predicate Agrees(st: Traceback, k: Kept) {
    st.open == (k.open != []) && (st.open ==> st.lines == k.open)
  }

  /** A traceback's entry stands for its lines. */
  lemma TracebackText(done: seq<string>, open: seq<string>)
    requires open != []
    ensures Text(done + [Join(open)]) == Text(done + open)
  {
    JoinIsText(open);
    TextOfOne(Join(open));
    TextJoin(done, open);
    TextJoin(done, [Join(open)]);
  }

  /** One event's entries, as text, are the lines it moved out of the open traceback. */
  lemma EntriesHoldLines(pat: Patterns, st: Traceback, k: Kept, e: Event)
    requires KeepsRaw(pat) && Agrees(st, k)
    ensures Agrees(HandleOne(pat, st, e).0, Keep(pat, k, e))
    ensures Text(k.done + Raws(HandleOne(pat, st, e).1)) == Text(Keep(pat, k, e).done)
  {
    hide Text, Join, FirstTraceId;
    var (next, entries) := HandleOne(pat, st, e);
    assert k.done + [] == k.done;
    if k.open != [] {
      TracebackText(k.done, k.open);
    }
    if e.Flush? {
      assert if k.open != [] then Raws(entries) == [Join(k.open)] else Raws(entries) == [];
      return;
    }
    var line := pat.sanitise(e.text);
    if k.open == [] {
      assert entries != [] ==> Raws(entries) == [line];
    } else if !pat.header(line) && !Continues(pat, line) {
      if pat.ending(line) {
        TracebackText(k.done, k.open + [line]);
        assert Raws(entries) == [Join(k.open + [line])];
        assert k.done + (k.open + [line]) == k.done + k.open + [line];
      } else if pat.blank(line) && |k.open| > 2 {
        assert Raws(entries) == [Join(k.open)];
      } else {
        assert Raws(entries) == [Join(k.open), line];
        assert k.done + [Join(k.open), line] == k.done + [Join(k.open)] + [line];
        TextJoin(k.done + [Join(k.open)], [line]);
        TextJoin(k.done + k.open, [line]);
      }
    }
  }

  lemma RawsJoin(done: seq<string>, a: seq<Entry>, b: seq<Entry>)
    ensures Text(done + Raws(a + b)) == Text(done + Raws(a)) + Text(Raws(b))
  {
    assert done + Raws(a + b) == done + Raws(a) + Raws(b);
    TextJoin(done + Raws(a), Raws(b));
  }

  /** The entries of a stream are, as text and in order, the lines kept. */
  lemma {:induction false} StreamConservesLines(pat: Patterns, st: Traceback, k: Kept, events: seq<Event>)
    requires KeepsRaw(pat) && Agrees(st, k)
    ensures Text(k.done + Raws(Alone(pat, st, events))) == Text(KeepAll(pat, k, events).done)
    decreases |events|
  {
    if events == [] {
      assert k.done + Raws([]) == k.done;
    } else {
      EntriesHoldLines(pat, st, k, events[0]);
      hide HandleOne, Keep, Text, Agrees, KeepsRaw, Raws;
      var one, k' := HandleOne(pat, st, events[0]), Keep(pat, k, events[0]);
      StreamConservesLines(pat, one.0, k', events[1..]);
      RawsJoin(k.done, one.1, Alone(pat, one.0, events[1..]));
      TextJoin(k'.done, Raws(Alone(pat, one.0, events[1..])));
    }
  }

  /**
   A stream from its first line to a flush: its entries are, as text and in order, the lines
   that came, less exactly the lost ones.
   */
  lemma StreamIsReproduced(pat: Patterns, events: seq<Event>, key: Key)
    requires KeepsRaw(pat)
    ensures exists flags, kept ::
              && Divides(Sanitised(pat, events), flags, kept, LostAll(pat, Kept([], []), events))
              && Text(Raws(Alone(pat, CLOSED, events + [Flush(key)]))) == Text(kept)
  {
    var start, all := Kept([], []), events + [Flush(key)];
    StreamConservesLines(pat, CLOSED, start, all);
    FlushEnds(pat, start, events, key);
    LinesKeepOrder(pat, start, events);
    var flags, kept :|
      && Divides(start.open + Sanitised(pat, events), flags, kept, LostAll(pat, start, events))
      && KeepAll(pat, start, events).done + KeepAll(pat, start, events).open == start.done + kept;
    assert start.open + Sanitised(pat, events) == Sanitised(pat, events) && start.done + kept == kept;
    assert start.done + Raws(Alone(pat, CLOSED, all)) == Raws(Alone(pat, CLOSED, all));
  }

  lemma {:induction false} FlushEnds(pat: Patterns, k: Kept, events: seq<Event>, key: Key)
    ensures KeepAll(pat, k, events + [Flush(key)]).done == KeepAll(pat, k, events).done + KeepAll(pat, k, events).open
    decreases |events|
  {
    if events == [] {
      assert events + [Flush(key)] == [Flush(key)];
    } else {
      assert (events + [Flush(key)])[1..] == events[1..] + [Flush(key)];
      hide Keep;
      FlushEnds(pat, Keep(pat, k, events[0]), events[1..], key);
    }
  }
}
