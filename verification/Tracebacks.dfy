/**
 What a stream's traceback comes to, told by its events: the header, the lines that
 continue it and the event that ends it.
 */
module Tracebacks {
  import opened Wrappers
  import opened LogEntries
  import opened Parsing

  /** A header begins a traceback; outside of one, a line that is JSON is never looked at for a header. */
  predicate Begins(pat: Patterns, open: bool, e: Event) {
    e.Line? && pat.header(pat.sanitise(e.text)) && (open || pat.json(e.key.source, pat.sanitise(e.text), e.time).None?)
  }

  predicate GoesOn(pat: Patterns, e: Event) {
    e.Line? && !pat.header(pat.sanitise(e.text)) && Continues(pat, pat.sanitise(e.text))
  }

  /** The trace id of the first line that has one. */
  ghost predicate FirstIdOf(pat: Patterns, lines: seq<string>, id: string) {
    if id == "" then forall i :: 0 <= i < |lines| ==> pat.traceId(lines[i]) == ""
    else exists i :: 0 <= i < |lines| && id == pat.traceId(lines[i]) && forall j :: 0 <= j < i ==> pat.traceId(lines[j]) == ""
  }

  /** The entry of a traceback: dated by its header, an error, with all its lines as the text. */
  ghost predicate TellsOf(pat: Patterns, entry: Entry, header: Event, lines: seq<string>)
    requires header.Line?
  {
    && entry.timestamp == header.time && entry.level == Error && entry.source == header.key.source
    && entry.raw + "\n" == Text(lines) && entry.stacktrace == entry.raw
    && FirstIdOf(pat, lines, entry.trace)
  }

  lemma {:induction false} FirstTraceIdIs(pat: Patterns, lines: seq<string>)
    ensures FirstIdOf(pat, lines, FirstTraceId(pat, lines))
  {
    if lines != [] && pat.traceId(lines[0]) == "" {
      FirstTraceIdIs(pat, lines[1..]);
      var id := FirstTraceId(pat, lines[1..]);
      if id != "" {
        var i :| 0 <= i < |lines[1..]| && id == pat.traceId(lines[1..][i]) && forall j :: 0 <= j < i ==> pat.traceId(lines[1..][j]) == "";
        assert forall j :: 0 < j <= i ==> lines[j] == lines[1..][j - 1];
        assert id == pat.traceId(lines[i + 1]);
      } else {
        assert forall j :: 0 < j < |lines| ==> lines[j] == lines[1..][j - 1];
      }
    }
  }

  lemma BuildTells(pat: Patterns, header: Event, st: Traceback)
    requires header.Line? && st.lines != [] && st.firstTime == header.time
    ensures TellsOf(pat, Build(pat, header.key.source, st), header, st.lines)
  {
    JoinIsText(st.lines);
    FirstTraceIdIs(pat, st.lines);
    hide Join, Text, FirstTraceId, FirstIdOf;
  }

  /** The state after a header and the lines that continue it. */
  function Gathered(pat: Patterns, header: Event, body: seq<Event>): Traceback
    requires header.Line?
  {
    Traceback(true, [pat.sanitise(header.text)] + Sanitised(pat, body), pat.sanitise(header.text), header.time)
  }

  lemma {:induction false} BodyIsGathered(pat: Patterns, st: Traceback, body: seq<Event>, end: Event)
    requires st.open && forall e :: e in body ==> GoesOn(pat, e)
    ensures Alone(pat, st, body + [end]) == HandleOne(pat, st.(lines := st.lines + Sanitised(pat, body)), end).1
    decreases |body|
  {
    hide *;
    if body == [] {
      assert body + [end] == [end] && st.lines + [] == st.lines;
      AloneIs(pat, st, [end]);
      AloneIs(pat, HandleOne(pat, st, end).0, []);
      NoLines(pat);
    } else {
      var e, rest := body[0], body[1..];
      assert GoesOn(pat, e);
      OneGathered(pat, st, e);
      var next := HandleOne(pat, st, e).0;
      BodyIsGathered(pat, next, rest, end);
      assert (body + [end])[1..] == rest + [end];
      AloneIs(pat, st, body + [end]);
      FirstSanitised(pat, body);
      assert st.lines + ([pat.sanitise(e.text)] + Sanitised(pat, rest)) == next.lines + Sanitised(pat, rest);
    }
  }

  lemma AloneIs(pat: Patterns, st: Traceback, events: seq<Event>)
    ensures events == [] ==> Alone(pat, st, events) == []
    ensures events != [] ==>
              Alone(pat, st, events) == HandleOne(pat, st, events[0]).1 + Alone(pat, HandleOne(pat, st, events[0]).0, events[1..])
  {
    hide HandleOne;
  }

  lemma NoLines(pat: Patterns)
    ensures Sanitised(pat, []) == []
  {
  }

  lemma FirstSanitised(pat: Patterns, events: seq<Event>)
    requires events != [] && events[0].Line?
    ensures Sanitised(pat, events) == [pat.sanitise(events[0].text)] + Sanitised(pat, events[1..])
  {
  }

  lemma OneGathered(pat: Patterns, st: Traceback, e: Event)
    requires st.open && GoesOn(pat, e)
    ensures e.Line? && HandleOne(pat, st, e) == (st.(lines := st.lines + [pat.sanitise(e.text)]), [])
  {
  }

  lemma HeaderStarts(pat: Patterns, st: Traceback, e: Event)
    requires Begins(pat, st.open, e)
    ensures var line := pat.sanitise(e.text); HandleOne(pat, st, e) == (Traceback(true, [line], line, e.time), [])
  {
    var none: seq<Entry> := [];
    assert none + [] == [];
  }

  lemma HeaderGathers(pat: Patterns, st: Traceback, header: Event, body: seq<Event>, end: Event)
    requires Begins(pat, st.open, header) && forall e :: e in body ==> GoesOn(pat, e)
    ensures Alone(pat, st, [header] + body + [end]) == HandleOne(pat, Gathered(pat, header, body), end).1
  {
    var events := [header] + body + [end];
    assert events[0] == header && events[1..] == body + [end];
    var one := Gathered(pat, header, []);
    HeaderStarts(pat, st, header);
    assert one.lines == [pat.sanitise(header.text)];
    hide HandleOne;
    BodyIsGathered(pat, one, body, end);
  }

  /** How an ordinary line comes out: as JSON if it is that, otherwise as plain text. */
  function Ordinary(pat: Patterns, e: Event): Entry
    requires e.Line?
  {
    var line := pat.sanitise(e.text);
    var json := pat.json(e.key.source, line, e.time);
    (if json.Some? then json.value else pat.plain(e.key.source, line, e.time, e.key.isStderr)).(sourceType := e.sourceType)
  }

  /**
   A traceback in a stream is one entry: an error with the header's time, all its lines, and
   the first trace id in them. Ended by an error line, that line is in it and is its message;
   otherwise its message is the header, unless its last line is itself an error line. A line
   that is neither comes out after it, and another header leaves nothing of it.
   */
  lemma TracebackIsOneEntry(pat: Patterns, st: Traceback, header: Event, body: seq<Event>, end: Event)
    returns (out: seq<Entry>)
    requires Begins(pat, st.open, header) && (forall e :: e in body ==> GoesOn(pat, e)) && end.key == header.key
    ensures out == Alone(pat, st, [header] + body + [end])
    ensures var lines := [pat.sanitise(header.text)] + Sanitised(pat, body);
            var message := if pat.ending(lines[|lines| - 1]) then lines[|lines| - 1] else lines[0];
            if end.Flush? then |out| == 1 && TellsOf(pat, out[0], header, lines) && out[0].message == message
            else
              var line := pat.sanitise(end.text);
              if pat.header(line) || Continues(pat, line) then out == []
              else if pat.ending(line) then
                |out| == 1 && TellsOf(pat, out[0], header, lines + [line]) && out[0].message == line
              else
                && |out| == (if pat.blank(line) && |lines| > 2 then 1 else 2)
                && TellsOf(pat, out[0], header, lines) && out[0].message == message
                && (|out| == 2 ==> out[1] == Ordinary(pat, end))
    ensures forall i :: 0 <= i < |out| ==> out[i].sourceType == if end.Line? then end.sourceType else ""
  {
    out := Alone(pat, st, [header] + body + [end]);
    HeaderGathers(pat, st, header, body, end);
    hide *;
    var st' := Gathered(pat, header, body);
    GatheredIs(pat, header, body);
    BuildTells(pat, header, st');
    BuiltMessage(pat, header.key.source, st');
    Ends(pat, st', end);
    if end.Line? {
      var more := st'.(lines := st'.lines + [pat.sanitise(end.text)]);
      BuildTells(pat, header, more);
      BuiltMessage(pat, header.key.source, more);
    }
  }

  lemma GatheredIs(pat: Patterns, header: Event, body: seq<Event>)
    requires header.Line?
    ensures Gathered(pat, header, body) ==
      Traceback(true, [pat.sanitise(header.text)] + Sanitised(pat, body), pat.sanitise(header.text), header.time)
  {
  }

  lemma BuiltMessage(pat: Patterns, source: string, st: Traceback)
    requires st.lines != []
    ensures var last := st.lines[|st.lines| - 1];
            var entry := Build(pat, source, st);
            entry.message == (if pat.ending(last) then last else st.firstLine) && entry.sourceType == ""
  {
  }

  /** The event that ends a traceback, or does not. */
  lemma Ends(pat: Patterns, st: Traceback, end: Event)
    requires st.open && st.lines != []
    ensures var out := HandleOne(pat, st, end).1;
            var built := Build(pat, end.key.source, st);
            if end.Flush? then out == [built]
            else
              var line := pat.sanitise(end.text);
              if pat.header(line) || Continues(pat, line) then out == []
              else if pat.ending(line) then
                out == [Build(pat, end.key.source, st.(lines := st.lines + [line])).(sourceType := end.sourceType)]
              else
                out == [built.(sourceType := end.sourceType)] +
                       if pat.blank(line) && |st.lines| > 2 then [] else [Ordinary(pat, end)]
  {
    hide Build, Continues;
  }

  /** The last line of a traceback is its header or goes on with it. */
  lemma {:induction false} LastLineGoesOn(pat: Patterns, header: Event, body: seq<Event>)
    requires Begins(pat, true, header) && forall e :: e in body ==> GoesOn(pat, e)
    ensures var lines := [pat.sanitise(header.text)] + Sanitised(pat, body);
            pat.header(lines[|lines| - 1]) || Continues(pat, lines[|lines| - 1])
  {
    if body != [] {
      assert GoesOn(pat, body[0]);
      if body[1..] == [] {
        assert Sanitised(pat, body) == [pat.sanitise(body[0].text)];
      } else {
        LastLineGoesOn(pat, header, body[1..]);
        assert Sanitised(pat, body[1..]) != [] by { assert GoesOn(pat, body[1]); }
      }
    }
  }

  /** As python.go's expressions have it: an error line begins with a letter, and is no header. */
  ghost predicate ErrorLinesAreApart(pat: Patterns) {
    forall line :: pat.header(line) || Continues(pat, line) ==> !pat.ending(line)
  }

  /** Then a traceback that does not end in an error line has its header as its message. */
  lemma HeaderIsTheMessage(pat: Patterns, st: Traceback, header: Event, body: seq<Event>, end: Event)
    requires ErrorLinesAreApart(pat) && Begins(pat, st.open, header) && (forall e :: e in body ==> GoesOn(pat, e))
    requires end.key == header.key
    requires end.Line? ==> var line := pat.sanitise(end.text); !pat.header(line) && !Continues(pat, line) && !pat.ending(line)
    ensures var out := Alone(pat, st, [header] + body + [end]);
            out != [] && out[0].message == pat.sanitise(header.text)
  {
    LastLineGoesOn(pat, header, body);
    var out := TracebackIsOneEntry(pat, st, header, body, end);
    hide Alone, Sanitised, TellsOf, Continues, GoesOn;
  }

  /** Outside a traceback, every line but a header is an entry at once. */
  lemma OrdinaryLineIsAnEntry(pat: Patterns, st: Traceback, e: Event)
    requires e.Line? && !st.open && !Begins(pat, false, e)
    ensures HandleOne(pat, st, e) == (st, [Ordinary(pat, e)])
  {
    var none: seq<Entry> := [];
    assert none + [] + [Ordinary(pat, e)] == none + [Ordinary(pat, e)] == [Ordinary(pat, e)];
  }
}
