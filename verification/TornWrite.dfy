/**
 Reading a segment back (readSegment of internal/tracing/disk.go) after its last write was
 cut off anywhere. JSON is a parameter, and what is used of it is stated in `Faithful`: an
 encoded object holds no newline, decodes to what was encoded, with or without a newline
 after it, and no proper prefix of it decodes (section 4 of RFC 8259).
 */
module TornWrite {
  import opened Wrappers
  import opened Segments
  import opened SpanLoad
  import opened ByteStrings

  /** encoding/json on the two kinds of line. A header of another format, or a line without a span, is None. */
  datatype Codec = Codec(
    header: seq<Byte> -> Option<int>,
    span: seq<Byte> -> Option<Span>,
    writeHeader: int -> seq<Byte>,
    writeSpan: Span -> seq<Byte>)

  predicate IsSpace(b: Byte) {
    9 <= b <= 13 || b == 32
  }

  /** strings.TrimSpace leaves nothing of it. */
  predicate Blank(line: seq<Byte>) {
    forall i :: 0 <= i < |line| ==> IsSpace(line[i])
  }

  ghost predicate ObjectText(text: seq<Byte>) {
    text != [] && !IsSpace(text[0]) && NEWLINE !in text
  }

  ghost predicate FaithfulHeader(c: Codec, run: int) {
    var text := c.writeHeader(run);
    && ObjectText(text) && c.header(text) == c.header(text + [NEWLINE]) == Some(run)
    && forall k :: 0 <= k < |text| ==> c.header(text[..k]) == None
  }

  ghost predicate FaithfulSpan(c: Codec, sp: Span) {
    var text := c.writeSpan(sp);
    && ObjectText(text) && c.span(text) == c.span(text + [NEWLINE]) == Some(sp)
    && forall k :: 0 <= k < |text| ==> c.span(text[..k]) == None
  }

  // ---------------------------------------------------------------- readSegment

  /** The line ReadBytes returns: through the newline, or all there is. */
  function LineLength(data: seq<Byte>): (n: nat)
    ensures n <= |data| && (data != [] ==> n > 0)
  {
    if data == [] then 0 else if data[0] == NEWLINE then 1 else 1 + LineLength(data[1..])
  }

  /** The variables of readSegment's loop. */
  datatype Reader = Reader(first: bool, known: bool, run: Option<int>, spans: seq<Span>, skipped: nat)

  function TakeLine(c: Codec, r: Reader, line: seq<Byte>): Reader {
    if Blank(line) then r
    else if r.first then
      match c.header(line)
      case Some(run) => r.(first := false, known := true, run := Some(run))
      case None => r.(first := false)
    else if !r.known then r.(skipped := r.skipped + 1)
    else
      match c.span(line)
      case Some(sp) => r.(spans := r.spans + [sp])
      case None => r.(skipped := r.skipped + 1)
  }

  function TakeAll(c: Codec, r: Reader, data: seq<Byte>): Reader
    decreases |data|
  {
    if data == [] then r
    else TakeAll(c, TakeLine(c, r, data[..LineLength(data)]), data[LineLength(data)..])
  }

  const FRESH := Reader(true, false, None, [], 0)

  method ReadSegment(c: Codec, data: seq<Byte>) returns (spans: seq<Span>, run: Option<int>, skipped: nat)
    ensures var r := TakeAll(c, FRESH, data); spans == r.spans && run == r.run && skipped == r.skipped
  {
    var first, known := true, false;
    var rest := data;
    spans, run, skipped := [], None, 0;
    while rest != []
      invariant TakeAll(c, FRESH, data) == TakeAll(c, Reader(first, known, run, spans, skipped), rest)
      decreases |rest|
    {
      var n := LineLength(rest);
      var line := rest[..n];
      rest := rest[n..];
      if !Blank(line) {
        if first {
          var h := c.header(line);
          if h.Some? {
            known, run := true, h;
          }
        } else if !known {
          skipped := skipped + 1;
        } else {
          var l := c.span(line);
          if l.None? {
            skipped := skipped + 1;
          } else {
            spans := spans + [l.value];
          }
        }
        first := false;
      }
    }
  }

  // ---------------------------------------------------------------- what a segment's lines come to

  /** The lines that are not blank. */
  function Texts(data: seq<Byte>): seq<seq<Byte>>
    decreases |data|
  {
    if data == [] then []
    else
      var line := data[..LineLength(data)];
      (if Blank(line) then [] else [line]) + Texts(data[LineLength(data)..])
  }

  /** The spans of the lines that hold one. */
  function SpansOf(c: Codec, lines: seq<seq<Byte>>): seq<Span> {
    if lines == [] then []
    else (match c.span(lines[0]) case Some(sp) => [sp] case None => []) + SpansOf(c, lines[1..])
  }

  lemma {:induction false} LinesAreSkipped(c: Codec, r: Reader, data: seq<Byte>)
    requires !r.first && !r.known
    ensures TakeAll(c, r, data) == r.(skipped := r.skipped + |Texts(data)|)
    decreases |data|
  {
    if data != [] {
      var n := LineLength(data);
      FirstText(c, r, data);
      hide LineLength, Blank, Texts, TakeAll;
      LinesAreSkipped(c, TakeLine(c, r, data[..n]), data[n..]);
    }
  }

  lemma {:induction false} LinesAreRead(c: Codec, r: Reader, data: seq<Byte>)
    requires !r.first && r.known
    ensures var spans := SpansOf(c, Texts(data));
            && |spans| <= |Texts(data)|
            && TakeAll(c, r, data) == r.(spans := r.spans + spans, skipped := r.skipped + |Texts(data)| - |spans|)
    decreases |data|
  {
    hide *;
    NoText(c, r);
    if data == [] {
      assert r.spans + [] == r.spans;
    } else {
      var n := LineLength(data);
      var line, rest := data[..n], Texts(data[n..]);
      FirstText(c, r, data);
      TakesLine(c, r, line, rest);
      var next := TakeLine(c, r, line);
      LinesAreRead(c, next, data[n..]);
      if !Blank(line) {
        assert next.spans + SpansOf(c, rest) == r.spans + SpansOf(c, [line] + rest);
      }
    }
  }

  lemma NoText(c: Codec, r: Reader)
    ensures Texts([]) == [] && SpansOf(c, []) == [] && TakeAll(c, r, []) == r
  {
  }

  lemma FirstText(c: Codec, r: Reader, data: seq<Byte>)
    requires data != []
    ensures var n := LineLength(data);
            && 0 < n <= |data| && TakeAll(c, r, data) == TakeAll(c, TakeLine(c, r, data[..n]), data[n..])
            && Texts(data) == (if Blank(data[..n]) then Texts(data[n..]) else [data[..n]] + Texts(data[n..]))
  {
    hide LineLength, Blank, TakeLine;
    assert [] + Texts(data[LineLength(data)..]) == Texts(data[LineLength(data)..]);
  }

  /** A line under a header that can be read: a span more, or a line skipped. */
  lemma TakesLine(c: Codec, r: Reader, line: seq<Byte>, rest: seq<seq<Byte>>)
    requires !r.first && r.known
    ensures Blank(line) ==> TakeLine(c, r, line) == r
    ensures !Blank(line) ==>
              var next, spans := TakeLine(c, r, line), SpansOf(c, [line] + rest);
              || (next == r.(skipped := r.skipped + 1) && spans == SpansOf(c, rest))
              || exists sp :: next == r.(spans := r.spans + [sp]) && spans == [sp] + SpansOf(c, rest)
  {
    hide Blank;
    assert ([line] + rest)[1..] == rest && [] + SpansOf(c, rest) == SpansOf(c, rest);
  }

  /**
   Blank lines aside, the first line is the header. Without one that can be read nothing is,
   and every other line is skipped; with one, a line is a span or is skipped.
   */
  lemma {:induction false} HeaderDecides(c: Codec, data: seq<Byte>)
    ensures var r, texts := TakeAll(c, FRESH, data), Texts(data);
            if texts == [] then r.spans == [] && r.run == None && r.skipped == 0
            else if c.header(texts[0]).None? then r.spans == [] && r.run == None && r.skipped == |texts| - 1
            else r.run == c.header(texts[0]) && r.spans == SpansOf(c, texts[1..]) && r.skipped + |r.spans| == |texts| - 1
    decreases |data|
  {
    if data != [] {
      var n := LineLength(data);
      var line, rest := data[..n], data[n..];
      FirstText(c, FRESH, data);
      hide LineLength, Blank, Texts, TakeAll;
      if Blank(line) {
        HeaderDecides(c, rest);
      } else {
        var r := TakeLine(c, FRESH, line);
        assert ([line] + Texts(rest))[1..] == Texts(rest);
        if r.known {
          LinesAreRead(c, r, rest);
          assert [] + SpansOf(c, Texts(rest)) == SpansOf(c, Texts(rest));
        } else {
          LinesAreSkipped(c, r, rest);
        }
      }
    }
  }

  // ---------------------------------------------------------------- what roll and append write

  function Lines(c: Codec, sps: seq<Span>): seq<Byte> {
    if sps == [] then [] else c.writeSpan(sps[0]) + [NEWLINE] + Lines(c, sps[1..])
  }

  function File(c: Codec, run: int, sps: seq<Span>): seq<Byte> {
    c.writeHeader(run) + [NEWLINE] + Lines(c, sps)
  }

  /** The segment that the first `n` bytes of these spans' lines amount to, after its header. */
  function Cut(c: Codec, run: int, sps: seq<Span>, n: int): (f: Segment)
    ensures f.headed && f.run == run
  {
    if sps == [] || n <= 0 then Segment(0, run, true, [], NoTail, 0, 0)
    else
      var text := c.writeSpan(sps[0]);
      if n < |text| then Segment(0, run, true, [], Unreadable, 0, 0)
      else if n == |text| then Segment(0, run, true, [], WithoutNewline(sps[0]), 0, 0)
      else
        var rest := Cut(c, run, sps[1..], n - |text| - 1);
        rest.(spans := [sps[0]] + rest.spans)
  }

  lemma {:induction false} LineLengthIs(text: seq<Byte>, rest: seq<Byte>)
    requires NEWLINE !in text
    ensures LineLength(text + [NEWLINE] + rest) == |text| + 1
    ensures LineLength(text) == |text|
  {
    if text == [] {
      assert text + [NEWLINE] + rest == [NEWLINE] + rest;
    } else {
      assert (text + [NEWLINE] + rest)[1..] == text[1..] + [NEWLINE] + rest;
      LineLengthIs(text[1..], rest);
    }
  }

  /** A whole line, newline and all, is taken on its own. */
  lemma OneLine(c: Codec, r: Reader, text: seq<Byte>, rest: seq<Byte>)
    requires NEWLINE !in text
    ensures TakeAll(c, r, text + [NEWLINE] + rest) == TakeAll(c, TakeLine(c, r, text + [NEWLINE]), rest)
  {
    var data := text + [NEWLINE] + rest;
    LineLengthIs(text, rest);
    assert data[..|text| + 1] == text + [NEWLINE] && data[|text| + 1..] == rest;
  }

  /** So is a last line without its newline. */
  lemma LastLine(c: Codec, r: Reader, text: seq<Byte>)
    requires NEWLINE !in text && text != []
    ensures TakeAll(c, r, text) == TakeLine(c, r, text)
  {
    LineLengthIs(text, []);
    assert text[..|text|] == text && text[|text|..] == [];
  }

  /** A span's text is taken, its newline read or not; a part of it is skipped. */
  lemma TakesSpan(c: Codec, r: Reader, sp: Span, k: nat)
    requires FaithfulSpan(c, sp) && !r.first && r.known && 0 < k <= |c.writeSpan(sp)|
    ensures var text := c.writeSpan(sp);
            && TakeLine(c, r, text + [NEWLINE]) == r.(spans := r.spans + [sp])
            && TakeLine(c, r, text[..k]) == (if k == |text| then r.(spans := r.spans + [sp]) else r.(skipped := r.skipped + 1))
            && NEWLINE !in text && NEWLINE !in text[..k]
  {
    var text := c.writeSpan(sp);
    assert (text + [NEWLINE])[0] == text[0] && text[..k][0] == text[0] && text[..|text|] == text;
  }

  lemma CutFirst(c: Codec, run: int, sps: seq<Span>, n: nat)
    requires sps != [] && 0 < n
    ensures var text, f := c.writeSpan(sps[0]), Cut(c, run, sps, n);
            if n < |text| then Readable(f) == [] && BadLines(f) == 1
            else if n == |text| then Readable(f) == [sps[0]] && BadLines(f) == 0
            else var rest := Cut(c, run, sps[1..], n - |text| - 1);
              Readable(f) == [sps[0]] + Readable(rest) && BadLines(f) == BadLines(rest)
  {
  }

  lemma SliceLine(text: seq<Byte>, rest: seq<Byte>, n: nat)
    requires n <= |text + [NEWLINE] + rest|
    ensures n <= |text| ==> (text + [NEWLINE] + rest)[..n] == text[..n]
    ensures n > |text| ==> (text + [NEWLINE] + rest)[..n] == text + [NEWLINE] + rest[..n - |text| - 1]
  {
  }

  lemma NothingRead(c: Codec, r: Reader, run: int, sps: seq<Span>)
    ensures TakeAll(c, r, Lines(c, sps)[..0]) == r && Readable(Cut(c, run, sps, 0)) == []
      && BadLines(Cut(c, run, sps, 0)) == 0
    ensures sps == [] ==> Lines(c, sps) == []
  {
  }

  lemma FirstLine(c: Codec, sps: seq<Span>)
    requires sps != []
    ensures Lines(c, sps) == c.writeSpan(sps[0]) + [NEWLINE] + Lines(c, sps[1..])
  {
  }

  lemma TextIsSomething(c: Codec, sp: Span)
    requires FaithfulSpan(c, sp)
    ensures c.writeSpan(sp) != []
  {
  }

  /** What reading makes of a segment cut as `f`. */
  function Read(r: Reader, f: Segment): Reader {
    r.(spans := r.spans + Readable(f), skipped := r.skipped + BadLines(f))
  }

  lemma ReadIs(r: Reader, f: Segment, sp: Span, g: Segment)
    ensures Readable(f) == [] && BadLines(f) == 0 ==> Read(r, f) == r
    ensures Readable(f) == [] && BadLines(f) == 1 ==> Read(r, f) == r.(skipped := r.skipped + 1)
    ensures Readable(f) == [sp] && BadLines(f) == 0 ==> Read(r, f) == r.(spans := r.spans + [sp])
    ensures Readable(f) == [sp] + Readable(g) && BadLines(f) == BadLines(g) ==>
              Read(r, f) == Read(r.(spans := r.spans + [sp]), g)
  {
  }

  lemma {:induction false} CutLinesRead(c: Codec, r: Reader, run: int, sps: seq<Span>, n: nat)
    requires (forall sp :: sp in sps ==> FaithfulSpan(c, sp)) && n <= |Lines(c, sps)|
    requires !r.first && r.known
    ensures TakeAll(c, r, Lines(c, sps)[..n]) == Read(r, Cut(c, run, sps, n))
    decreases |sps|
  {
    hide *;
    NothingRead(c, r, run, sps);
    if n == 0 {
      ReadIs(r, Cut(c, run, sps, 0), Span("", 0, 0, 0), Cut(c, run, sps, 0));
      return;
    }
    var sp, text, rest := sps[0], c.writeSpan(sps[0]), Lines(c, sps[1..]);
    var f, m := Cut(c, run, sps, n), n - |text| - 1;
    TextIsSomething(c, sp);
    FirstLine(c, sps);
    SliceLine(text, rest, n);
    CutFirst(c, run, sps, n);
    if n <= |text| {
      TakesSpan(c, r, sp, n);
      LastLine(c, r, text[..n]);
      ReadIs(r, f, sp, f);
    } else {
      TakesSpan(c, r, sp, |text|);
      OneLine(c, r, text, rest[..m]);
      var next := r.(spans := r.spans + [sp]);
      CutLinesRead(c, next, run, sps[1..], m);
      ReadIs(r, f, sp, Cut(c, run, sps[1..], m));
    }
  }

  /** What a cut leaves readable is the first spans written, in order. */
  lemma {:induction false} CutIsPrefix(c: Codec, run: int, sps: seq<Span>, n: int)
    ensures Readable(Cut(c, run, sps, n)) <= sps && BadLines(Cut(c, run, sps, n)) <= 1
  {
    if sps != [] && n > |c.writeSpan(sps[0])| {
      var rest := Cut(c, run, sps[1..], n - |c.writeSpan(sps[0])| - 1);
      CutIsPrefix(c, run, sps[1..], n - |c.writeSpan(sps[0])| - 1);
      assert Readable(Cut(c, run, sps, n)) == [sps[0]] + Readable(rest);
      assert sps == [sps[0]] + sps[1..];
    }
  }

  /**
   A segment cut off at any byte reads back as the spans whose text was written whole, in
   order, and skips one line exactly when the cut falls within a span's text.
   */
  lemma TornSegmentReadsPrefix(c: Codec, run: int, sps: seq<Span>, n: nat)
    requires FaithfulHeader(c, run) && (forall sp :: sp in sps ==> FaithfulSpan(c, sp)) && n <= |File(c, run, sps)|
    ensures var r := TakeAll(c, FRESH, File(c, run, sps)[..n]);
            var h := |c.writeHeader(run)|;
            && r.spans == Readable(Cut(c, run, sps, n - h - 1)) <= sps
            && r.skipped == BadLines(Cut(c, run, sps, n - h - 1)) <= 1
            && r.run == if n < h then None else Some(run)
  {
    hide *;
    var text, lines := c.writeHeader(run), Lines(c, sps);
    CutIsPrefix(c, run, sps, n - |text| - 1);
    FileIs(c, run, sps);
    HeaderTaken(c, run, n);
    if n <= |text| {
      SliceLine(text, lines, n);
      NoneCut(c, run, sps, n - |text| - 1);
      if n == 0 {
        NothingRead(c, FRESH, run, sps);
        NoText(c, FRESH);
      } else {
        LastLine(c, FRESH, text[..n]);
      }
    } else {
      var m := n - |text| - 1;
      SliceLine(text, lines, n);
      OneLine(c, FRESH, text, lines[..m]);
      var r := TakeLine(c, FRESH, text + [NEWLINE]);
      CutLinesRead(c, r, run, sps, m);
      ReadFrom(r, Cut(c, run, sps, m));
    }
  }

  lemma FileIs(c: Codec, run: int, sps: seq<Span>)
    ensures File(c, run, sps) == c.writeHeader(run) + [NEWLINE] + Lines(c, sps)
  {
  }

  lemma NoneCut(c: Codec, run: int, sps: seq<Span>, n: int)
    requires n <= 0
    ensures Readable(Cut(c, run, sps, n)) == [] && BadLines(Cut(c, run, sps, n)) == 0
  {
  }

  /** The header is taken, its newline read or not; a part of it is not. */
  lemma HeaderTaken(c: Codec, run: int, n: nat)
    requires FaithfulHeader(c, run)
    ensures var text := c.writeHeader(run);
            && text != [] && NEWLINE !in text && FRESH.spans == [] && FRESH.skipped == 0 && FRESH.run == None
            && TakeLine(c, FRESH, text + [NEWLINE]) == FRESH.(first := false, known := true, run := Some(run))
            && (0 < n <= |text| ==>
                  && NEWLINE !in text[..n]
                  && TakeLine(c, FRESH, text[..n]) ==
                     if n == |text| then FRESH.(first := false, known := true, run := Some(run)) else FRESH.(first := false))
  {
    var text := c.writeHeader(run);
    assert (text + [NEWLINE])[0] == text[0];
    if 0 < n <= |text| {
      assert text[..n][0] == text[0] && text[..|text|] == text;
    }
  }

  lemma ReadFrom(r: Reader, f: Segment)
    requires r.spans == [] && r.skipped == 0
    ensures Read(r, f).spans == Readable(f) && Read(r, f).skipped == BadLines(f) && Read(r, f).run == r.run
  {
  }

  lemma {:induction false} CutOfAll(c: Codec, run: int, sps: seq<Span>)
    ensures Readable(Cut(c, run, sps, |Lines(c, sps)|)) == sps && Cut(c, run, sps, |Lines(c, sps)|).tail == NoTail
  {
    if sps != [] {
      CutOfAll(c, run, sps[1..]);
      assert sps == [sps[0]] + sps[1..];
    }
  }

  /** Nothing is lost of a segment written whole. */
  lemma {:induction false} WholeSegmentReadsAll(c: Codec, run: int, sps: seq<Span>)
    requires FaithfulHeader(c, run) && forall sp :: sp in sps ==> FaithfulSpan(c, sp)
    ensures var r := TakeAll(c, FRESH, File(c, run, sps)); r.spans == sps && r.run == Some(run) && r.skipped == 0
  {
    CutOfAll(c, run, sps);
    TornSegmentReadsPrefix(c, run, sps, |File(c, run, sps)|);
    assert File(c, run, sps)[..|File(c, run, sps)|] == File(c, run, sps);
  }
}
