/**
 Cutting streams into lines: readLine and captureStream of internal/process/wrapper.go, and
 lineWriter of internal/docker/streamer.go. `Cut` marks a line that carries the note that
 it was truncated.
 */
module LineFraming {
  import opened ByteStrings

  const CR: Byte := 13

  datatype Out = Line(text: Bytes) | Cut(text: Bytes)

  /** Where the first newline is, or the end. */
  function NextNewline(b: Bytes): (i: nat)
    ensures i <= |b| && NEWLINE !in b[..i] && (i < |b| ==> b[i] == NEWLINE)
  {
    if b == [] || b[0] == NEWLINE then 0
    else
      assert b[..1 + NextNewline(b[1..])] == [b[0]] + b[1..][..NextNewline(b[1..])];
      1 + NextNewline(b[1..])
  }

  lemma NewlineAt(b: Bytes, i: nat)
    requires i <= |b| && NEWLINE !in b[..i] && (i < |b| ==> b[i] == NEWLINE)
    ensures NextNewline(b) == i
  {
  }

  // ---------------------------------------------------------------- readLine

  predicate IsLineEnd(b: Byte) { b == CR || b == NEWLINE }

  /** strings.TrimRight(s, "\r\n"): what is left ends in neither, and only they are gone. */
  function TrimEnd(s: Bytes): (t: Bytes)
    ensures |t| <= |s| && t == s[..|t|]
    ensures t == [] || (t[|t| - 1] != CR && t[|t| - 1] != NEWLINE)
    ensures forall i :: |t| <= i < |s| ==> s[i] == CR || s[i] == NEWLINE
  {
    if s != [] && (s[|s| - 1] == CR || s[|s| - 1] == NEWLINE) then TrimEnd(s[..|s| - 1]) else s
  }

  /** The first raw line of a stream: through its first newline, or all there is. */
  function RawLine(b: Bytes): (n: nat)
    ensures n <= |b| && (b != [] ==> n > 0)
    ensures (forall i :: 0 <= i < n - 1 ==> b[i] != NEWLINE) && (n < |b| ==> b[n - 1] == NEWLINE)
  {
    if NextNewline(b) < |b| then NextNewline(b) + 1 else |b|
  }

  function Least(a: nat, b: nat): nat {
    if a < b then a else b
  }

  datatype ReadError = NoError | BufferFull | EndOfFile

  /** A bufio.Reader over a stream: its buffer's size, and what is still to be read. */
  class Reader {
    const size: nat
    var rest: Bytes

    ghost predicate Valid() { size > 0 }

    constructor (size: nat, stream: Bytes)
      requires size > 0
      ensures Valid() && this.size == size && rest == stream
    {
      this.size, this.rest := size, stream;
    }

    /** ReadSlice('\n'): through the newline, or a full buffer, or the end of the stream. */
    method ReadSlice() returns (chunk: Bytes, err: ReadError)
      requires Valid()
      modifies this
      ensures chunk + rest == old(rest) && |chunk| <= size
      ensures err == if RawLine(old(rest)) <= size && NextNewline(old(rest)) < |old(rest)| then NoError
                     else if |old(rest)| >= size then BufferFull else EndOfFile
      ensures |chunk| == if err == BufferFull then size else RawLine(old(rest))
    {
      var n := RawLine(rest);
      if n <= size && NextNewline(rest) < |rest| {
        err := NoError;
      } else if |rest| >= size {
        n, err := size, BufferFull;
      } else {
        err := EndOfFile;
      }
      chunk, rest := rest[..n], rest[n..];
    }
  }

  /** A full buffer without a newline is part of the raw line. */
  lemma PartOfLine(b: Bytes, n: nat)
    requires n <= |b| && (n < RawLine(b) || NextNewline(b) == |b|)
    ensures NextNewline(b) >= n && RawLine(b) == n + RawLine(b[n..])
      && (NextNewline(b) < |b| <==> NextNewline(b[n..]) < |b[n..]|)
  {
  }

  /** readLine: one raw line is consumed, whatever the size of the buffer; at most `maxBytes` of it are kept. */
  method ReadLine(reader: Reader, maxBytes: nat) returns (line: Bytes, truncated: bool, err: ReadError)
    requires reader.Valid()
    modifies reader
    ensures var raw := old(reader.rest)[..RawLine(old(reader.rest))];
            && reader.rest == old(reader.rest)[|raw|..]
            && line == TrimEnd(raw[..Least(maxBytes, |raw|)])
            && truncated == (|raw| > maxBytes)
            && err == if NextNewline(old(reader.rest)) < |old(reader.rest)| then NoError else EndOfFile
    ensures Trimmed(old(reader.rest), Least(maxBytes, RawLine(old(reader.rest))), line)
  {
    hide RawLine, NextNewline, TrimEnd, Least, Trimmed;
    var buf: Bytes := [];
    truncated := false;
    ghost var all, done: Bytes := reader.rest, [];
    KeptNothing(maxBytes);
    assert done + reader.rest == all;
    while true
      invariant all == done + reader.rest
      invariant RawLine(all) == |done| + RawLine(reader.rest)
      invariant NextNewline(all) < |all| <==> NextNewline(reader.rest) < |reader.rest|
      invariant Kept(done, maxBytes, buf, truncated)
      decreases |reader.rest|
    {
      ghost var before, was := reader.rest, done;
      var chunk, readErr := reader.ReadSlice();
      done := done + chunk;
      buf, truncated := KeepSome(was, buf, truncated, chunk, maxBytes);
      Regroup(was, chunk, reader.rest);
      if readErr == BufferFull {
        PartOfLine(before, |chunk|);
        assert before[|chunk|..] == reader.rest;
        continue;
      }
      Halves(all, done, reader.rest);
      LineIs(all, maxBytes);
      return TrimEnd(buf), truncated, readErr;
    }
  }

  /** A line begins the stream, without a newline in it or a CR at its end, and of the bytes `kept` only line ends are left off. */
  ghost predicate Trimmed(b: Bytes, kept: nat, line: Bytes) {
    && line <= b && |line| <= kept <= |b| && NEWLINE !in line && (line != [] ==> line[|line| - 1] != CR)
    && forall i :: |line| <= i < kept ==> IsLineEnd(b[i])
  }

  lemma LineIs(b: Bytes, maxBytes: nat)
    ensures Trimmed(b, Least(maxBytes, RawLine(b)), TrimEnd(b[..RawLine(b)][..Least(maxBytes, |b[..RawLine(b)]|)]))
  {
    var kept := Least(maxBytes, RawLine(b));
    var line := TrimEnd(b[..RawLine(b)][..kept]);
    assert b[..RawLine(b)][..kept] == b[..kept] && line == b[..|line|];
    assert forall i :: 0 <= i < |line| ==> line[i] == b[i];
  }

  /** What is kept of the part of a line read so far. */
  ghost predicate Kept(done: Bytes, maxBytes: nat, buf: Bytes, truncated: bool) {
    buf == done[..Least(maxBytes, |done|)] && truncated == (|done| > maxBytes)
  }

  lemma KeptNothing(maxBytes: nat)
    ensures Kept([], maxBytes, [], false)
  {
  }

  lemma Regroup(a: Bytes, b: Bytes, c: Bytes)
    ensures a + (b + c) == (a + b) + c
  {
  }

  lemma Halves(all: Bytes, done: Bytes, rest: Bytes)
    requires all == done + rest
    ensures all[..|done|] == done && all[|done|..] == rest
  {
  }

  method KeepSome(ghost done: Bytes, kept: Bytes, cut: bool, chunk: Bytes, maxBytes: nat) returns (buf: Bytes,
                  truncated: bool)
    requires Kept(done, maxBytes, kept, cut)
    ensures Kept(done + chunk, maxBytes, buf, truncated)
  {
    buf, truncated := kept, cut;
    if |buf| < maxBytes {
      var room := maxBytes - |buf|;
      if |chunk| <= room {
        buf := buf + chunk;
      } else {
        buf := buf + chunk[..room];
        truncated := true;
      }
    } else if |chunk| > 0 {
      truncated := true;
    }
  }

  /** What capture passes on of a stream: a line for each raw line, but for those left empty. */
  function Captured(stream: Bytes, maxBytes: nat): seq<Out>
    decreases |stream|
  {
    if stream == [] then []
    else
      First(stream, maxBytes) + Captured(stream[RawLine(stream)..], maxBytes)
  }

  /** captureStream: every line is found, however long the one before it was and whatever the buffer. */
  method CaptureStream(reader: Reader, maxBytes: nat) returns (out: seq<Out>)
    requires reader.Valid()
    modifies reader
    ensures out == Captured(old(reader.rest), maxBytes) && reader.rest == []
  {
    hide *;
    out := [];
    assert [] + Captured(reader.rest, maxBytes) == Captured(reader.rest, maxBytes);
    while true
      invariant Captured(old(reader.rest), maxBytes) == out + Captured(reader.rest, maxBytes)
      decreases |reader.rest|
    {
      ghost var before, was := reader.rest, out;
      Shorter(before);
      var line, truncated, err := ReadLine(reader, maxBytes);
      FirstIs(before, maxBytes);
      OneCaptured(before, maxBytes, was);
      if truncated {
        out := out + [Cut(line)];
      } else if line != [] {
        out := out + [Line(line)];
      } else {
        assert out + [] == out;
      }
      if err != NoError {
        NothingCaptured(maxBytes);
        assert out + [] == out;
        return;
      }
    }
  }

  lemma Shorter(stream: Bytes)
    ensures NextNewline(stream) < |stream| ==> RawLine(stream) > 0
    ensures NextNewline(stream) == |stream| ==> RawLine(stream) == |stream| && stream[|stream|..] == []
  {
  }

  lemma FirstIs(stream: Bytes, maxBytes: nat)
    ensures var raw := stream[..RawLine(stream)];
            var text := TrimEnd(raw[..Least(maxBytes, |raw|)]);
            First(stream, maxBytes) == if |raw| > maxBytes then [Cut(text)] else if text != [] then [Line(text)] else []
  {
  }

  lemma NothingCaptured(maxBytes: nat)
    ensures Captured([], maxBytes) == []
  {
  }

  /** What capture makes of the first raw line. */
  function First(stream: Bytes, maxBytes: nat): seq<Out> {
    var raw := stream[..RawLine(stream)];
    var text := TrimEnd(raw[..Least(maxBytes, |raw|)]);
    if |raw| > maxBytes then [Cut(text)] else if text != [] then [Line(text)] else []
  }

  /** What capture passes on: no line end in it but inside, and nothing empty unless it was truncated. */
  predicate CleanLine(o: Out) {
    NEWLINE !in o.text && (o.text != [] ==> o.text[|o.text| - 1] != CR) && (o.Line? ==> o.text != [])
  }

  lemma {:induction false} CapturedAreClean(stream: Bytes, maxBytes: nat)
    ensures forall i :: 0 <= i < |Captured(stream, maxBytes)| ==>
              CleanLine(Captured(stream, maxBytes)[i]) && |Captured(stream, maxBytes)[i].text| <= maxBytes
    decreases |stream|
  {
    if stream != [] {
      var rest := Captured(stream[RawLine(stream)..], maxBytes);
      CapturedAreClean(stream[RawLine(stream)..], maxBytes);
      LineIs(stream, maxBytes);
      FirstIs(stream, maxBytes);
      assert Least(maxBytes, RawLine(stream)) <= maxBytes;
      hide First, RawLine, TrimEnd, Least;
      assert forall o :: o in First(stream, maxBytes) ==> CleanLine(o) && |o.text| <= maxBytes;
    }
  }

  /** A stream without its line ends. */
  function Plain(b: Bytes): Bytes {
    if b == [] then [] else (if IsLineEnd(b[0]) then [] else [b[0]]) + Plain(b[1..])
  }

  function Texts(out: seq<Out>): Bytes {
    if out == [] then [] else out[0].text + Texts(out[1..])
  }

  lemma {:induction false} PlainJoin(a: Bytes, b: Bytes)
    ensures Plain(a + b) == Plain(a) + Plain(b)
  {
    if a == [] {
      assert a + b == b;
    } else {
      assert (a + b)[1..] == a[1..] + b;
      PlainJoin(a[1..], b);
    }
  }

  lemma {:induction false} PlainNone(b: Bytes)
    requires forall i :: 0 <= i < |b| ==> IsLineEnd(b[i])
    ensures Plain(b) == []
  {
    if b != [] {
      PlainNone(b[1..]);
    }
  }

  ghost predicate AllLines(out: seq<Out>) {
    forall o :: o in out ==> o.Line?
  }

  lemma {:induction false} TextsJoin(a: seq<Out>, b: seq<Out>)
    ensures Texts(a + b) == Texts(a) + Texts(b)
  {
    if a == [] {
      assert a + b == b;
    } else {
      assert (a + b)[1..] == a[1..] + b;
      TextsJoin(a[1..], b);
    }
  }

  lemma FirstIsPlain(stream: Bytes, maxBytes: nat)
    requires AllLines(First(stream, maxBytes))
    ensures Plain(Texts(First(stream, maxBytes))) == Plain(stream[..RawLine(stream)])
  {
    FirstIs(stream, maxBytes);
    var raw := stream[..RawLine(stream)];
    var cut := Cut(TrimEnd(raw[..Least(maxBytes, |raw|)]));
    assert |raw| <= maxBytes || cut in First(stream, maxBytes);
    hide First, RawLine;
    assert raw[..|raw|] == raw;
    var text := TrimEnd(raw);
    assert raw == text + raw[|text|..];
    PlainNone(raw[|text|..]);
    hide TrimEnd;
    PlainJoin(text, raw[|text|..]);
    if text != [] {
      assert [Line(text)][1..] == [] && text + [] == text;
    }
  }

  lemma AllLinesParts(a: seq<Out>, b: seq<Out>)
    requires AllLines(a + b)
    ensures AllLines(a) && AllLines(b)
  {
    assert forall o :: o in a || o in b ==> o in a + b;
  }

  lemma CapturedIs(stream: Bytes, maxBytes: nat)
    requires stream != []
    ensures 0 < RawLine(stream) <= |stream|
    ensures Captured(stream, maxBytes) == First(stream, maxBytes) + Captured(stream[RawLine(stream)..], maxBytes)
  {
  }

  lemma NothingIsPlain()
    ensures Plain(Texts([])) == Plain([])
  {
  }

  /** Where no raw line is truncated, capture loses nothing but line ends. */
  lemma {:induction false} CaptureLosesOnlyLineEnds(stream: Bytes, maxBytes: nat)
    requires AllLines(Captured(stream, maxBytes))
    ensures Plain(Texts(Captured(stream, maxBytes))) == Plain(stream)
    decreases |stream|
  {
    hide *;
    if stream == [] {
      NothingCaptured(maxBytes);
      NothingIsPlain();
    } else {
      var n := RawLine(stream);
      CapturedIs(stream, maxBytes);
      var first, later := First(stream, maxBytes), Captured(stream[n..], maxBytes);
      AllLinesParts(first, later);
      CaptureLosesOnlyLineEnds(stream[n..], maxBytes);
      FirstIsPlain(stream, maxBytes);
      TextsJoin(first, later);
      PlainJoin(Texts(first), Texts(later));
      assert stream == stream[..n] + stream[n..];
      PlainJoin(stream[..n], stream[n..]);
    }
  }

  lemma OneCaptured(stream: Bytes, maxBytes: nat, was: seq<Out>)
    ensures was + Captured(stream, maxBytes) == was + First(stream, maxBytes) + Captured(stream[RawLine(stream)..], maxBytes)
  {
  }

  // ---------------------------------------------------------------- lineWriter

  /** bytes.TrimSuffix(s, "\r") */
  function TrimCR(s: Bytes): Bytes {
    if s != [] && s[|s| - 1] == CR then s[..|s| - 1] else s
  }

  /** The lines of a stream that have ended. */
  function Ended(b: Bytes): seq<Out>
    decreases |b|
  {
    var i := NextNewline(b);
    if i == |b| then [] else [Line(TrimCR(b[..i]))] + Ended(b[i + 1..])
  }

  /** What follows the last newline. */
  function Remainder(b: Bytes): Bytes
    decreases |b|
  {
    var i := NextNewline(b);
    if i == |b| then b else Remainder(b[i + 1..])
  }

  /** A writer's buffer and what it has emitted. */
  datatype Writer = Writer(buf: Bytes, out: seq<Out>)

  /** What one Write does: lines that have ended go, and a remainder over the cap is cut. */
  function Written(w: Writer, p: Bytes, cap: nat): Writer {
    var whole := w.buf + p;
    var left := Remainder(whole);
    if |left| > cap then Writer([], w.out + Ended(whole) + [Cut(left[..cap])])
    else Writer(left, w.out + Ended(whole))
  }

  function Flushed(w: Writer): Writer {
    if w.buf != [] then Writer([], w.out + [Line(w.buf)]) else w
  }

  class LineWriter {
    const cap: nat
    var buf: Bytes
    var emitted: seq<Out>

    function State(): Writer
      reads this
    {
      Writer(buf, emitted)
    }

    constructor (cap: nat)
      ensures State() == Writer([], []) && this.cap == cap
    {
      this.cap, buf, emitted := cap, [], [];
    }

    method Write(p: Bytes)
      modifies this
      ensures State() == Written(old(State()), p, cap)
    {
      hide TrimCR, NextNewline, Ended, Remainder;
      buf := buf + p;
      ghost var whole := buf;
      while true
        invariant emitted + Ended(buf) == old(emitted) + Ended(whole) && Remainder(buf) == Remainder(whole)
        decreases |buf|
      {
        var i := NextNewline(buf);
        FirstLine(buf, cap);
        if i == |buf| {
          break;
        }
        Regrouped(emitted, [Line(TrimCR(buf[..i]))], Ended(buf[i + 1..]));
        emitted := emitted + [Line(TrimCR(buf[..i]))];
        buf := buf[i + 1..];
      }
      assert emitted + [] == emitted;
      if |buf| > cap {
        emitted := emitted + [Cut(buf[..cap])];
        buf := [];
      }
    }

    method Flush()
      modifies this
      ensures State() == Flushed(old(State()))
    {
      if |buf| > 0 {
        emitted := emitted + [Line(buf)];
        buf := [];
      }
    }
  }

  /** A stream written in pieces. */
  function Fed(w: Writer, pieces: seq<Bytes>, cap: nat): Writer
    decreases |pieces|
  {
    if pieces == [] then w else Fed(Written(w, pieces[0], cap), pieces[1..], cap)
  }

  function Joined(pieces: seq<Bytes>): Bytes {
    if pieces == [] then [] else pieces[0] + Joined(pieces[1..])
  }

  /** All that is emitted by the time the stream has ended. */
  function Output(pieces: seq<Bytes>, cap: nat): seq<Out> {
    Flushed(Fed(Writer([], []), pieces, cap)).out
  }

  /** Every line that ends fits the cap, and what is left is at most a byte over it. */
  ghost predicate Steady(b: Bytes, cap: nat)
    decreases |b|
  {
    var i := NextNewline(b);
    if i == |b| then |b| <= cap + 1 else i <= cap && Steady(b[i + 1..], cap)
  }

  lemma NewlineJoins(a: Bytes, b: Bytes)
    ensures NextNewline(a + b) == if NextNewline(a) < |a| then NextNewline(a) else |a| + NextNewline(b)
    ensures NextNewline(a) < |a| ==>
              var i := NextNewline(a); (a + b)[..i] == a[..i] && (a + b)[i + 1..] == a[i + 1..] + b
  {
    var i := NextNewline(a);
    assert forall j :: 0 <= j < i ==> (a + b)[j] == a[..i][j];
    if i < |a| {
      NewlineAt(a + b, i);
    } else {
      var k := NextNewline(b);
      assert forall j :: 0 <= j < k ==> (a + b)[i + j] == b[..k][j];
      assert forall j :: i <= j < i + k ==> (a + b)[j] == b[..k][j - i];
      NewlineAt(a + b, i + k);
    }
  }

  lemma FirstLine(b: Bytes, cap: nat)
    ensures var i := NextNewline(b);
            if i < |b| then
              && Ended(b) == [Line(TrimCR(b[..i]))] + Ended(b[i + 1..]) && Remainder(b) == Remainder(b[i + 1..])
              && (Steady(b, cap) <==> i <= cap && Steady(b[i + 1..], cap))
            else Ended(b) == [] && Remainder(b) == b && (Steady(b, cap) <==> |b| <= cap + 1)
  {
  }

  lemma {:induction false} LinesJoin(a: Bytes, b: Bytes, cap: nat)
    ensures Ended(a + b) == Ended(a) + Ended(Remainder(a) + b)
    ensures Remainder(a + b) == Remainder(Remainder(a) + b)
    ensures Steady(a + b, cap) ==> Steady(Remainder(a) + b, cap)
    decreases |a|
  {
    hide *;
    var i := NextNewline(a);
    NewlineJoins(a, b);
    FirstLine(a, cap);
    if i < |a| {
      FirstLine(a + b, cap);
      LinesJoin(a[i + 1..], b, cap);
      Regrouped([Line(TrimCR(a[..i]))], Ended(a[i + 1..]), Ended(Remainder(a) + b));
    } else {
      assert [] + Ended(a + b) == Ended(a + b);
    }
  }

  lemma {:induction false} RemainderHasNoNewline(a: Bytes)
    ensures NextNewline(Remainder(a)) == |Remainder(a)|
    decreases |a|
  {
    if NextNewline(a) < |a| {
      RemainderHasNoNewline(a[NextNewline(a) + 1..]);
    }
  }

  /** If what is held is over the cap in a steady stream, the stream has ended. */
  lemma OverCapIsEnd(held: Bytes, rest: Bytes, cap: nat)
    requires NextNewline(held) == |held| && |held| > cap && Steady(held + rest, cap)
    ensures rest == [] && |held| == cap + 1
  {
  }

  lemma {:induction false} NothingFed(w: Writer, pieces: seq<Bytes>, cap: nat)
    requires Joined(pieces) == [] && w.buf == []
    ensures Fed(w, pieces, cap) == w
  {
    if pieces != [] {
      assert w.buf + pieces[0] == [];
      assert w.out + Ended([]) == w.out;
      NothingFed(w, pieces[1..], cap);
    }
  }

  /** What a steady stream comes to, told without its pieces. */
  function Whole(out: seq<Out>, data: Bytes, cap: nat): Writer {
    var left := Remainder(data);
    if |left| > cap then Writer([], out + Ended(data) + [Cut(left[..cap])]) else Writer(left, out + Ended(data))
  }

  lemma {:induction false} SteadyIgnoresPieces(w: Writer, pieces: seq<Bytes>, cap: nat)
    requires NextNewline(w.buf) == |w.buf| <= cap && Steady(w.buf + Joined(pieces), cap)
    ensures Fed(w, pieces, cap) == Whole(w.out, w.buf + Joined(pieces), cap)
    decreases |pieces|
  {
    if pieces == [] {
      assert w.buf + [] == w.buf && w.out + [] == w.out;
      return;
    }
    var whole, rest := w.buf + pieces[0], Joined(pieces[1..]);
    assert w.buf + Joined(pieces) == whole + rest;
    LinesJoin(whole, rest, cap);
    RemainderHasNoNewline(whole);
    hide NextNewline, Ended, Remainder, Steady, Joined;
    var left := Remainder(whole);
    var next := Written(w, pieces[0], cap);
    if |left| > cap {
      OverCapIsEnd(left, rest, cap);
      assert whole + rest == whole;
      NothingFed(next, pieces[1..], cap);
    } else {
      SteadyIgnoresPieces(next, pieces[1..], cap);
      Regrouped(w.out, Ended(whole), Ended(left + rest));
    }
  }

  lemma Regrouped(a: seq<Out>, b: seq<Out>, c: seq<Out>)
    ensures a + (b + c) == a + b + c
  {
  }

  /** A writer that had emitted `x` before. */
  function Prefixed(x: seq<Out>, w: Writer): Writer {
    Writer(w.buf, x + w.out)
  }

  lemma {:induction false} PrefixStays(x: seq<Out>, w: Writer, pieces: seq<Bytes>, cap: nat)
    ensures Flushed(Fed(Prefixed(x, w), pieces, cap)).out == x + Flushed(Fed(w, pieces, cap)).out
    decreases |pieces|
  {
    if pieces != [] {
      hide Ended, Remainder;
      assert Written(Prefixed(x, w), pieces[0], cap) == Prefixed(x, Written(w, pieces[0], cap));
      PrefixStays(x, Written(w, pieces[0], cap), pieces[1..], cap);
    }
  }

  /** A first line that ends is emitted, and the rest is as if it came alone. */
  lemma FirstLineOut(p: Bytes, more: seq<Bytes>, cap: nat)
    requires NextNewline(p) < |p|
    ensures Output([p] + more, cap) == [Line(TrimCR(p[..NextNewline(p)]))] + Output([p[NextNewline(p) + 1..]] + more, cap)
  {
    var i := NextNewline(p);
    FirstLine(p, cap);
    hide *;
    AfterFirst(p, [Line(TrimCR(p[..i]))], p[i + 1..], more, cap);
  }

  lemma AfterFirst(p: Bytes, x: seq<Out>, rest: Bytes, more: seq<Bytes>, cap: nat)
    requires Ended(p) == x + Ended(rest) && Remainder(p) == Remainder(rest)
    ensures Output([p] + more, cap) == x + Output([rest] + more, cap)
  {
    hide *;
    var w := Writer([], []);
    WrittenAlone(p, cap);
    WrittenAlone(rest, cap);
    PrefixedIs(x, Written(w, rest, cap));
    if |Remainder(rest)| > cap {
      Regrouped(x, Ended(rest), [Cut(Remainder(rest)[..cap])]);
    }
    assert Written(w, p, cap) == Prefixed(x, Written(w, rest, cap));
    FedOne(w, p, more, cap);
    FedOne(w, rest, more, cap);
    PrefixStays(x, Written(w, rest, cap), more, cap);
  }

  lemma PrefixedIs(x: seq<Out>, w: Writer)
    ensures Prefixed(x, w) == Writer(w.buf, x + w.out)
  {
  }

  lemma WrittenAlone(p: Bytes, cap: nat)
    ensures Written(Writer([], []), p, cap) ==
            if |Remainder(p)| > cap then Writer([], Ended(p) + [Cut(Remainder(p)[..cap])]) else Writer(Remainder(p), Ended(p))
  {
    hide NextNewline, Ended, Remainder;
    assert [] + p == p && [] + Ended(p) == Ended(p);
  }

  lemma SamePrefix(x: Out, a: seq<Out>, b: seq<Out>)
    requires a != b
    ensures [x] + a != [x] + b
  {
    assert ([x] + a)[1..] == a && ([x] + b)[1..] == b;
  }

  lemma FedOne(w: Writer, p: Bytes, more: seq<Bytes>, cap: nat)
    requires w == Writer([], [])
    ensures Output([p] + more, cap) == Flushed(Fed(Written(w, p, cap), more, cap)).out
  {
  }

  lemma CutFirst(p: Bytes, more: seq<Bytes>, cap: nat)
    requires NextNewline(p) == |p| > cap
    ensures Output([p] + more, cap) == [Cut(p[..cap])] + Output(more, cap)
  {
    assert [] + p == p;
    FirstLine(p, cap);
    var w := Writer([], []);
    assert Written(w, p, cap) == Prefixed([Cut(p[..cap])], w) by {
      hide NextNewline, Ended, Remainder;
    }
    hide *;
    FedOne(w, p, more, cap);
    PrefixStays([Cut(p[..cap])], w, more, cap);
    OutputIs(more, cap);
  }

  lemma OutputIs(pieces: seq<Bytes>, cap: nat)
    ensures Output(pieces, cap) == Flushed(Fed(Writer([], []), pieces, cap)).out
  {
  }

  lemma SomethingOut(p: Bytes, cap: nat)
    requires p != []
    ensures Output([p], cap) != []
  {
    assert [p] + [] == [p] && [] + p == p;
    FedOne(Writer([], []), p, [], cap);
  }

  /** A stream that is not steady shows its pieces: there is a cut in two that emits otherwise. */
  lemma {:induction false} UnsteadyShowsPieces(data: Bytes, cap: nat) returns (k: nat)
    requires !Steady(data, cap)
    ensures k <= |data| && Output([data[..k]] + [data[k..]], cap) != Output([data] + [], cap)
    decreases |data|
  {
    var i := NextNewline(data);
    FirstLine(data, cap);
    hide *;
    if i == |data| {
      k := cap + 1;
      WithoutNewline(data, k);
      CutFirst(data[..k], [data[k..]], cap);
      SomethingOut(data[k..], cap);
      CutFirst(data, [], cap);
      NoOutput(cap);
      assert |Output([data] + [], cap)| == 1 && |Output([data[..k]] + [data[k..]], cap)| > 1;
    } else if i > cap {
      k := i;
      WithoutNewline(data, k);
      CutFirst(data[..k], [data[k..]], cap);
      FirstLineOut(data, [], cap);
      assert Output([data] + [], cap)[0].Line? && Output([data[..k]] + [data[k..]], cap)[0].Cut?;
    } else {
      var rest := data[i + 1..];
      var m := UnsteadyShowsPieces(rest, cap);
      k := i + 1 + m;
      LongerPiece(data, m);
      FirstLineOut(data, [], cap);
      FirstLineOut(data[..k], [data[k..]], cap);
      SamePrefix(Line(TrimCR(data[..i])), Output([rest[..m]] + [rest[m..]], cap), Output([rest] + [], cap));
      assert Output([data] + [], cap) == [Line(TrimCR(data[..i]))] + Output([rest] + [], cap);
      assert Output([data[..k]] + [data[k..]], cap) == [Line(TrimCR(data[..i]))] + Output([rest[..m]] + [rest[m..]], cap);
    }
  }

  lemma NoOutput(cap: nat)
    ensures Output([], cap) == []
  {
  }

  lemma WithoutNewline(data: Bytes, k: nat)
    requires k <= NextNewline(data)
    ensures NextNewline(data[..k]) == |data[..k]|
  {
  }

  lemma LongerPiece(data: Bytes, m: nat)
    requires NextNewline(data) + 1 + m <= |data|
    ensures var i := NextNewline(data); var k := i + 1 + m; var rest := data[i + 1..];
            && NextNewline(data[..k]) == i < |data[..k]| && data[..k][..i] == data[..i]
            && data[..k][i + 1..] == rest[..m] && data[k..] == rest[m..]
  {
    var i := NextNewline(data);
    assert data[..i + 1 + m][..i] == data[..i];
    NewlineAt(data[..i + 1 + m], i);
  }

  /** lineWriter emits the same for every split of a stream exactly when the stream is steady. */
  lemma PiecesDoNotShowIffSteady(data: Bytes, cap: nat)
    ensures Steady(data, cap) <==>
            forall a, b :: Joined(a) == data && Joined(b) == data ==> Output(a, cap) == Output(b, cap)
  {
    hide *;
    if Steady(data, cap) {
      forall a, b | Joined(a) == data && Joined(b) == data ensures Output(a, cap) == Output(b, cap) {
        SteadyOutput(a, cap);
        SteadyOutput(b, cap);
      }
    } else {
      var k := UnsteadyShowsPieces(data, cap);
      var a, b := [data[..k]] + [data[k..]], [data] + [];
      TwoPieces(data[..k], data[k..]);
      assert data[..k] + data[k..] == data;
      assert Joined(a) == data && Joined(b) == data;
    }
  }

  lemma SteadyOutput(pieces: seq<Bytes>, cap: nat)
    requires Steady(Joined(pieces), cap)
    ensures Output(pieces, cap) == Flushed(Whole([], Joined(pieces), cap)).out
  {
    assert [] + Joined(pieces) == Joined(pieces);
    hide Whole, Fed, Joined, Steady;
    SteadyIgnoresPieces(Writer([], []), pieces, cap);
  }

  // ---------------------------------------------------------------- what the lines spell

  /** The stream is these lines, each with its line end, and then `left`. */
  ghost predicate Spells(b: Bytes, lines: seq<Out>, left: Bytes)
    decreases |lines|
  {
    if lines == [] then b == left
    else Begins(b, lines[0]) && Spells(b[Length(b, lines[0].text)..], lines[1..], left)
  }

  /** A line and its line end come first: the text has no newline in it, and a CR goes with the newline. */
  ghost predicate Begins(b: Bytes, o: Out) {
    && o.Line? && NEWLINE !in o.text && o.text < b && Length(b, o.text) <= |b|
    && b[Length(b, o.text) - 1] == NEWLINE && (Length(b, o.text) == |o.text| + 1 ==> o.text == [] || o.text[|o.text| - 1] != CR)
  }

  /** How long a line is with its line end. */
  function Length(b: Bytes, text: Bytes): nat {
    if |text| < |b| && b[|text|] == CR then |text| + 2 else |text| + 1
  }

  lemma FirstBegins(b: Bytes)
    requires NextNewline(b) < |b|
    ensures var o := Line(TrimCR(b[..NextNewline(b)])); Begins(b, o) && Length(b, o.text) == NextNewline(b) + 1
  {
    hide *;
    EndsAt(b, NextNewline(b));
  }

  lemma TrimCRIs(s: Bytes)
    requires NEWLINE !in s
    ensures var t := TrimCR(s);
            && NEWLINE !in t && t <= s
            && if t == s then t == [] || t[|t| - 1] != CR else |t| + 1 == |s| && s[|t|] == CR
  {
  }

  lemma EndsAt(b: Bytes, i: nat)
    requires i < |b| && NEWLINE !in b[..i] && b[i] == NEWLINE
    ensures var o := Line(TrimCR(b[..i])); Begins(b, o) && Length(b, o.text) == i + 1
  {
    TrimCRIs(b[..i]);
    hide TrimCR;
    var text := TrimCR(b[..i]);
    assert text == b[..|text|];
    assert |text| < i ==> b[|text|] == b[..i][|text|];
  }

  lemma {:induction false} EndedSpells(b: Bytes, cap: nat)
    ensures Spells(b, Ended(b), Remainder(b)) && NEWLINE !in Remainder(b)
    decreases |b|
  {
    hide *;
    var i := NextNewline(b);
    FirstLine(b, cap);
    if i < |b| {
      FirstBegins(b);
      EndedSpells(b[i + 1..], cap);
      SpellsOneMore(b, Line(TrimCR(b[..i])), Ended(b[i + 1..]), Remainder(b));
    } else {
      assert b[..i] == b;
      SpellsNone(b);
    }
  }

  lemma SpellsOneMore(b: Bytes, o: Out, lines: seq<Out>, left: Bytes)
    requires Begins(b, o) && Length(b, o.text) <= |b| && Spells(b[Length(b, o.text)..], lines, left)
    ensures Spells(b, [o] + lines, left)
  {
    hide Begins, Length;
    assert ([o] + lines)[1..] == lines;
  }

  lemma SpellsNone(b: Bytes)
    ensures Spells(b, [], b)
  {
  }

  /** What a steady stream comes to, however it is split: its lines, and then what is left of it. */
  lemma SteadyOutputSpells(pieces: seq<Bytes>, cap: nat) returns (lines: seq<Out>, left: Bytes)
    requires Steady(Joined(pieces), cap)
    ensures Spells(Joined(pieces), lines, left) && NEWLINE !in left
    ensures Output(pieces, cap) ==
            lines + if left == [] then [] else if |left| <= cap then [Line(left)] else [Cut(left[..cap])]
  {
    lines, left := Ended(Joined(pieces)), Remainder(Joined(pieces));
    EndedSpells(Joined(pieces), cap);
    SteadyOutput(pieces, cap);
    hide Spells, Steady, Joined, Ended, Remainder, Output;
    assert [] + lines == lines && lines + [] == lines;
  }

  lemma TwoPieces(a: Bytes, b: Bytes)
    ensures Joined([a] + [b]) == a + b && Joined([a + b] + []) == a + b
  {
    assert ([a] + [b])[1..] == [b] && [b][1..] == [] && ([a + b] + [])[1..] == [];
    assert Joined([b]) == b + [] == b;
    assert Joined([a + b] + []) == a + b + [];
  }
}
