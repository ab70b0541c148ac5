/** Splitting a chunked byte stream into lines with a bounded buffer. */
module LineWriter {
  import opened Ordering

  newtype byte = x: int | 0 <= x < 256

  const NEWLINE: byte := 10
  const RETURN: byte := 13
  const MAX_PARTIAL := 65536

  // ----- reference: the lines of a whole stream --------------------------------------------------------

  predicate NoNewline(s: seq<byte>) { NEWLINE !in s }

  /** Position of the first newline, or the length. */
  function FirstNewline(s: seq<byte>): (k: nat)
    ensures k <= |s| && NoNewline(s[..k]) && (k < |s| ==> s[k] == NEWLINE)
  {
    if |s| == 0 || s[0] == NEWLINE then 0
    else
      var k := FirstNewline(s[1..]) + 1;
      assert s[..k] == [s[0]] + s[1..][..k - 1];
      k
  }

  /** The newline-terminated lines. */
  function Lines(s: seq<byte>): seq<seq<byte>> {
    var k := FirstNewline(s);
    if k == |s| then [] else [s[..k]] + Lines(s[k + 1..])
  }

  /** What follows the last newline. */
  function Tail(s: seq<byte>): seq<byte> {
    var k := FirstNewline(s);
    if k == |s| then s else Tail(s[k + 1..])
  }

  function Concat(chunks: seq<seq<byte>>): seq<byte> {
    if |chunks| == 0 then [] else Concat(chunks[..|chunks| - 1]) + chunks[|chunks| - 1]
  }

  // ----- specification: one Write ----------------------------------------------------------------------------

  /** The buffer, and the lines handed to emit so far. */
  datatype Writer = Writer(buffer: seq<byte>, emitted: seq<seq<byte>>)

  /** An unfinished line that outgrows the buffer is emitted cut to size, and the rest of it is dropped. */
  function Buffered(w: Writer, rest: seq<byte>): Writer {
    var b := w.buffer + rest;
    if |b| > MAX_PARTIAL then Writer([], w.emitted + [b[..MAX_PARTIAL]]) else w.(buffer := b)
  }

  function Written(w: Writer, value: seq<byte>): Writer
    decreases |value|
  {
    if |value| == 0 then w
    else
      var k := FirstNewline(value);
      if k == |value| then Buffered(w, value)
      else Written(Writer([], w.emitted + [w.buffer + value[..k]]), value[k + 1..])
  }

  function WrittenAll(w: Writer, chunks: seq<seq<byte>>): Writer {
    if |chunks| == 0 then w else Written(WrittenAll(w, chunks[..|chunks| - 1]), chunks[|chunks| - 1])
  }

  /** emit drops one carriage return and then ignores an empty line. */
  function Stripped(line: seq<byte>): seq<byte> {
    if |line| > 0 && line[|line| - 1] == RETURN then line[..|line| - 1] else line
  }

  predicate IsLogged(line: seq<byte>) { line != [] }

  /** What reaches the log. */
  function LoggedLines(emitted: seq<seq<byte>>): seq<seq<byte>> { Filter(IsLogged, Map(Stripped, emitted)) }

  class LineWriter {
    var buffer: seq<byte>
    var emitted: seq<seq<byte>>
    var logged: seq<seq<byte>>

    /** The logged lines are the emitted ones, stripped, without the empty ones. */
    ghost predicate Valid()
      reads this
    {
      logged == LoggedLines(emitted)
    }

    function View(): Writer
      reads this
    {
      Writer(buffer, emitted)
    }

    constructor ()
      ensures Valid() && View() == Writer([], [])
    {
      buffer, emitted, logged := [], [], [];
    }

    method Emit(line: seq<byte>)
      requires Valid()
      modifies this`emitted, this`logged
      ensures Valid() && View() == old(View()).(emitted := old(emitted) + [line])
    {
      var text := line;
      if |text| > 0 && text[|text| - 1] == RETURN { text := text[..|text| - 1]; }
      LoggedNext(emitted, line);
      emitted := emitted + [line];
      if text == [] { return; }
      logged := logged + [text];
    }

    method Write(value: seq<byte>) returns (written: nat)
      requires Valid()
      modifies this
      ensures Valid() && View() == Written(old(View()), value) && written == |value|
    {
      var rest := value;
      while |rest| > 0
        invariant Valid() && Written(View(), rest) == Written(old(View()), value)
        decreases |rest|
      {
        var k := FirstNewline(rest);
        if k == |rest| {
          buffer := buffer + rest;
          if |buffer| > MAX_PARTIAL {
            Emit(buffer[..MAX_PARTIAL]);
            buffer := [];
          }
          return |value|;
        }
        Emit(buffer + rest[..k]);
        buffer := [];
        rest := rest[k + 1..];
      }
      return |value|;
    }

    method Flush()
      requires Valid()
      modifies this
      ensures Valid() && View() == if old(buffer) == [] then old(View()) else Writer([], old(emitted) + [old(buffer)])
    {
      if |buffer| > 0 {
        Emit(buffer);
        buffer := [];
      }
    }
  }

  lemma LoggedNext(emitted: seq<seq<byte>>, line: seq<byte>)
    ensures LoggedLines(emitted + [line]) == LoggedLines(emitted) + (if Stripped(line) != [] then [Stripped(line)] else [])
  {
    var all := Map(Stripped, emitted + [line]);
    assert all == Map(Stripped, emitted) + [Stripped(line)];
    assert all[..|all| - 1] == Map(Stripped, emitted);
  }

  // ----- chunking ------------------------------------------------------------------------------------------------

  lemma {:induction false} TailHasNoNewline(s: seq<byte>)
    ensures NoNewline(Tail(s))
    decreases |s|
  {
    var k := FirstNewline(s);
    if k < |s| { TailHasNoNewline(s[k + 1..]); } else { assert s[..k] == s; }
  }

  /** A prefix without newline moves the first newline along. */
  lemma {:induction false} FirstNewlineAfter(u: seq<byte>, s: seq<byte>)
    requires NoNewline(u)
    ensures FirstNewline(u + s) == |u| + FirstNewline(s)
  {
    if |u| == 0 {
      assert u + s == s;
    } else {
      assert (u + s)[1..] == u[1..] + s;
      FirstNewlineAfter(u[1..], s);
    }
  }

  lemma {:induction false} FirstNewlineStays(s: seq<byte>, t: seq<byte>)
    requires FirstNewline(s) < |s|
    ensures FirstNewline(s + t) == FirstNewline(s)
  {
    if s[0] != NEWLINE {
      assert (s + t)[1..] == s[1..] + t;
      FirstNewlineStays(s[1..], t);
    }
  }

  /** One line taken off. */
  lemma LinesUnfold(s: seq<byte>, k: nat)
    requires k == FirstNewline(s) < |s|
    ensures Lines(s) == [s[..k]] + Lines(s[k + 1..]) && Tail(s) == Tail(s[k + 1..])
  {
    hide FirstNewline;
  }

  lemma LinesNone(s: seq<byte>)
    requires FirstNewline(s) == |s|
    ensures Lines(s) == [] && Tail(s) == s
  {
    hide FirstNewline;
  }

  /** Cutting a stream anywhere: the first part's lines, then those of its tail with the second part. */
  lemma {:induction false} LinesSplit(s: seq<byte>, t: seq<byte>)
    ensures Lines(s + t) == Lines(s) + Lines(Tail(s) + t) && Tail(s + t) == Tail(Tail(s) + t)
    decreases |s|
  {
    hide Lines;
    hide Tail;
    var k := FirstNewline(s);
    if k < |s| {
      FirstNewlineStays(s, t);
      LinesUnfold(s, k);
      LinesUnfold(s + t, k);
      assert (s + t)[k + 1..] == s[k + 1..] + t && (s + t)[..k] == s[..k];
      LinesSplit(s[k + 1..], t);
    } else {
      LinesNone(s);
    }
  }

  /** One Write against the reference: equal while the unfinished line fits, else the cut line is emitted. */
  ghost function Reference(w: Writer, value: seq<byte>): Writer {
    Writer(Tail(w.buffer + value), w.emitted + Lines(w.buffer + value))
  }

  function Cut(r: Writer): Writer {
    if |r.buffer| <= MAX_PARTIAL then r else Writer([], r.emitted + [r.buffer[..MAX_PARTIAL]])
  }

  lemma WrittenUnfold(w: Writer, value: seq<byte>, k: nat)
    requires k == FirstNewline(value) < |value|
    ensures Written(w, value) == Written(Writer([], w.emitted + [w.buffer + value[..k]]), value[k + 1..])
  {
  }

  lemma WrittenEnd(w: Writer, value: seq<byte>)
    requires FirstNewline(value) == |value| && |w.buffer| <= MAX_PARTIAL
    ensures Written(w, value) == Cut(Writer(w.buffer + value, w.emitted))
  {
  }

  /** The finished line is the first of the stream, and the rest is written after it. */
  lemma ReferenceUnfold(w: Writer, value: seq<byte>, k: nat)
    requires NoNewline(w.buffer) && k == FirstNewline(value) < |value|
    ensures Reference(w, value) == Reference(Writer([], w.emitted + [w.buffer + value[..k]]), value[k + 1..])
  {
    hide Lines;
    hide Tail;
    hide FirstNewline;
    var s, line, rest := w.buffer + value, w.buffer + value[..k], value[k + 1..];
    FirstNewlineAfter(w.buffer, value);
    assert s[..|w.buffer| + k] == line && s[|w.buffer| + k + 1..] == rest && [] + rest == rest;
    LinesUnfold(s, |w.buffer| + k);
    assert w.emitted + ([line] + Lines(rest)) == (w.emitted + [line]) + Lines(rest);
  }

  lemma ReferenceEnd(w: Writer, value: seq<byte>)
    requires NoNewline(w.buffer) && FirstNewline(value) == |value|
    ensures Reference(w, value) == Writer(w.buffer + value, w.emitted)
  {
    FirstNewlineAfter(w.buffer, value);
    LinesNone(w.buffer + value);
  }

  lemma {:induction false} WriteAgainstReference(w: Writer, value: seq<byte>)
    requires NoNewline(w.buffer) && |w.buffer| <= MAX_PARTIAL
    ensures Written(w, value) == Cut(Reference(w, value))
    decreases |value|
  {
    hide Written;
    hide Reference;
    hide Cut;
    hide FirstNewline;
    var k := FirstNewline(value);
    if k == |value| {
      WrittenEnd(w, value);
      ReferenceEnd(w, value);
    } else {
      WrittenUnfold(w, value, k);
      ReferenceUnfold(w, value, k);
      WriteAgainstReference(Writer([], w.emitted + [w.buffer + value[..k]]), value[k + 1..]);
    }
  }

  /** The buffer never exceeds its bound after a Write, and holds no newline. */
  lemma {:induction false} BufferBounded(chunks: seq<seq<byte>>)
    ensures var w := WrittenAll(Writer([], []), chunks); |w.buffer| <= MAX_PARTIAL && NoNewline(w.buffer)
  {
    if |chunks| > 0 {
      var before, last := WrittenAll(Writer([], []), chunks[..|chunks| - 1]), chunks[|chunks| - 1];
      BufferBounded(chunks[..|chunks| - 1]);
      WriteAgainstReference(before, last);
      TailHasNoNewline(before.buffer + last);
    }
  }

  /** At the end of no Write is the unfinished line longer than the buffer. */
  predicate PartialsFit(chunks: seq<seq<byte>>) {
    |chunks| > 0 ==> PartialsFit(chunks[..|chunks| - 1]) && |Tail(Concat(chunks))| <= MAX_PARTIAL
  }

  lemma {:induction false} FittingMatches(chunks: seq<seq<byte>>)
    requires PartialsFit(chunks)
    ensures WrittenAll(Writer([], []), chunks) == Writer(Tail(Concat(chunks)), Lines(Concat(chunks)))
  {
    if |chunks| > 0 {
      var n := |chunks| - 1;
      var before, last := WrittenAll(Writer([], []), chunks[..n]), chunks[n];
      FittingMatches(chunks[..n]);
      BufferBounded(chunks[..n]);
      WriteAgainstReference(before, last);
      LinesSplit(Concat(chunks[..n]), last);
    } else {
      assert FirstNewline([]) == 0;
    }
  }

  // Once a line was cut, the emitted lines differ from the stream's for good.

  /** At position p the emitted lines hold a line of the maximal length, and the stream has a longer one or none. */
  ghost predicate CutAt(w: Writer, stream: seq<byte>, p: nat) {
    && p < |w.emitted| && |w.emitted[p]| == MAX_PARTIAL
    && p <= |Lines(stream)|
    && if p < |Lines(stream)| then |Lines(stream)[p]| > MAX_PARTIAL else |Tail(stream)| > MAX_PARTIAL
  }

  lemma FirstLineLong(u: seq<byte>, t: seq<byte>)
    requires NoNewline(u)
    ensures if |Lines(u + t)| > 0 then |Lines(u + t)[0]| >= |u| else |Tail(u + t)| >= |u|
  {
  }

  lemma CutStays(w: Writer, w': Writer, stream: seq<byte>, more: seq<byte>, p: nat)
    requires CutAt(w, stream, p) && w.emitted <= w'.emitted
    ensures CutAt(w', stream + more, p)
  {
    LinesSplit(stream, more);
    TailHasNoNewline(stream);
    FirstLineLong(Tail(stream), more);
  }

  lemma {:induction false} EmittedGrows(w: Writer, value: seq<byte>)
    ensures w.emitted <= Written(w, value).emitted
    decreases |value|
  {
    if |value| > 0 && FirstNewline(value) < |value| {
      var k := FirstNewline(value);
      EmittedGrows(Writer([], w.emitted + [w.buffer + value[..k]]), value[k + 1..]);
    }
  }

  lemma {:induction false} OversizedDiffers(chunks: seq<seq<byte>>)
    requires !PartialsFit(chunks)
    ensures exists p :: CutAt(WrittenAll(Writer([], []), chunks), Concat(chunks), p)
  {
    if |chunks| > 0 {
      var n := |chunks| - 1;
      var before, last := WrittenAll(Writer([], []), chunks[..n]), chunks[n];
      var after := Written(before, last);
      if PartialsFit(chunks[..n]) {
          FittingMatches(chunks[..n]);
        BufferBounded(chunks[..n]);
        WriteAgainstReference(before, last);
        LinesSplit(Concat(chunks[..n]), last);
        var r := Reference(before, last);
        assert r == Writer(Tail(Concat(chunks)), Lines(Concat(chunks)));
        assert CutAt(WrittenAll(Writer([], []), chunks), Concat(chunks), |r.emitted|);
      } else {
        OversizedDiffers(chunks[..n]);
        var p :| CutAt(before, Concat(chunks[..n]), p);
        EmittedGrows(before, last);
        CutStays(before, after, Concat(chunks[..n]), last, p);
        assert CutAt(WrittenAll(Writer([], []), chunks), Concat(chunks), p);
      }
    }
  }

  /** What is handed to emit: chunking does not matter exactly while no unfinished line outgrows the buffer.  Then any split
      of a stream emits the stream's lines and keeps its tail, and otherwise what is emitted differs from the lines. */
  lemma ChunkingExact(chunks: seq<seq<byte>>)
    ensures PartialsFit(chunks) <==>
            WrittenAll(Writer([], []), chunks) == Writer(Tail(Concat(chunks)), Lines(Concat(chunks)))
  {
    if PartialsFit(chunks) {
      FittingMatches(chunks);
    } else {
      OversizedDiffers(chunks);
      var p :| CutAt(WrittenAll(Writer([], []), chunks), Concat(chunks), p);
    }
  }

  // ----- what the log shows ----------------------------------------------------------------------------------

  lemma {:induction false} LoggedConcat(a: seq<seq<byte>>, b: seq<seq<byte>>)
    ensures LoggedLines(a + b) == LoggedLines(a) + LoggedLines(b)
  {
    if |b| == 0 {
      assert a + b == a && LoggedLines([]) == [];
    } else {
      var n := |b| - 1;
      assert a + b == a + b[..n] + [b[n]] && b == b[..n] + [b[n]];
      hide LoggedLines;
      LoggedNext(a + b[..n], b[n]);
      LoggedNext(b[..n], b[n]);
      LoggedConcat(a, b[..n]);
    }
  }

  /** An unfinished line that was cut, and shows in the log all the same: only its carriage return is missing, and
      the newline follows. */
  predicate CutShows(line: seq<byte>, more: seq<byte>) {
    && |line| == MAX_PARTIAL + 1 && line[MAX_PARTIAL] == RETURN && line[MAX_PARTIAL - 1] != RETURN
    && |more| > 0 && more[0] == NEWLINE
  }

  predicate TailShows(tail: seq<byte>, more: seq<byte>) { |tail| <= MAX_PARTIAL || CutShows(tail, more) }

  /** The same at the end of every Write, where more is what follows the chunks. */
  predicate PartialsShow(chunks: seq<seq<byte>>, more: seq<byte>) {
    |chunks| > 0 ==> PartialsShow(chunks[..|chunks| - 1], chunks[|chunks| - 1] + more) && TailShows(Tail(Concat(chunks)), more)
  }

  /** The log is that of the stream's lines, with a line cut at the end if the tail does not fit. */
  ghost predicate InStep(w: Writer, stream: seq<byte>) {
    var tail := Tail(stream);
    if |tail| <= MAX_PARTIAL then w.buffer == tail && LoggedLines(w.emitted) == LoggedLines(Lines(stream))
    else w.buffer == [] && LoggedLines(w.emitted) == LoggedLines(Lines(stream)) + [Stripped(tail[..MAX_PARTIAL])]
  }

  lemma StepFromFit(w: Writer, stream: seq<byte>, value: seq<byte>)
    requires InStep(w, stream) && |Tail(stream)| <= MAX_PARTIAL
    ensures InStep(Written(w, value), stream + value)
  {
    hide Written;
    hide LoggedLines;
    TailHasNoNewline(stream);
    WriteAgainstReference(w, value);
    LinesSplit(stream, value);
    var lines, tail := Lines(w.buffer + value), Tail(w.buffer + value);
    hide Lines;
    hide Tail;
    LoggedConcat(w.emitted, lines);
    LoggedConcat(Lines(stream), lines);
    if |tail| > MAX_PARTIAL { LoggedNext(w.emitted + lines, tail[..MAX_PARTIAL]); }
  }

  /** The newline that follows a cut which shows: the writer starts afresh, after an empty line that is not logged. */
  lemma NewlineAfterCut(w: Writer, value: seq<byte>)
    requires w.buffer == [] && |value| > 0 && value[0] == NEWLINE
    ensures Written(w, value) == Cut(Writer(Tail(value[1..]), w.emitted + [[]] + Lines(value[1..])))
  {
    var rest, next := value[1..], Writer([], w.emitted + [[]]);
    assert FirstNewline(value) == 0 && w.buffer + value[..0] == [];
    assert Written(w, value) == Written(next, rest);
    hide Written;
    hide Lines;
    hide Tail;
    WriteAgainstReference(next, rest);
    assert [] + rest == rest;
  }

  /** The cut line and the empty one log what the whole line does. */
  lemma SameLog(before: seq<seq<byte>>, lines: seq<seq<byte>>, tail: seq<byte>, rest: seq<seq<byte>>)
    requires Stripped(tail) != [] && LoggedLines(before) == LoggedLines(lines) + [Stripped(tail)]
    ensures LoggedLines(before + [[]] + rest) == LoggedLines(lines + [tail] + rest)
  {
    LoggedNext(before, []);
    LoggedNext(lines, tail);
    hide LoggedLines;
    LoggedConcat(before + [[]], rest);
    LoggedConcat(lines + [tail], rest);
  }

  lemma CutStripped(tail: seq<byte>, more: seq<byte>)
    requires CutShows(tail, more)
    ensures Stripped(tail) == Stripped(tail[..MAX_PARTIAL]) && Stripped(tail) != []
  {
  }

  lemma StepFromCut(w: Writer, stream: seq<byte>, value: seq<byte>, more: seq<byte>)
    requires InStep(w, stream) && CutShows(Tail(stream), value + more)
    ensures InStep(Written(w, value), stream + value)
  {
    if value == [] {
      assert stream + value == stream && Written(w, value) == w;
    } else {
      hide LoggedLines;
      hide Written;
      hide Tail;
      hide Lines;
      assert value[0] == NEWLINE;
      var rest, tail := value[1..], Tail(stream);
      TailHasNoNewline(stream);
      AfterCut(stream, tail, value);
      NewlineAfterCut(w, value);
      CutStripped(tail, value + more);
      SameLog(w.emitted, Lines(stream), tail, Lines(rest));
      hide Stripped;
      hide CutShows;
      if |Tail(rest)| > MAX_PARTIAL { LongLogged(w.emitted + [[]] + Lines(rest), Tail(rest)[..MAX_PARTIAL]); }
    }
  }

  lemma LongLogged(emitted: seq<seq<byte>>, line: seq<byte>)
    requires |line| == MAX_PARTIAL
    ensures LoggedLines(emitted + [line]) == LoggedLines(emitted) + [Stripped(line)]
  {
    LoggedNext(emitted, line);
  }

  lemma AfterCut(stream: seq<byte>, tail: seq<byte>, value: seq<byte>)
    requires tail == Tail(stream) && NoNewline(tail) && |value| > 0 && value[0] == NEWLINE
    ensures Lines(stream + value) == Lines(stream) + [tail] + Lines(value[1..]) && Tail(stream + value) == Tail(value[1..])
  {
    hide Lines;
    hide Tail;
    LinesSplit(stream, value);
    FirstNewlineAfter(tail, value);
    var s := tail + value;
    assert FirstNewline(value) == 0 && s[..|tail|] == tail && s[|tail| + 1..] == value[1..];
    LinesUnfold(s, |tail|);
    assert Lines(stream) + ([tail] + Lines(value[1..])) == Lines(stream) + [tail] + Lines(value[1..]);
  }

  /** While everything before shows, the writer is in step with the stream. */
  lemma {:induction false} StaysInStep(chunks: seq<seq<byte>>, more: seq<byte>)
    requires |chunks| > 0 ==> PartialsShow(chunks[..|chunks| - 1], chunks[|chunks| - 1] + more)
    ensures InStep(WrittenAll(Writer([], []), chunks), Concat(chunks))
  {
    if |chunks| > 0 {
      var n := |chunks| - 1;
      var stream, last := Concat(chunks[..n]), chunks[n];
      StaysInStep(chunks[..n], last + more);
      var before := WrittenAll(Writer([], []), chunks[..n]);
      assert Tail([]) == [];
      if |Tail(stream)| <= MAX_PARTIAL { StepFromFit(before, stream, last); }
      else { StepFromCut(before, stream, last, more); }
    } else {
      assert Tail([]) == [] && Lines([]) == [];
    }
  }

  /** At position p the log has a line that the whole stream's log has not. */
  ghost predicate ShowsOther(w: Writer, whole: seq<byte>, p: nat) {
    var log, expected := LoggedLines(w.emitted), LoggedLines(Lines(whole));
    p < |log| && (p < |expected| ==> log[p] != expected[p])
  }

  lemma LongStripped(line: seq<byte>, tail: seq<byte>, more: seq<byte>)
    requires |tail| > MAX_PARTIAL && tail <= line <= tail + more && !CutShows(tail, more)
    requires |line| < |tail + more| && (tail + more)[|line|] == NEWLINE
    ensures Stripped(line) != Stripped(tail[..MAX_PARTIAL])
  {
    if |line| == |tail| == MAX_PARTIAL + 1 {
      assert line == tail && (tail + more)[|line|] == more[0];
    }
  }

  /** A cut line differs from what the line becomes, unless the cut shows. */
  lemma CutDiffers(tail: seq<byte>, more: seq<byte>)
    requires NoNewline(tail) && |tail| > MAX_PARTIAL && !CutShows(tail, more)
    ensures var log := LoggedLines(Lines(tail + more)); |log| > 0 ==> log[0] != Stripped(tail[..MAX_PARTIAL])
  {
    var s, k := tail + more, FirstNewline(tail + more);
    FirstNewlineAfter(tail, more);
    if k < |s| {
      LinesUnfold(s, k);
      var line := s[..k];
      assert line[..|tail|] == tail && line[..MAX_PARTIAL] == tail[..MAX_PARTIAL];
      LoggedConcat([line], Lines(s[k + 1..]));
      LoggedNext([], line);
      assert [] + [line] == [line] && LoggedLines([]) == [];
      LongStripped(line, tail, more);
    } else {
      LinesNone(s);
    }
  }

  lemma {:induction false} CutIsSeen(chunks: seq<seq<byte>>, more: seq<byte>) returns (p: nat)
    requires !PartialsShow(chunks, more)
    ensures ShowsOther(WrittenAll(Writer([], []), chunks), Concat(chunks) + more, p)
  {
    hide LoggedLines;
    var n := |chunks| - 1;
    var last, stream := chunks[n], Concat(chunks);
    var before, w := WrittenAll(Writer([], []), chunks[..n]), WrittenAll(Writer([], []), chunks);
    if PartialsShow(chunks[..n], last + more) {
      StaysInStep(chunks, more);
      var tail := Tail(stream);
      TailHasNoNewline(stream);
      LinesSplit(stream, more);
      LoggedConcat(Lines(stream), Lines(tail + more));
      CutDiffers(tail, more);
      p := |LoggedLines(Lines(stream))|;
    } else {
      p := CutIsSeen(chunks[..n], last + more);
      assert Concat(chunks[..n]) + (last + more) == stream + more;
      EmittedGrows(before, last);
      assert w.emitted == before.emitted + w.emitted[|before.emitted|..];
      LoggedConcat(before.emitted, w.emitted[|before.emitted|..]);
    }
  }

  /** What is logged: the log is that of the stream's lines exactly when, at the end of every Write, the unfinished line fits
      into the buffer or is one byte too long, ends in a single carriage return, and the newline comes next. */
  lemma LogExact(chunks: seq<seq<byte>>)
    ensures var w, stream := WrittenAll(Writer([], []), chunks), Concat(chunks);
            && (PartialsShow(chunks, []) <==> LoggedLines(w.emitted) == LoggedLines(Lines(stream)))
            && (PartialsShow(chunks, []) ==> w.buffer == Tail(stream))
  {
    hide LoggedLines;
    assert Concat(chunks) + [] == Concat(chunks);
    if PartialsShow(chunks, []) {
      StaysInStep(chunks, []);
      if |chunks| == 0 { assert Tail([]) == []; }
    } else {
      var p := CutIsSeen(chunks, []);
    }
  }

  /** A long line split before its newline: the log differs from that of the unsplit stream, unless the cut shows. */
  lemma SplitMatters(line: seq<byte>)
    requires NoNewline(line) && |line| > MAX_PARTIAL
    ensures Concat([line, [NEWLINE]]) == Concat([line + [NEWLINE]])
    ensures var split, whole := WrittenAll(Writer([], []), [line, [NEWLINE]]), WrittenAll(Writer([], []), [line + [NEWLINE]]);
            LoggedLines(split.emitted) == LoggedLines(whole.emitted) <==> CutShows(line, [NEWLINE])
  {
    hide LoggedLines;
    hide WrittenAll;
    hide PartialsShow;
    hide Concat;
    hide CutShows;
    FirstNewlineAfter(line, []);
    FirstNewlineAfter(line, [NEWLINE]);
    assert line + [] == line;
    LinesNone(line);
    LinesUnfold(line + [NEWLINE], |line|);
    assert (line + [NEWLINE])[|line| + 1..] == [] && Tail([]) == [];
    hide Tail;
    OneChunk(line + [NEWLINE]);
    TwoChunks(line, [NEWLINE]);
    LogExact([line + [NEWLINE]]);
    LogExact([line, [NEWLINE]]);
  }

  lemma OneChunk(value: seq<byte>)
    ensures Concat([value]) == value
    ensures forall more :: PartialsShow([value], more) <==> TailShows(Tail(value), more)
  {
    hide Tail;
    hide TailShows;
    assert [value][..0] == [] && Concat([]) == [];
  }

  lemma TwoChunks(a: seq<byte>, b: seq<byte>)
    ensures Concat([a, b]) == a + b
    ensures PartialsShow([a, b], []) <==> TailShows(Tail(a), b) && TailShows(Tail(a + b), [])
  {
    hide Tail;
    hide TailShows;
    OneChunk(a);
    assert [a, b][..1] == [a] && [a, b][1] == b && b + [] == b;
  }

  /** 65537 bytes and then a newline: written at once they are one line in the log, split they are another. */
  lemma LogDiffers() returns (line: seq<byte>)
    ensures |line| == MAX_PARTIAL + 1
    ensures LoggedLines(WrittenAll(Writer([], []), [line, [NEWLINE]]).emitted)
            != LoggedLines(WrittenAll(Writer([], []), [line + [NEWLINE]]).emitted)
  {
    hide LoggedLines;
    hide WrittenAll;
    line := seq(MAX_PARTIAL + 1, i => 97);
    assert line[MAX_PARTIAL] == 97;
    SplitMatters(line);
  }
}
