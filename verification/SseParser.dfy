/** SseParser of src/llm/sse_parser.cpp: server-sent events cut out of a byte stream. The three
    callbacks are recorded in a trace. */
module SseParser {
  datatype Callback = Data(payload: string) | Comment(text: string) | Done

  const DATA_PREFIX: string := "data:"
  const DONE_SENTINEL: string := "[DONE]"

  function TrimLeadingSpace(s: string): string {
    if s != "" && s[0] == ' ' then s[1..] else s
  }

  // ----- Finding ends -----

  /** Where the first blank line begins, or -1. */
  function Boundary(buf: string): (p: int)
    ensures -1 <= p && (p >= 0 ==> p + 1 < |buf|)
  {
    if |buf| < 2 then -1
    else if buf[0] == '\n' && buf[1] == '\n' then 0
    else
      var p := Boundary(buf[1..]);
      if p < 0 then -1 else p + 1
  }

  /** Where the first line ends: at its newline, or at the end of the text. */
  function LineEnd(text: string): (e: nat)
    ensures e <= |text|
  {
    if text == "" || text[0] == '\n' then 0 else 1 + LineEnd(text[1..])
  }

  method FindBoundary(buf: string) returns (p: int)
    ensures p == Boundary(buf)
  {
    var i := 0;
    assert buf[0..] == buf;
    while i + 1 < |buf|
      invariant 0 <= i <= |buf|
      invariant Boundary(buf) == if Boundary(buf[i..]) < 0 then -1 else i + Boundary(buf[i..])
    {
      if buf[i] == '\n' && buf[i + 1] == '\n' { return i; }
      assert buf[i..][1..] == buf[i + 1..];
      i := i + 1;
    }
    return -1;
  }

  method FindLineEnd(text: string, cursor: nat) returns (e: nat)
    requires cursor <= |text|
    ensures e == cursor + LineEnd(text[cursor..])
  {
    e := cursor;
    while e < |text| && text[e] != '\n'
      invariant cursor <= e <= |text|
      invariant cursor + LineEnd(text[cursor..]) == e + LineEnd(text[e..])
    {
      assert text[e..][1..] == text[e + 1..];
      e := e + 1;
    }
  }

  // ----- One event -----

  predicate IsData(line: string) {
    |line| >= |DATA_PREFIX| && line[..|DATA_PREFIX|] == DATA_PREFIX
  }

  /** The callback a line causes: none for a blank line or an ignored field. */
  function LineCallbacks(line: string): (cs: seq<Callback>)
    ensures |cs| <= 1
  {
    if line == "" then []
    else if line[0] == ':' then [Comment(line[1..])]
    else if IsData(line) then
      var payload := TrimLeadingSpace(line[|DATA_PREFIX|..]);
      if payload == DONE_SENTINEL then [Done] else [Data(payload)]
    else []
  }

  /** The callbacks of one event; nothing follows `Done`. */
  function EventCallbacks(text: string): seq<Callback>
    decreases |text|
  {
    if text == "" then []
    else
      var e := LineEnd(text);
      var cs := LineCallbacks(text[..e]);
      if cs == [Done] || e == |text| then cs else cs + EventCallbacks(text[e + 1..])
  }

  // ----- The parser's state -----

  datatype State = State(buffer: string, done: bool, trace: seq<Callback>)

  /** All whole events in the state's buffer are handled, up to a `Done`, which clears the buffer. */
  function Drain(st: State): State
    decreases |st.buffer|
  {
    var p := Boundary(st.buffer);
    if p < 0 then st
    else
      var cs := EventCallbacks(st.buffer[..p]);
      if Done in cs then State("", true, st.trace + cs)
      else Drain(State(st.buffer[p + 2..], st.done, st.trace + cs))
  }

  function Feed(st: State, bytes: string): State {
    if st.done then st else Drain(st.(buffer := st.buffer + bytes))
  }

  function Finish(st: State): State {
    if st.done || st.buffer == "" then st
    else
      var cs := EventCallbacks(st.buffer);
      State("", Done in cs, st.trace + cs)
  }

  class SseParser {
    var buffer: string
    var doneSeen: bool
    var trace: seq<Callback>

    function View(): State
      reads this
    {
      State(buffer, doneSeen, trace)
    }

    constructor ()
      ensures View() == State("", false, [])
    {
      buffer, doneSeen, trace := "", false, [];
    }

    method EmitEvent(text: string)
      requires !doneSeen
      modifies this`trace, this`doneSeen
      ensures trace == old(trace) + EventCallbacks(text) && doneSeen == (Done in EventCallbacks(text))
    {
      hide EventCallbacks, LineEnd, TrimLeadingSpace;
      var cursor := 0;
      ghost var emitted: seq<Callback> := [];
      EventFromStart(text);
      while cursor < |text|
        invariant 0 <= cursor <= |text| + 1 && !doneSeen && Done !in emitted
        invariant trace == old(trace) + emitted
        invariant emitted + RestCallbacks(text, cursor) == EventCallbacks(text)
      {
        var lineEnd := FindLineEnd(text, cursor);
        var line := text[cursor..lineEnd];
        RestUnfolds(text, cursor, emitted);
        cursor := lineEnd + 1;
        emitted := emitted + LineCallbacks(line);
        if line == "" { continue; }
        if line[0] == ':' {
          trace := trace + [Comment(line[1..])];
          continue;
        }
        if IsData(line) {
          var payload := TrimLeadingSpace(line[|DATA_PREFIX|..]);
          if payload == DONE_SENTINEL {
            doneSeen := true;
            trace := trace + [Done];
            return;
          }
          trace := trace + [Data(payload)];
          continue;
        }
      }
    }

    method FeedBytes(bytes: string)
      modifies this
      ensures View() == Feed(old(View()), bytes)
    {
      if doneSeen { return; }
      buffer := buffer + bytes;
      while true
        invariant !doneSeen && Drain(View()) == Drain(old(View()).(buffer := old(buffer) + bytes))
        decreases |buffer|
      {
        var pos := FindBoundary(buffer);
        if pos < 0 { break; }
        EmitEvent(buffer[..pos]);
        buffer := buffer[pos + 2..];
        if doneSeen {
          buffer := "";
          return;
        }
      }
    }

    method FinishStream()
      modifies this
      ensures View() == Finish(old(View()))
    {
      if doneSeen { return; }
      if buffer == "" { return; }
      EmitEvent(buffer);
      buffer := "";
    }
  }

  function RestCallbacks(text: string, cursor: nat): seq<Callback> {
    if cursor < |text| then EventCallbacks(text[cursor..]) else []
  }

  lemma EventFromStart(text: string)
    ensures [] + RestCallbacks(text, 0) == EventCallbacks(text)
  {
    assert text[0..] == text;
  }

  lemma RestUnfolds(text: string, cursor: nat, before: seq<Callback>)
    requires cursor < |text|
    ensures var e := cursor + LineEnd(text[cursor..]);
            var cs := LineCallbacks(text[cursor..e]);
            before + RestCallbacks(text, cursor) ==
            if cs == [Done] then before + cs else before + cs + RestCallbacks(text, e + 1)
  {
    hide LineCallbacks;
    var rest := text[cursor..];
    var e := LineEnd(rest);
    var cs := LineCallbacks(rest[..e]);
    assert rest[..e] == text[cursor..cursor + e];
    if e < |rest| {
      assert rest[e + 1..] == text[cursor + e + 1..];
      if cursor + e + 1 == |text| { assert EventCallbacks(rest[e + 1..]) == []; }
    }
    assert cs != [Done] ==> RestCallbacks(text, cursor) == cs + RestCallbacks(text, cursor + e + 1);
  }

  // ----- The stream may be cut anywhere -----

  lemma {:induction false} BoundaryAppend(a: string, b: string)
    requires Boundary(a) >= 0
    ensures Boundary(a + b) == Boundary(a)
  {
    if !(a[0] == '\n' && a[1] == '\n') {
      assert (a + b)[1..] == a[1..] + b;
      BoundaryAppend(a[1..], b);
    }
  }

  /** Bytes that arrive later change nothing about the events already complete. */
  lemma {:induction false} DrainAppend(st: State, b: string)
    requires !st.done
    ensures var d := Drain(st);
            Drain(st.(buffer := st.buffer + b)) ==
            if d.done then d else Drain(d.(buffer := d.buffer + b))
    decreases |st.buffer|
  {
    var p := Boundary(st.buffer);
    if p >= 0 {
      BoundaryAppend(st.buffer, b);
      assert (st.buffer + b)[..p] == st.buffer[..p];
      assert (st.buffer + b)[p + 2..] == st.buffer[p + 2..] + b;
      var cs := EventCallbacks(st.buffer[..p]);
      if !(Done in cs) { DrainAppend(State(st.buffer[p + 2..], st.done, st.trace + cs), b); }
    }
  }

  lemma FeedTwice(st: State, a: string, b: string)
    ensures Feed(Feed(st, a), b) == Feed(st, a + b)
  {
    hide Drain;
    if !st.done {
      DrainAppend(st.(buffer := st.buffer + a), b);
      assert st.buffer + a + b == st.buffer + (a + b);
    }
  }

  function Concat(chunks: seq<string>): string {
    if chunks == [] then "" else Concat(chunks[..|chunks| - 1]) + chunks[|chunks| - 1]
  }

  function FeedAll(st: State, chunks: seq<string>): State {
    if chunks == [] then st else Feed(FeedAll(st, chunks[..|chunks| - 1]), chunks[|chunks| - 1])
  }

  /** No whole event is waiting: what holds initially and after every call. */
  predicate Settled(st: State) {
    st.done || Boundary(st.buffer) < 0
  }

  lemma {:induction false} DrainSettles(st: State)
    ensures Settled(Drain(st))
    decreases |st.buffer|
  {
    var p := Boundary(st.buffer);
    if p >= 0 {
      var cs := EventCallbacks(st.buffer[..p]);
      if !(Done in cs) { DrainSettles(State(st.buffer[p + 2..], st.done, st.trace + cs)); }
    }
  }

  /** Any partition of the bytes into calls gives the callback trace and the final state of one
      call, also when the stream is then finished; and every call leaves the parser settled. */
  lemma {:induction false} ChunkingIndependence(st: State, chunks: seq<string>)
    requires Settled(st)
    ensures FeedAll(st, chunks) == Feed(st, Concat(chunks))
    ensures Finish(FeedAll(st, chunks)) == Finish(Feed(st, Concat(chunks)))
    ensures Settled(FeedAll(st, chunks))
  {
    if chunks == [] {
      assert st.buffer + "" == st.buffer;
    } else {
      var init, last := chunks[..|chunks| - 1], chunks[|chunks| - 1];
      ChunkingIndependence(st, init);
      FeedTwice(st, Concat(init), last);
      if !FeedAll(st, init).done { DrainSettles(FeedAll(st, init).(buffer := FeedAll(st, init).buffer + last)); }
    }
  }

  // ----- Printing and parsing -----

  /** A line of an event: data with or without a blank before it, the done line, a comment, another field. */
  datatype Line = DataLine(payload: string, spaced: bool) | DoneLine(spaced: bool) | CommentLine(text: string) | Field(text: string)

  function PrintData(payload: string, spaced: bool): string {
    DATA_PREFIX + (if spaced then " " else "") + payload
  }

  function PrintLine(line: Line): string {
    match line
    case DataLine(payload, spaced) => PrintData(payload, spaced)
    case DoneLine(spaced) => PrintData("[DONE]", spaced)
    case CommentLine(text) => ":" + text
    case Field(text) => text
  }

  /** A line that can be printed: no newline, and nothing that reads as another line. */
  predicate Printable(line: Line) {
    match line
    case DataLine(payload, spaced) =>
      '\n' !in payload && payload != "[DONE]" && (!spaced && payload != "" ==> payload[0] != ' ')
    case DoneLine(_) => true
    case CommentLine(text) => '\n' !in text
    case Field(text) => '\n' !in text && text != "" && text[0] != ':' && (|text| >= 5 ==> text[..5] != "data:")
  }

  /** The lines of an event, with newlines between them. */
  function PrintLines(lines: seq<Line>): string {
    if lines == [] then "" else if |lines| == 1 then PrintLine(lines[0])
    else PrintLine(lines[0]) + "\n" + PrintLines(lines[1..])
  }

  function PrintEvents(events: seq<seq<Line>>): string {
    if events == [] then "" else PrintLines(events[0]) + "\n\n" + PrintEvents(events[1..])
  }

  /** What lines mean: payloads and comments in order, up to the first done line. */
  function Meaning(lines: seq<Line>): seq<Callback> {
    if lines == [] then [] else
    match lines[0]
    case DataLine(payload, _) => [Data(payload)] + Meaning(lines[1..])
    case DoneLine(_) => [Done]
    case CommentLine(text) => [Comment(text)] + Meaning(lines[1..])
    case Field(_) => Meaning(lines[1..])
  }

  function MeaningOfAll(events: seq<seq<Line>>): seq<Callback> {
    if events == [] then []
    else
      var cs := Meaning(events[0]);
      if Done in cs then cs else cs + MeaningOfAll(events[1..])
  }

  ghost predicate AllPrintable(events: seq<seq<Line>>) {
    forall k, j :: 0 <= k < |events| && 0 <= j < |events[k]| ==> Printable(events[k][j])
  }

  lemma DataLineSays(payload: string, spaced: bool)
    requires !spaced && payload != "" ==> payload[0] != ' '
    ensures LineCallbacks(PrintData(payload, spaced)) == [if payload == "[DONE]" then Done else Data(payload)]
  {
    var line := PrintData(payload, spaced);
    assert line[..|DATA_PREFIX|] == DATA_PREFIX && line[0] == 'd';
    assert line[|DATA_PREFIX|..] == (if spaced then " " else "") + payload;
    assert (" " + payload)[1..] == payload && "" + payload == payload;
  }

  lemma LineSays(line: Line)
    requires Printable(line)
    ensures '\n' !in PrintLine(line) && PrintLine(line) != ""
    ensures LineCallbacks(PrintLine(line)) ==
            match line
            case DataLine(payload, _) => [Data(payload)]
            case DoneLine(_) => [Done]
            case CommentLine(text) => [Comment(text)]
            case Field(_) => []
  {
    match line
    case DataLine(payload, spaced) => DataLineSays(payload, spaced);
    case DoneLine(spaced) => DataLineSays("[DONE]", spaced);
    case CommentLine(text) =>
      assert (":" + text)[1..] == text;
    case Field(text) =>
  }

  lemma {:induction false} LineEndOfLine(line: string, rest: string)
    requires '\n' !in line && (rest == "" || rest[0] == '\n')
    ensures LineEnd(line + rest) == |line|
  {
    if line != "" {
      assert (line + rest)[1..] == line[1..] + rest;
      LineEndOfLine(line[1..], rest);
    }
  }

  lemma {:induction false} LinesSay(lines: seq<Line>)
    requires forall j :: 0 <= j < |lines| ==> Printable(lines[j])
    ensures EventCallbacks(PrintLines(lines)) == Meaning(lines)
  {
    hide LineCallbacks, LineEnd, PrintLine, Printable;
    if lines != [] {
      var line := PrintLine(lines[0]);
      LineSays(lines[0]);
      LinesSay(lines[1..]);
      if |lines| == 1 {
        LineEndOfLine(line, "");
        assert line + "" == line && line[..|line|] == line;
      } else {
        var rest := PrintLines(lines[1..]);
        assert line + "\n" + rest == line + ("\n" + rest);
        LineEndOfLine(line, "\n" + rest);
        assert (line + "\n" + rest)[..|line|] == line && (line + "\n" + rest)[|line| + 1..] == rest;
      }
    }
  }

  /** A text without a blank line in it. */
  predicate NoBlankLine(text: string) {
    Boundary(text) < 0 && (text != "" ==> text[0] != '\n' && text[|text| - 1] != '\n')
  }

  lemma {:induction false} BoundaryOfTwo(line: string, rest: string)
    requires '\n' !in line && NoBlankLine(rest) && rest != ""
    ensures Boundary(line + "\n" + rest) < 0
  {
    var t := line + "\n" + rest;
    if line == "" {
      assert t[1..] == rest;
    } else {
      assert t[1..] == line[1..] + "\n" + rest && t[0] == line[0];
      BoundaryOfTwo(line[1..], rest);
    }
  }

  lemma {:induction false} BoundaryOfLine(line: string)
    requires '\n' !in line
    ensures Boundary(line) < 0
  {
    if line != "" { BoundaryOfLine(line[1..]); }
  }

  lemma {:induction false} LinesHaveNoBlank(lines: seq<Line>)
    requires forall j :: 0 <= j < |lines| ==> Printable(lines[j])
    ensures NoBlankLine(PrintLines(lines)) && (lines != [] ==> PrintLines(lines) != "")
  {
    hide LineCallbacks, PrintLine, Printable, Boundary;
    if lines == [] {
      BoundaryOfLine("");
    } else {
      var line := PrintLine(lines[0]);
      LineSays(lines[0]);
      LinesHaveNoBlank(lines[1..]);
      if |lines| == 1 { BoundaryOfLine(line); } else { BoundaryOfTwo(line, PrintLines(lines[1..])); }
    }
  }

  lemma {:induction false} BoundaryAfter(text: string, rest: string)
    requires Boundary(text) < 0 && (text != "" ==> text[|text| - 1] != '\n')
    ensures Boundary(text + "\n\n" + rest) == |text|
  {
    if text != "" {
      var t := text + "\n\n" + rest;
      assert t[0] == text[0] && t[1..] == text[1..] + "\n\n" + rest;
      BoundaryAfter(text[1..], rest);
    }
  }

  /** One printed event is consumed whole. */
  lemma DrainEvent(lines: seq<Line>, rest: string, trace: seq<Callback>)
    requires forall j :: 0 <= j < |lines| ==> Printable(lines[j])
    ensures var cs := Meaning(lines);
            Drain(State(PrintLines(lines) + "\n\n" + rest, false, trace)) ==
            if Done in cs then State("", true, trace + cs) else Drain(State(rest, false, trace + cs))
  {
    hide Printable, PrintLines, EventCallbacks, Meaning;
    var text := PrintLines(lines);
    var buffer := text + "\n\n" + rest;
    LinesHaveNoBlank(lines);
    BoundaryAfter(text, rest);
    assert buffer[..|text|] == text && buffer[|text| + 2..] == rest;
    LinesSay(lines);
  }

  /** Events of any lines printed one after the other: the callbacks are exactly what the lines mean, in order,
      up to the first done line, which ends the parser; without one, what follows stays in the buffer. */
  lemma {:induction false} PrintParse(events: seq<seq<Line>>, tail: string, trace: seq<Callback>)
    requires AllPrintable(events) && Boundary(tail) < 0
    ensures var cs := MeaningOfAll(events);
            Feed(State("", false, trace), PrintEvents(events) + tail) ==
            if Done in cs then State("", true, trace + cs) else State(tail, false, trace + cs)
  {
    hide Drain, Printable, Meaning, Boundary;
    var text := PrintEvents(events) + tail;
    assert "" + text == text && trace + [] == trace;
    if events == [] {
      DrainNothing(tail, trace);
    } else {
      var cs, rest := Meaning(events[0]), PrintEvents(events[1..]) + tail;
      assert text == PrintLines(events[0]) + "\n\n" + rest;
      DrainEvent(events[0], rest, trace);
      PrintParse(events[1..], tail, trace + cs);
      assert "" + rest == rest;
      assert trace + (cs + MeaningOfAll(events[1..])) == trace + cs + MeaningOfAll(events[1..]);
    }
  }

  lemma DrainNothing(tail: string, trace: seq<Callback>)
    requires Boundary(tail) < 0
    ensures Drain(State("" + tail, false, trace)) == State(tail, false, trace)
  {
    assert "" + tail == tail;
  }

  /** A stream that ends without the blank line: finishing gives what the last lines mean as well. */
  lemma FinishPrinted(events: seq<seq<Line>>, last: seq<Line>, trace: seq<Callback>)
    requires AllPrintable(events + [last])
    ensures var cs := MeaningOfAll(events + [last]);
            Finish(Feed(State("", false, trace), PrintEvents(events) + PrintLines(last))) ==
            State("", Done in cs, trace + cs)
  {
    hide Feed, Printable, Meaning, PrintLines, EventCallbacks, PrintEvents, Boundary;
    forall k, j | 0 <= k < |events| && 0 <= j < |events[k]| ensures Printable(events[k][j]) {
      assert (events + [last])[k] == events[k];
    }
    assert (events + [last])[|events|] == last;
    LinesHaveNoBlank(last);
    LinesSay(last);
    PrintParse(events, PrintLines(last), trace);
    OneMoreEvent(events, last);
    if PrintLines(last) == "" { NothingMeant(last); }
    if Done !in MeaningOfAll(events) { FinishLines(trace, MeaningOfAll(events), PrintLines(last), Meaning(last)); }
  }

  lemma FinishLines(trace: seq<Callback>, before: seq<Callback>, text: string, more: seq<Callback>)
    requires Done !in before && (if text == "" then more == [] else EventCallbacks(text) == more)
    ensures Finish(State(text, false, trace + before)) == State("", Done in before + more, trace + (before + more))
  {
    hide EventCallbacks;
    assert trace + (before + more) == trace + before + more;
  }

  lemma NothingMeant(lines: seq<Line>)
    requires PrintLines(lines) == "" && forall j :: 0 <= j < |lines| ==> Printable(lines[j])
    ensures Meaning(lines) == []
  {
    LinesHaveNoBlank(lines);
  }

  lemma {:induction false} OneMoreEvent(events: seq<seq<Line>>, last: seq<Line>)
    ensures var cs := MeaningOfAll(events);
            MeaningOfAll(events + [last]) == if Done in cs then cs else cs + Meaning(last)
  {
    hide Meaning;
    var all := events + [last];
    if events == [] {
      assert all[0] == last && all[1..] == [];
      assert Meaning(last) + [] == Meaning(last) && [] + Meaning(last) == Meaning(last);
    } else {
      assert all[0] == events[0] && all[1..] == events[1..] + [last];
      OneMoreEvent(events[1..], last);
      var a, b := Meaning(events[0]), MeaningOfAll(events[1..]);
      assert a + (b + Meaning(last)) == a + b + Meaning(last);
    }
  }
}
