/** SentenceSplitter of src/dialogue/sentence_splitter.cpp: text arrives in pieces, sentences leave.
    A character stands for one byte. */
module SentenceSplitter {
  import opened Wrappers

  datatype Config = Config(maxSentenceChars: nat, detectCodeFences: bool)

  // ----- Characters and buffer tails -----

  const FENCE: string := "```"

  const ABBREVIATIONS: set<string> := {
    "dr", "mr", "mrs", "ms", "prof", "sr", "jr", "e.g", "i.e", "etc", "vs", "vol", "no", "fig",
    "approx", "st", "ave", "blvd", "rd", "u.s", "u.k", "u.s.a", "a.m", "p.m" }

  predicate IsLower(c: char) { 'a' <= c <= 'z' }
  predicate IsUpper(c: char) { 'A' <= c <= 'Z' }
  predicate IsDigit(c: char) { '0' <= c <= '9' }
  predicate IsAlnum(c: char) { IsLower(c) || IsUpper(c) || IsDigit(c) }
  predicate IsTerminator(c: char) { c == '.' || c == '!' || c == '?' }
  predicate IsWhitespace(c: char) { c == ' ' || c == '\t' || c == '\n' || c == '\r' }
  predicate IsPause(c: char) { IsWhitespace(c) || c == ',' }

  function ToLower(c: char): char {
    if IsUpper(c) then (c as int + 32) as char else c
  }

  function Lowered(s: string): string {
    if s == "" then "" else Lowered(s[..|s| - 1]) + [ToLower(s[|s| - 1])]
  }

  function Trimmed(s: string): string {
    if s != "" && IsWhitespace(s[0]) then Trimmed(s[1..]) else s
  }

  /** Where the run of word characters (dots too, if `dots`) that ends at `end` begins. */
  function WordStart(buf: string, end: nat, dots: bool): (i: nat)
    requires end <= |buf|
    ensures i <= end
  {
    if end > 0 && (IsAlnum(buf[end - 1]) || (dots && buf[end - 1] == '.')) then WordStart(buf, end - 1, dots) else end
  }

  predicate EndsWithDot(buf: string) {
    |buf| >= 2 && buf[|buf| - 1] == '.'
  }

  predicate EndsWithAbbreviation(buf: string) {
    EndsWithDot(buf) &&
    var end := |buf| - 1;
    var i := WordStart(buf, end, true);
    i != end && Lowered(buf[i..end]) in ABBREVIATIONS
  }

  predicate EndsWithListMarker(buf: string) {
    EndsWithDot(buf) &&
    var end := |buf| - 1;
    var i := WordStart(buf, end, false);
    1 <= end - i <= 3 && (i > 0 ==> IsWhitespace(buf[i - 1]))
  }

  predicate EndsWithDecimal(buf: string) {
    EndsWithDot(buf) && IsDigit(buf[|buf| - 2])
  }

  predicate EndsWith(buf: string, tail: string) {
    |buf| >= |tail| && buf[|buf| - |tail|..] == tail
  }

  predicate EndsWithEllipsis(buf: string) {
    EndsWith(buf, "...") || EndsWith(buf, "\U{E2}\U{80}\U{A6}")
  }

  // ----- One character -----

  datatype Mode = Normal | InCodeFence

  /** `pending` is the buffer index of a deferred terminator. */
  datatype Split = Split(buf: string, mode: Mode, sinceTerminator: nat, pending: Option<nat>, dotRun: nat)

  const START: Split := Split("", Normal, 0, None, 0)

  predicate InBuffer(s: Split) {
    s.pending.Some? ==> s.pending.value < |s.buf|
  }

  /** A state and the raw segments, untrimmed, that were cut on the way to it. */
  datatype Cut = Cut(state: Split, segments: seq<string>)

  function Toggled(m: Mode): Mode {
    if m == Normal then InCodeFence else Normal
  }

  function Append(cfg: Config, s: Split, c: char): Split {
    var buf := s.buf + [c];
    s.(buf := buf, mode := if cfg.detectCodeFences && EndsWith(buf, FENCE) then Toggled(s.mode) else s.mode)
  }

  /** What the program decides about a terminator just appended. */
  function Defer(s: Split, c: char): (r: Split)
    requires s.buf != ""
    ensures InBuffer(r)
  {
    if EndsWithAbbreviation(s.buf) || EndsWithListMarker(s.buf) then s.(pending := None, dotRun := 0)
    else if EndsWithDecimal(s.buf) then s.(pending := Some(|s.buf| - 1), dotRun := 1)
    else if EndsWithEllipsis(s.buf) then s.(pending := None, dotRun := 0)
    else s.(pending := Some(|s.buf| - 1), dotRun := if c == '.' then 1 else 0)
  }

  /** A forced cut when the tail without punctuation is too long and `c` is a pause. */
  function Grow(cfg: Config, s: Split, c: char): Cut {
    if s.sinceTerminator + 1 >= cfg.maxSentenceChars && IsPause(c) then Cut(Split("", s.mode, 0, None, 0), [s.buf])
    else Cut(s.(sinceTerminator := s.sinceTerminator + 1), [])
  }

  function Classify(cfg: Config, s: Split, c: char): (r: Cut)
    requires s.buf != "" && s.pending.None?
    ensures InBuffer(r.state)
  {
    if IsTerminator(c) then Cut(Defer(s, c), []) else Grow(cfg, s, c)
  }

  function StepChar(cfg: Config, s0: Split, c: char): (r: Cut)
    requires InBuffer(s0)
    ensures InBuffer(r.state)
  {
    var s := Append(cfg, s0, c);
    var dropped := s.(pending := None, dotRun := 0, sinceTerminator := s.sinceTerminator + 1);
    if s.mode == InCodeFence then Cut(s.(sinceTerminator := s.sinceTerminator + 1), [])
    else if s.pending.None? then Classify(cfg, s, c)
    else if c == '.' && s.buf[s.pending.value] == '.' then Cut(s.(dotRun := s.dotRun + 1), [])
    else if IsDigit(c) || s.dotRun >= 2 then Cut(dropped, [])
    else
      var p := s.pending.value + 1;
      var rest := s.(buf := s.buf[p..], sinceTerminator := |s.buf| - p, pending := None);
      var r := Classify(cfg, rest, c);
      Cut(r.state, [s.buf[..p]] + r.segments)
  }

  // ----- Whole texts -----

  function Feed(cfg: Config, s: Split, text: string): (r: Cut)
    requires InBuffer(s)
    ensures InBuffer(r.state)
  {
    if text == "" then Cut(s, []) else
    var before := Feed(cfg, s, text[..|text| - 1]);
    var r := StepChar(cfg, before.state, text[|text| - 1]);
    Cut(r.state, before.segments + r.segments)
  }

  /** The sentences in raw segments: leading whitespace goes, and what is blank then. */
  function Sentences(segments: seq<string>): seq<string> {
    if segments == [] then [] else
    var t := Trimmed(segments[|segments| - 1]);
    Sentences(segments[..|segments| - 1]) + if t == "" then [] else [t]
  }

  function Concat(segments: seq<string>): string {
    if segments == [] then "" else Concat(segments[..|segments| - 1]) + segments[|segments| - 1]
  }

  function FlushState(s: Split): Split {
    Split("", s.mode, 0, None, 0)
  }

  class SentenceSplitter {
    const cfg: Config
    var buf: string
    var mode: Mode
    var sinceTerminator: nat
    var pending: Option<nat>
    var dotRun: nat

    function View(): Split
      reads this
    {
      Split(buf, mode, sinceTerminator, pending, dotRun)
    }

    constructor (c: Config)
      ensures cfg == c && View() == START
    {
      cfg := c;
      buf, mode, sinceTerminator, pending, dotRun := "", Normal, 0, None, 0;
    }

    method Reset()
      modifies this
      ensures View() == START
    {
      buf, mode, sinceTerminator, pending, dotRun := "", Normal, 0, None, 0;
    }

    method Push(text: string) returns (out: seq<string>)
      requires InBuffer(View())
      modifies this
      ensures InBuffer(View())
      ensures var r := Feed(cfg, old(View()), text);
              View() == r.state && out == Sentences(r.segments)
    {
      out := [];
      for i := 0 to |text|
        invariant InBuffer(View())
        invariant View() == Feed(cfg, old(View()), text[..i]).state
        invariant out == Sentences(Feed(cfg, old(View()), text[..i]).segments)
      {
        assert text[..i + 1][..i] == text[..i];
        ghost var before := Feed(cfg, old(View()), text[..i]).segments;
        ghost var r := StepChar(cfg, View(), text[i]);
        var emitted := PushChar(text[i]);
        SentencesAppend(before, r.segments);
        out := out + emitted;
      }
      assert text[..|text|] == text;
    }

    method PushChar(c: char) returns (out: seq<string>)
      requires InBuffer(View())
      modifies this
      ensures InBuffer(View())
      ensures var r := StepChar(cfg, old(View()), c);
              View() == r.state && out == Sentences(r.segments)
    {
      hide Defer, Grow, Sentences;
      NoSentences();
      out := [];
      buf := buf + [c];
      if cfg.detectCodeFences && EndsWith(buf, FENCE) {
        mode := if mode == Normal then InCodeFence else Normal;
      }
      if mode == InCodeFence {
        sinceTerminator := sinceTerminator + 1;
        return;
      }
      if pending.Some? {
        var prevTerm := buf[pending.value];
        if c == '.' && prevTerm == '.' {
          dotRun := dotRun + 1;
          return;
        }
        if IsDigit(c) {
          pending, dotRun, sinceTerminator := None, 0, sinceTerminator + 1;
          return;
        }
        if dotRun >= 2 {
          pending, dotRun, sinceTerminator := None, 0, sinceTerminator + 1;
          return;
        }
        ghost var head := buf[..pending.value + 1];
        out := ResolvePending();
        ghost var r := Classify(cfg, View(), c);
        SentencesAppend([head], r.segments);
      }
      var more := Decide(c);
      out := out + more;
    }

    /** The part of the loop after a deferred terminator was dealt with. */
    method Decide(c: char) returns (out: seq<string>)
      requires buf != "" && pending.None?
      modifies this
      ensures var r := Classify(cfg, old(View()), c);
              View() == r.state && out == Sentences(r.segments)
    {
      hide EndsWithAbbreviation, EndsWithListMarker, EndsWithDecimal, EndsWithEllipsis, Sentences;
      NoSentences();
      if IsTerminator(c) {
        var abbreviation := LastWordIsAbbreviation(buf);
        var marker := EndsWithMarker(buf);
        if abbreviation || marker {
          pending, dotRun := None, 0;
        } else if EndsWithDecimal(buf) {
          pending, dotRun := Some(|buf| - 1), 1;
        } else if EndsWithEllipsis(buf) {
          pending, dotRun := None, 0;
        } else {
          pending, dotRun := Some(|buf| - 1), if c == '.' then 1 else 0;
        }
        return [];
      }
      sinceTerminator := sinceTerminator + 1;
      out := [];
      if sinceTerminator >= cfg.maxSentenceChars && (IsWhitespace(c) || c == ',') {
        out := FlushBuffer();
      }
    }

    method ResolvePending() returns (out: seq<string>)
      requires InBuffer(View()) && pending.Some?
      modifies this
      ensures View() == old(Split(buf[pending.value + 1..], mode, |buf| - pending.value - 1, None, dotRun))
      ensures out == Sentences([old(buf[..pending.value + 1])])
    {
      var pos := pending.value;
      pending := None;
      var head, tail := buf[..pos + 1], buf[pos + 1..];
      buf := tail;
      sinceTerminator := |buf|;
      out := TrimAndKeep(head);
    }

    method FlushBuffer() returns (out: seq<string>)
      modifies this
      ensures View() == FlushState(old(View())) && out == Sentences([old(buf)])
    {
      out := TrimAndKeep(buf);
      buf, sinceTerminator, pending, dotRun := "", 0, None, 0;
    }

    method Flush() returns (out: seq<string>)
      modifies this
      ensures View() == FlushState(old(View())) && out == Sentences([old(buf)])
    {
      pending, dotRun := None, 0;
      out := [];
      if buf != "" {
        out := FlushBuffer();
      }
      sinceTerminator := 0;
    }
  }

  method TrimAndKeep(s: string) returns (out: seq<string>)
    ensures out == Sentences([s])
  {
    var i := 0;
    assert s[0..] == s;
    while i < |s| && IsWhitespace(s[i])
      invariant 0 <= i <= |s| && Trimmed(s[i..]) == Trimmed(s)
    {
      assert s[i..][1..] == s[i + 1..];
      i := i + 1;
    }
    assert [s][..0] == [];
    return if s[i..] != "" then [s[i..]] else [];
  }

  lemma LoweredStep(s: string, c: char)
    ensures Lowered(s + [c]) == Lowered(s) + [ToLower(c)]
  {
    assert (s + [c])[..|s|] == s;
  }

  method LastWordIsAbbreviation(buf: string) returns (yes: bool)
    ensures yes == EndsWithAbbreviation(buf)
  {
    if |buf| < 2 || buf[|buf| - 1] != '.' { return false; }
    var end := |buf| - 1;
    var i := end;
    while i > 0 && (IsAlnum(buf[i - 1]) || buf[i - 1] == '.')
      invariant 0 <= i <= end && WordStart(buf, i, true) == WordStart(buf, end, true)
    {
      i := i - 1;
    }
    if i == end { return false; }
    var word := "";
    for k := i to end
      invariant word == Lowered(buf[i..k])
    {
      assert buf[i..k + 1] == buf[i..k] + [buf[k]];
      LoweredStep(buf[i..k], buf[k]);
      word := word + [ToLower(buf[k])];
    }
    return word in ABBREVIATIONS;
  }

  method EndsWithMarker(buf: string) returns (yes: bool)
    ensures yes == EndsWithListMarker(buf)
  {
    if |buf| < 2 || buf[|buf| - 1] != '.' { return false; }
    var end := |buf| - 1;
    var i := end;
    while i > 0 && IsAlnum(buf[i - 1])
      invariant 0 <= i <= end && WordStart(buf, i, false) == WordStart(buf, end, false)
    {
      i := i - 1;
    }
    if i == end { return false; }
    if end - i < 1 || end - i > 3 { return false; }
    return i > 0 ==> IsWhitespace(buf[i - 1]);
  }

  // ----- Cutting the input into pieces changes nothing -----

  lemma NoSentences()
    ensures Sentences([]) == []
    ensures forall s: seq<string> :: [] + s == s && s + [] == s
  {}

  lemma {:induction false} SentencesAppend(a: seq<string>, b: seq<string>)
    ensures Sentences(a + b) == Sentences(a) + Sentences(b)
  {
    if b == [] {
      assert a + b == a;
    } else {
      var init := b[..|b| - 1];
      assert (a + b)[..|a + b| - 1] == a + init;
      SentencesAppend(a, init);
    }
  }

  /** Pushing two pieces is pushing their concatenation. */
  lemma {:induction false} FeedTwice(cfg: Config, s: Split, a: string, b: string)
    requires InBuffer(s)
    ensures var first := Feed(cfg, s, a);
            var second := Feed(cfg, first.state, b);
            Feed(cfg, s, a + b) == Cut(second.state, first.segments + second.segments)
  {
    hide StepChar;
    if b == "" {
      assert a + b == a;
      assert Feed(cfg, s, a).segments + [] == Feed(cfg, s, a).segments;
    } else {
      var init := b[..|b| - 1];
      assert (a + b)[..|a + b| - 1] == a + init;
      FeedTwice(cfg, s, a, init);
      var first := Feed(cfg, s, a);
      var mid := Feed(cfg, first.state, init);
      var r := StepChar(cfg, mid.state, b[|b| - 1]);
      assert first.segments + (mid.segments + r.segments) == first.segments + mid.segments + r.segments;
    }
  }

  /** The sentences a text yields before it ends, and with its tail flushed. */
  function Emitted(cfg: Config, text: string): seq<string> {
    Sentences(Feed(cfg, START, text).segments)
  }

  function AllSentences(cfg: Config, text: string): seq<string> {
    Emitted(cfg, text) + Sentences([Feed(cfg, START, text).state.buf])
  }

  /** What was emitted stays: more text only adds sentences at the end. */
  lemma EmittedGrows(cfg: Config, a: string, b: string)
    ensures Emitted(cfg, a) <= Emitted(cfg, a + b) <= AllSentences(cfg, a + b)
    ensures Emitted(cfg, a + b) == Emitted(cfg, a) + Sentences(Feed(cfg, Feed(cfg, START, a).state, b).segments)
  {
    FeedTwice(cfg, START, a, b);
    SentencesAppend(Feed(cfg, START, a).segments, Feed(cfg, Feed(cfg, START, a).state, b).segments);
  }

  // ----- What a run keeps -----

  /** A deferred terminator is the buffer's tail: one mark, or a run of dots that is counted. */
  ghost predicate PendingIsTail(s: Split) {
    && InBuffer(s)
    && (s.mode == InCodeFence ==> s.pending.None?)
    && (s.pending.Some? ==>
          var p := s.pending.value;
          && IsTerminator(s.buf[p])
          && (forall i :: p < i < |s.buf| ==> s.buf[i] == '.' && s.buf[p] == '.')
          && s.dotRun == if s.buf[p] == '.' then |s.buf| - p else 0)
  }

  /** The number of backticks at the end. */
  ghost function Ticks(s: string): (n: nat)
    ensures n <= |s|
  {
    if s != "" && s[|s| - 1] == '`' then 1 + Ticks(s[..|s| - 1]) else 0
  }

  /** The fence mode after a text: every third or later backtick in a row toggles it. */
  ghost function FenceMode(cfg: Config, text: string): Mode {
    if text == "" then Normal else
    var before := FenceMode(cfg, text[..|text| - 1]);
    if cfg.detectCodeFences && EndsWith(text, FENCE) then Toggled(before) else before
  }

  /** Where `push` may cut: outside fences, not inside a run of dots, not before a digit that
      follows a terminator; a cut at the very end of the text so far comes after a pause. */
  ghost predicate GoodCut(cfg: Config, text: string, at: nat) {
    && 0 < at <= |text|
    && FenceMode(cfg, text[..at]) == Normal
    && if at == |text| then IsPause(text[at - 1])
       else !(text[at - 1] == '.' && text[at] == '.') && !(IsTerminator(text[at - 1]) && IsDigit(text[at]))
  }

  ghost predicate GoodCuts(cfg: Config, text: string, segments: seq<string>) {
    forall i :: 0 < i <= |segments| ==> GoodCut(cfg, text, |Concat(segments[..i])|)
  }

  lemma TicksOf(s: string)
    requires s != ""
    ensures Ticks(s) == if s[|s| - 1] == '`' then 1 + Ticks(s[..|s| - 1]) else 0
  {}

  lemma TicksAtLeastThree(s: string)
    ensures Ticks(s) >= 3 <==> |s| >= 3 && s[|s| - 1] == '`' && s[|s| - 2] == '`' && s[|s| - 3] == '`'
  {
    hide Ticks;
    if |s| >= 3 {
      TicksOf(s);
      TicksOf(s[..|s| - 1]);
      TicksOf(s[..|s| - 1][..|s| - 2]);
    }
  }

  lemma TicksIsFence(s: string)
    ensures EndsWith(s, FENCE) <==> Ticks(s) >= 3
  {
    hide Ticks;
    TicksAtLeastThree(s);
    if |s| >= 3 {
      assert s[|s| - 3..] == [s[|s| - 3], s[|s| - 2], s[|s| - 1]];
    }
  }

  lemma TicksStep(s: string, c: char)
    ensures Ticks(s + [c]) == if c == '`' then 1 + Ticks(s) else 0
  {
    assert (s + [c])[..|s|] == s;
  }

  lemma ModeStep(cfg: Config, s: Split, text: string, c: char)
    requires Ticks(s.buf) == Ticks(text) && s.mode == FenceMode(cfg, text)
    ensures Append(cfg, s, c).mode == FenceMode(cfg, text + [c])
    ensures Ticks(s.buf + [c]) == Ticks(text + [c])
  {
    TicksStep(s.buf, c);
    TicksStep(text, c);
    TicksIsFence(s.buf + [c]);
    TicksIsFence(text + [c]);
    assert (text + [c])[..|text|] == text;
  }

  /** The input so far is the segments and the buffer; the mode is a function of the input alone. */
  ghost predicate Linked(cfg: Config, text: string, segments: seq<string>, s: Split) {
    && Concat(segments) + s.buf == text
    && Ticks(s.buf) == Ticks(text) && s.mode == FenceMode(cfg, text)
    && GoodCuts(cfg, text, segments)
  }

  lemma CutStaysGood(cfg: Config, text: string, c: char, at: nat)
    requires GoodCut(cfg, text, at)
    ensures GoodCut(cfg, text + [c], at)
  {
    assert (text + [c])[..at] == text[..at];
  }

  lemma CutsStayGood(cfg: Config, text: string, c: char, segments: seq<string>)
    requires GoodCuts(cfg, text, segments)
    ensures GoodCuts(cfg, text + [c], segments)
  {
    hide GoodCut;
    forall i | 0 < i <= |segments| ensures GoodCut(cfg, text + [c], |Concat(segments[..i])|) {
      CutStaysGood(cfg, text, c, |Concat(segments[..i])|);
    }
  }

  lemma OneMoreCut(cfg: Config, text: string, segments: seq<string>, x: string)
    requires GoodCuts(cfg, text, segments) && GoodCut(cfg, text, |Concat(segments)| + |x|)
    ensures GoodCuts(cfg, text, segments + [x])
    ensures Concat(segments + [x]) == Concat(segments) + x
  {
    hide GoodCut;
    var all := segments + [x];
    assert all[..|segments|] == segments;
    forall i | 0 < i <= |all| ensures GoodCut(cfg, text, |Concat(all[..i])|) {
      CutSoFar(cfg, text, segments, x, i);
    }
  }

  lemma CutSoFar(cfg: Config, text: string, segments: seq<string>, x: string, i: nat)
    requires 0 < i <= |segments| + 1
    requires GoodCuts(cfg, text, segments) && GoodCut(cfg, text, |Concat(segments)| + |x|)
    ensures GoodCut(cfg, text, |Concat((segments + [x])[..i])|)
  {
    hide GoodCut;
    var all := segments + [x];
    if i <= |segments| {
      assert all[..i] == segments[..i];
    } else {
      assert all[..i] == all && all[..|segments|] == segments;
    }
  }

  lemma AppendLinked(cfg: Config, text: string, segments: seq<string>, s: Split, c: char)
    requires Linked(cfg, text, segments, s)
    ensures Linked(cfg, text + [c], segments, Append(cfg, s, c))
  {
    hide GoodCuts, Ticks, FenceMode;
    ModeStep(cfg, s, text, c);
    CutsStayGood(cfg, text, c, segments);
    assert Concat(segments) + (s.buf + [c]) == text + [c];
  }

  /** Right after a deferred terminator that neither a dot nor a digit follows, a cut is good. */
  lemma CutAfterTerminator(cfg: Config, text: string, c: char)
    requires text != "" && FenceMode(cfg, text) == Normal && !IsDigit(c)
    requires !(c == '.' && text[|text| - 1] == '.')
    ensures GoodCut(cfg, text + [c], |text|)
  {
    hide FenceMode;
    assert (text + [c])[..|text|] == text;
  }

  /** A buffer that is cut down to its last character still ends in as many backticks as the text. */
  lemma TicksAfterCut(buf: string, text: string, c: char)
    requires buf != "" && buf[|buf| - 1] != '`' && Ticks(buf + [c]) == Ticks(text + [c])
    ensures Ticks([c]) == Ticks(text + [c])
  {
    TicksStep(buf, c);
    TicksStep("", c);
    assert "" + [c] == [c];
  }

  lemma PendingIsLast(s: Split)
    requires PendingIsTail(s) && s.pending.Some? && s.dotRun < 2
    ensures s.pending.value == |s.buf| - 1 && IsTerminator(s.buf[s.pending.value])
  {
    var last := s.buf[|s.buf| - 1];
  }

  /** The cut after a single deferred terminator. */
  lemma ResolveLinked(cfg: Config, text: string, segments: seq<string>, s: Split, c: char)
    requires Linked(cfg, text, segments, s) && PendingIsTail(s) && s.pending.Some?
    requires Append(cfg, s, c).mode == Normal && s.dotRun < 2 && !IsDigit(c)
    requires !(c == '.' && s.buf[s.pending.value] == '.')
    ensures var s1, p := Append(cfg, s, c), s.pending.value + 1;
            && s1.buf[p..] == [c]
            && Linked(cfg, text + [c], segments + [s1.buf[..p]],
                      s1.(buf := [c], sinceTerminator := |s1.buf| - p, pending := None))
  {
    hide GoodCuts, GoodCut, Concat, FenceMode, Ticks, EndsWith, IsDigit;
    var s1, p := Append(cfg, s, c), s.pending.value + 1;
    PendingIsLast(s);
    assert s1.buf[..p] == s.buf && s1.buf[p..] == [c];
    AppendLinked(cfg, text, segments, s, c);
    assert text[|text| - 1] == s.buf[|s.buf| - 1];
    TicksAfterCut(s.buf, text, c);
    CutAfterTerminator(cfg, text, c);
    OneMoreCut(cfg, text + [c], segments, s.buf);
  }

  lemma ClassifyLinked(cfg: Config, text: string, segments: seq<string>, s: Split, c: char)
    requires Linked(cfg, text, segments, s) && s.pending.None? && s.mode == Normal
    requires s.buf != "" && s.buf[|s.buf| - 1] == c
    ensures var r := Classify(cfg, s, c);
            Linked(cfg, text, segments + r.segments, r.state) && PendingIsTail(r.state)
  {
    hide GoodCuts, Concat, EndsWithAbbreviation, EndsWithListMarker, EndsWithEllipsis;
    var r := Classify(cfg, s, c);
    if r.segments == [] {
      assert segments + [] == segments;
    } else {
      assert text[|text| - 1] == c && text[..|text|] == text;
      OneMoreCut(cfg, text, segments, s.buf);
      assert Ticks("") == 0;
    }
  }

  lemma StepLinked(cfg: Config, text: string, segments: seq<string>, s: Split, c: char)
    requires Linked(cfg, text, segments, s) && PendingIsTail(s)
    ensures var r := StepChar(cfg, s, c);
            Linked(cfg, text + [c], segments + r.segments, r.state) && PendingIsTail(r.state)
  {
    hide Linked, Classify;
    var s1 := Append(cfg, s, c);
    AppendLinked(cfg, text, segments, s, c);
    assert segments + [] == segments;
    if s1.mode == InCodeFence {
      if s.mode == Normal { LastTick(s.buf, c); }
      LinkedAnyway(cfg, text + [c], segments, s1);
    } else if s.pending.None? {
      ClassifyLinked(cfg, text + [c], segments, s1, c);
    } else if (c == '.' && s1.buf[s.pending.value] == '.') || IsDigit(c) || s.dotRun >= 2 {
      LinkedAnyway(cfg, text + [c], segments, s1);
    } else {
      ResolveLinked(cfg, text, segments, s, c);
      var p := s.pending.value + 1;
      var rest := s1.(buf := [c], sinceTerminator := |s1.buf| - p, pending := None);
      ClassifyLinked(cfg, text + [c], segments + [s1.buf[..p]], rest, c);
      var more := Classify(cfg, rest, c).segments;
      assert segments + [s1.buf[..p]] + more == segments + ([s1.buf[..p]] + more);
    }
  }

  /** Opening a fence needs a backtick before the last one, so no terminator can be pending. */
  lemma LastTick(buf: string, c: char)
    ensures EndsWith(buf + [c], FENCE) ==> |buf| >= 2 && buf[|buf| - 1] == '`'
  {
    if EndsWith(buf + [c], FENCE) {
      assert (buf + [c])[|buf| - 2..][1] == '`';
    }
  }

  lemma LinkedAnyway(cfg: Config, text: string, segments: seq<string>, s: Split)
    requires Linked(cfg, text, segments, s)
    ensures forall n: nat, p: Option<nat>, d: nat ::
              Linked(cfg, text, segments, s.(sinceTerminator := n, pending := p, dotRun := d))
  {}

  lemma StartLinked(cfg: Config)
    ensures Linked(cfg, "", [], START) && PendingIsTail(START)
  {}

  lemma {:induction false} FeedLinked(cfg: Config, text: string)
    ensures var r := Feed(cfg, START, text);
            Linked(cfg, text, r.segments, r.state) && PendingIsTail(r.state)
  {
    hide StepChar, Linked, PendingIsTail;
    if text == "" {
      StartLinked(cfg);
    } else {
      var init, c := text[..|text| - 1], text[|text| - 1];
      FeedLinked(cfg, init);
      var before := Feed(cfg, START, init);
      StepLinked(cfg, init, before.segments, before.state, c);
      assert text == init + [c];
    }
  }

  /** What holds of every text pushed from the start: the input is the concatenation of the raw
      segments and the buffer, a deferred terminator is the buffer's tail, the fence mode is a
      function of the input, and every cut is a good one. */
  lemma PushKeeps(cfg: Config, text: string)
    ensures var r := Feed(cfg, START, text);
            && Concat(r.segments) + r.state.buf == text
            && PendingIsTail(r.state)
            && r.state.mode == FenceMode(cfg, text)
            && GoodCuts(cfg, text, r.segments)
  {
    hide Feed, PendingIsTail, GoodCuts, FenceMode, Concat, Ticks;
    FeedLinked(cfg, text);
  }

  /** Nothing is lost but blanks: the sentences of a whole text are its raw segments and its tail,
      which together are the text, each without leading whitespace and only if something is left. */
  lemma SplitConserves(cfg: Config, text: string) returns (segments: seq<string>)
    ensures Concat(segments) == text && AllSentences(cfg, text) == Sentences(segments)
  {
    PushKeeps(cfg, text);
    var r := Feed(cfg, START, text);
    segments := r.segments + [r.state.buf];
    SentencesAppend(r.segments, [r.state.buf]);
    assert segments[..|segments| - 1] == r.segments;
  }

  // ----- Exactly where a text is cut -----

  /** The number of dots at the end. */
  ghost function Dots(s: string): (n: nat)
    ensures n <= |s| && (n > 0 <==> s != "" && s[|s| - 1] == '.')
  {
    if s != "" && s[|s| - 1] == '.' then 1 + Dots(s[..|s| - 1]) else 0
  }

  /** The dot at the end belongs to a word: an abbreviation or a list marker. */
  predicate PartOfWord(buf: string) {
    EndsWithAbbreviation(buf) || EndsWithListMarker(buf)
  }

  /** The dots at the end, except a first one that belongs to a word. */
  ghost function CountedDots(buf: string): (n: nat)
    ensures Dots(buf) - 1 <= n <= Dots(buf)
  {
    var d := Dots(buf);
    if d > 0 && PartOfWord(buf[..|buf| - d + 1]) then d - 1 else d
  }

  /** The buffer ends in a terminator that may still become the end of a sentence. */
  ghost predicate Open(buf: string) {
    buf != "" &&
    var last := buf[|buf| - 1];
    if last == '.' then CountedDots(buf) >= 1 else IsTerminator(last) && CountedDots(buf[..|buf| - 1]) < 2
  }

  /** The deferred terminator is a function of the buffer. */
  ghost predicate Marked(s: Split) {
    s.mode == Normal ==> (s.pending.Some? <==> Open(s.buf)) && (s.pending.Some? ==> s.dotRun == CountedDots(s.buf))
  }

  lemma DotsStep(buf: string, c: char)
    ensures Dots(buf + [c]) == if c == '.' then Dots(buf) + 1 else 0
  {
    assert (buf + [c])[..|buf|] == buf;
  }

  lemma CountedStep(buf: string, c: char)
    ensures c != '.' ==> CountedDots(buf + [c]) == 0
    ensures c == '.' && Dots(buf) > 0 ==> CountedDots(buf + [c]) == CountedDots(buf) + 1
    ensures c == '.' && Dots(buf) == 0 ==> CountedDots(buf + [c]) == if PartOfWord(buf + [c]) then 0 else 1
  {
    hide Dots, PartOfWord;
    DotsStep(buf, c);
    var d, longer := Dots(buf), buf + [c];
    if c == '.' {
      assert longer[..|longer| - (d + 1) + 1] == if d > 0 then buf[..|buf| - d + 1] else longer;
    }
  }

  lemma LoweredLast(s: string)
    requires s != ""
    ensures Lowered(s) != "" && Lowered(s)[|Lowered(s)| - 1] == ToLower(s[|s| - 1])
  {}

  lemma NoAbbreviationEndsInDot(w: string)
    requires w in ABBREVIATIONS
    ensures w != "" && w[|w| - 1] != '.'
  {}

  /** A dot after a dot belongs to no word. */
  lemma SecondDot(buf: string)
    requires Dots(buf) > 0
    ensures !PartOfWord(buf + ['.'])
  {
    hide Lowered;
    var longer := buf + ['.'];
    var end := |longer| - 1;
    assert longer[end - 1] == '.';
    var i := WordStart(longer, end, true);
    if i != end && Lowered(longer[i..end]) in ABBREVIATIONS {
      LoweredLast(longer[i..end]);
      NoAbbreviationEndsInDot(Lowered(longer[i..end]));
    }
  }

  lemma ThreeDots(buf: string)
    ensures EndsWith(buf, "...") ==> Dots(buf) >= 3
  {
    if EndsWith(buf, "...") {
      var n := |buf| - 3;
      assert buf[n..] == "...";
      assert buf[n] == buf[n..][0] && buf[n + 1] == buf[n..][1] && buf[n + 2] == buf[n..][2];
      assert buf == buf[..n] + ['.'] + ['.'] + ['.'];
      DotsStep(buf[..n], '.');
      DotsStep(buf[..n] + ['.'], '.');
      DotsStep(buf[..n] + ['.'] + ['.'], '.');
    }
  }

  /** What deferring a terminator does to a buffer in which none is open. */
  lemma DeferMarks(s: Split, buf: string, c: char)
    requires s.buf == buf + [c] && IsTerminator(c) && !Open(buf)
    ensures Defer(s, c).pending.Some? <==> Open(s.buf)
    ensures Defer(s, c).pending.Some? ==> Defer(s, c).dotRun == CountedDots(s.buf)
  {
    hide Dots, EndsWithAbbreviation, EndsWithListMarker, CountedDots, EndsWithDecimal;
    CountedStep(buf, c);
    DotsStep(buf, c);
    ThreeDots(s.buf);
    assert s.buf[..|buf|] == buf;
    if c == '.' {
      if Dots(buf) > 0 { SecondDot(buf); }
      NotTheCharacter(s.buf);
    } else {
      WordsEndInDot(s.buf);
      NotTheCharacter(s.buf);
    }
  }

  lemma WordsEndInDot(buf: string)
    ensures PartOfWord(buf) || EndsWithDecimal(buf) ==> buf != "" && buf[|buf| - 1] == '.'
  {}

  lemma NotTheCharacter(buf: string)
    requires buf != "" && IsTerminator(buf[|buf| - 1])
    ensures EndsWithEllipsis(buf) ==> EndsWith(buf, "...")
  {}

  lemma ClassifyMarks(cfg: Config, s: Split, buf: string, c: char)
    requires s.buf == buf + [c] && s.pending.None? && !Open(buf)
    ensures Marked(Classify(cfg, s, c).state)
  {
    hide CountedDots, Dots, EndsWithAbbreviation, EndsWithListMarker, EndsWithDecimal, EndsWithEllipsis;
    if IsTerminator(c) { DeferMarks(s, buf, c); }
  }

  lemma OneCharacter(c: char)
    ensures !Open("") && [c] == "" + [c]
  {}

  lemma StepMarks(cfg: Config, s: Split, c: char)
    requires PendingIsTail(s) && Marked(s)
    ensures Marked(StepChar(cfg, s, c).state)
  {
    hide Classify, CountedDots, EndsWith;
    var s1 := Append(cfg, s, c);
    CountedStep(s.buf, c);
    assert s1.buf[..|s.buf|] == s.buf;
    if s1.mode == Normal {
      if s.mode == InCodeFence {
        LastTick(s.buf, c);
        FenceEndsInTick(s.buf, c);
        TickMarks(cfg, s1, c);
      } else if s.pending.None? {
        ClassifyMarks(cfg, s1, s.buf, c);
      } else if s.dotRun < 2 && !IsDigit(c) && !(c == '.' && s.buf[s.pending.value] == '.') {
        PendingIsLast(s);
        OneCharacter(c);
        var rest := s1.(buf := [c], sinceTerminator := 1, pending := None);
        assert s1.buf[|s.buf|..] == [c];
        ClassifyMarks(cfg, rest, "", c);
      }
    }
  }

  lemma FenceEndsInTick(buf: string, c: char)
    ensures EndsWith(buf + [c], FENCE) ==> c == '`'
  {
    if EndsWith(buf + [c], FENCE) { assert (buf + [c])[|buf| - 2..][2] == '`'; }
  }

  lemma TickMarks(cfg: Config, s: Split, c: char)
    requires s.buf != "" && s.buf[|s.buf| - 1] == c == '`' && s.pending.None?
    ensures Marked(Classify(cfg, s, c).state)
  {}

  lemma StartMarked()
    ensures Marked(START)
  {}

  lemma {:induction false} FeedMarks(cfg: Config, text: string)
    ensures Marked(Feed(cfg, START, text).state)
  {
    hide StepChar, Marked, PendingIsTail;
    if text == "" {
      StartMarked();
    } else {
      FeedMarks(cfg, text[..|text| - 1]);
      FeedLinked(cfg, text[..|text| - 1]);
      StepMarks(cfg, Feed(cfg, START, text[..|text| - 1]).state, text[|text| - 1]);
    }
  }

  /** The splitter cuts between what it has and the next character. */
  ghost predicate CutsBefore(s: Split, c: char) {
    && s.mode == Normal && Open(s.buf)
    && CountedDots(s.buf) < 2 && !IsDigit(c) && !(c == '.' && s.buf[|s.buf| - 1] == '.')
  }

  /** It cuts after the next character, because no terminator came for too long; this is not looked at
      while an ellipsis or a number goes on. */
  ghost predicate CutsAfter(cfg: Config, s: Split, c: char) {
    && s.mode == Normal && IsPause(c) && (Open(s.buf) ==> CutsBefore(s, c))
    && (if CutsBefore(s, c) then 1 else s.sinceTerminator) + 1 >= cfg.maxSentenceChars
  }

  lemma ModeAfter(cfg: Config, s: Split, c: char)
    ensures Append(cfg, s, c).mode != s.mode ==> c == '`' && s.buf != "" && s.buf[|s.buf| - 1] == '`'
  {
    LastTick(s.buf, c);
    FenceEndsInTick(s.buf, c);
  }

  lemma StepCuts(cfg: Config, s: Split, c: char)
    requires PendingIsTail(s) && Marked(s)
    ensures var cut := CutsBefore(s, c);
            StepChar(cfg, s, c).segments ==
            (if cut then [s.buf] else []) + (if CutsAfter(cfg, s, c) then [if cut then [c] else s.buf + [c]] else [])
  {
    hide CountedDots, EndsWith, Defer;
    ModeAfter(cfg, s, c);
    OpenEndsInTerminator(s.buf);
    DotsOfLast(s.buf);
    var s1 := Append(cfg, s, c);
    assert s1.buf[..|s.buf|] == s.buf && s1.buf[|s.buf|..] == [c];
    if s.pending.Some? && s.dotRun < 2 { PendingIsLast(s); }
  }

  /** Exactly where the next character makes the splitter cut. Whether it does is a function of the fence
      mode of the text, the buffer, the character, and for forced cuts the length counter. */
  lemma CutsExactly(cfg: Config, text: string, c: char)
    ensures var s := Feed(cfg, START, text).state;
            var cut := CutsBefore(s, c);
            && s.mode == FenceMode(cfg, text)
            && Feed(cfg, START, text + [c]).segments ==
               Feed(cfg, START, text).segments
               + ((if cut then [s.buf] else []) + (if CutsAfter(cfg, s, c) then [if cut then [c] else s.buf + [c]] else []))
  {
    hide StepChar, CutsBefore, CutsAfter, Marked, PendingIsTail, FenceMode, GoodCuts, Concat, Ticks;
    FeedLinked(cfg, text);
    FeedMarks(cfg, text);
    assert (text + [c])[..|text|] == text;
    StepCuts(cfg, Feed(cfg, START, text).state, c);
  }

  lemma OpenEndsInTerminator(buf: string)
    ensures Open(buf) ==> buf != "" && IsTerminator(buf[|buf| - 1])
  {}

  lemma DotsOfLast(buf: string)
    ensures CountedDots(buf) > 0 ==> buf != "" && buf[|buf| - 1] == '.'
  {}

  /** A single terminator that belongs to no word is always cut after, outside a fence, unless a digit or
      another dot follows it. */
  lemma SingleTerminatorCuts(s: Split, c: char)
    requires s.mode == Normal && !IsDigit(c) && s.buf != "" && IsTerminator(s.buf[|s.buf| - 1])
    requires if s.buf[|s.buf| - 1] == '.' then Dots(s.buf) == 1 && !PartOfWord(s.buf) && c != '.'
             else Dots(s.buf[..|s.buf| - 1]) == 0
    ensures CutsBefore(s, c)
  {
    assert s.buf[..|s.buf|] == s.buf;
    hide Dots, PartOfWord;
  }

  /** After two or more dots the text is cut if and only if there are two and the first belongs to a word. */
  lemma CutAfterDotsExactlyWhen(s: Split, c: char)
    requires s.mode == Normal && !IsDigit(c) && c != '.' && Dots(s.buf) >= 2
    ensures CutsBefore(s, c) <==> Dots(s.buf) == 2 && PartOfWord(s.buf[..|s.buf| - 1])
  {
    hide Dots, PartOfWord;
  }

  lemma FeedOneMore(cfg: Config, text: string, c: char)
    ensures Feed(cfg, START, text + [c]).state == StepChar(cfg, Feed(cfg, START, text).state, c).state
  {
    assert (text + [c])[..|text|] == text;
  }

  lemma FirstDigit(cfg: Config)
    ensures StepChar(cfg, START, '1').state == START.(buf := "1", sinceTerminator := 1)
  {
    assert Append(cfg, START, '1') == START.(buf := "1");
    assert StepChar(cfg, START, '1') == Grow(cfg, Append(cfg, START, '1'), '1');
  }

  lemma FeedTwoDots(cfg: Config)
    ensures Feed(cfg, START, "1..").state.buf == "1.." && Feed(cfg, START, "1..").state.mode == Normal
  {
    assert "" + ['1'] == "1" && "1" + ['.'] == "1." && "1." + ['.'] == "1..";
    assert Feed(cfg, START, "").state == START;
    hide Feed;
    FeedOneMore(cfg, "", '1');
    FirstDigit(cfg);
    assert Feed(cfg, START, "1").state == START.(buf := "1", sinceTerminator := 1);
    FeedOneMore(cfg, "1", '.');
    MarkerDot();
    assert Feed(cfg, START, "1.").state.buf == "1.";
    FeedOneMore(cfg, "1.", '.');
  }

  lemma MarkerDot()
    ensures EndsWithListMarker("1.")
  {
    assert WordStart("1.", 0, false) == 0 && WordStart("1.", 1, false) == 0;
  }

  /** Two dots are not always an ellipsis: after a list marker the second one ends a sentence. */
  lemma TwoDotsCut(cfg: Config)
    ensures CutsBefore(Feed(cfg, START, "1..").state, ' ') && Dots(Feed(cfg, START, "1..").state.buf) == 2
  {
    FeedTwoDots(cfg);
    MarkerDot();
    assert "1.."[..2] == "1." && "1" + ['.'] + ['.'] == "1..";
    DotsStep("1", '.');
    DotsStep("1" + ['.'], '.');
    CutAfterDotsExactlyWhen(Feed(cfg, START, "1..").state, ' ');
  }

  // ----- What the word scans find -----

  predicate WordChar(c: char, dots: bool) { IsAlnum(c) || (dots && c == '.') }

  /** The word that ends at `end` begins at `i`: only word characters from there on, and none before. */
  ghost predicate WordFrom(buf: string, i: nat, end: nat, dots: bool) {
    && i <= end <= |buf|
    && (forall k :: i <= k < end ==> WordChar(buf[k], dots))
    && (i > 0 ==> !WordChar(buf[i - 1], dots))
  }

  lemma {:induction false} WordStartFinds(buf: string, end: nat, dots: bool)
    requires end <= |buf|
    ensures WordFrom(buf, WordStart(buf, end, dots), end, dots)
    decreases end
  {
    if end > 0 && WordChar(buf[end - 1], dots) { WordStartFinds(buf, end - 1, dots); }
  }

  lemma OneWord(buf: string, i: nat, j: nat, end: nat, dots: bool)
    requires WordFrom(buf, i, end, dots) && WordFrom(buf, j, end, dots)
    ensures i == j
  {}

  /** Equal up to letter case, for a character `l` of the table. */
  predicate SameLetter(c: char, l: char) {
    c == l || ('A' <= c <= 'Z' && c as int + ('a' as int - 'A' as int) == l as int)
  }

  lemma {:induction false} LoweredAt(s: string)
    ensures |Lowered(s)| == |s| && forall k :: 0 <= k < |s| ==> Lowered(s)[k] == ToLower(s[k])
  {
    if s != "" { LoweredAt(s[..|s| - 1]); }
  }

  lemma TableIsLower(w: string)
    requires w in ABBREVIATIONS
    ensures forall k :: 0 <= k < |w| ==> !IsUpper(w[k])
    ensures 2 <= |w|
  {}

  /** The characters from `i` on are the table's word `w`, whatever their case. */
  ghost predicate Reads(buf: string, i: nat, w: string) {
    i + |w| <= |buf| && forall k :: 0 <= k < |w| ==> SameLetter(buf[i + k], w[k])
  }

  lemma LoweredReads(buf: string, i: nat, w: string)
    requires w in ABBREVIATIONS && i + |w| <= |buf|
    ensures Lowered(buf[i..i + |w|]) == w <==> Reads(buf, i, w)
  {
    LoweredAt(buf[i..i + |w|]);
    TableIsLower(w);
  }

  /** The last word, before the dot at the end, is an abbreviation of the table. */
  ghost predicate AbbreviationAt(buf: string, i: nat, w: string) {
    && |buf| >= 2 && buf[|buf| - 1] == '.' && w in ABBREVIATIONS
    && i + |w| == |buf| - 1 && WordFrom(buf, i, |buf| - 1, true) && Reads(buf, i, w)
  }

  /** The scan for an abbreviation says yes exactly when the last word is one, in any letter case. */
  lemma AbbreviationExactly(buf: string)
    ensures EndsWithAbbreviation(buf) <==> exists i, w :: AbbreviationAt(buf, i, w)
  {
    hide Lowered, WordStart, Reads;
    if EndsWithDot(buf) {
      var end := |buf| - 1;
      var start := WordStart(buf, end, true);
      WordStartFinds(buf, end, true);
      if start != end && Lowered(buf[start..end]) in ABBREVIATIONS {
        var w := Lowered(buf[start..end]);
        LoweredAt(buf[start..end]);
        LoweredReads(buf, start, w);
        assert AbbreviationAt(buf, start, w);
      }
      forall i, w | AbbreviationAt(buf, i, w) ensures EndsWithAbbreviation(buf) {
        OneWord(buf, i, start, end, true);
        TableIsLower(w);
        LoweredReads(buf, i, w);
      }
    }
  }

  /** The last word before the dot is a list marker: one to three letters or digits, first in the buffer
      or after a blank. */
  ghost predicate MarkerAt(buf: string, i: nat) {
    && |buf| >= 2 && buf[|buf| - 1] == '.' && WordFrom(buf, i, |buf| - 1, false)
    && 1 <= |buf| - 1 - i <= 3 && (i > 0 ==> IsWhitespace(buf[i - 1]))
  }

  lemma ListMarkerExactly(buf: string)
    ensures EndsWithListMarker(buf) <==> exists i :: MarkerAt(buf, i)
  {
    hide WordStart;
    if EndsWithDot(buf) {
      var end := |buf| - 1;
      WordStartFinds(buf, end, false);
      if EndsWithListMarker(buf) { assert MarkerAt(buf, WordStart(buf, end, false)); }
      forall i | MarkerAt(buf, i) ensures EndsWithListMarker(buf) { OneWord(buf, i, WordStart(buf, end, false), end, false); }
    }
  }

  // ----- Where the buffer begins -----

  lemma StepBuffer(cfg: Config, s: Split, c: char)
    requires PendingIsTail(s) && Marked(s)
    ensures StepChar(cfg, s, c).state.buf ==
            if CutsAfter(cfg, s, c) then "" else if CutsBefore(s, c) then [c] else s.buf + [c]
  {
    hide CountedDots, EndsWith, EndsWithAbbreviation, EndsWithListMarker, EndsWithEllipsis;
    ModeAfter(cfg, s, c);
    OpenEndsInTerminator(s.buf);
    DotsOfLast(s.buf);
    var s1 := Append(cfg, s, c);
    assert s1.buf[|s.buf|..] == [c];
    if s.pending.Some? && s.dotRun < 2 { PendingIsLast(s); }
  }

  lemma FeedBuffer(cfg: Config, text: string, c: char)
    ensures var s := Feed(cfg, START, text).state;
            Feed(cfg, START, text + [c]).state.buf ==
            if CutsAfter(cfg, s, c) then "" else if CutsBefore(s, c) then [c] else s.buf + [c]
  {
    hide StepChar, CutsBefore, CutsAfter, Marked, PendingIsTail, Linked;
    FeedLinked(cfg, text);
    FeedMarks(cfg, text);
    FeedOneMore(cfg, text, c);
    StepBuffer(cfg, Feed(cfg, START, text).state, c);
  }

  /** The buffer is the end of the text, and begins after a terminator or a pause. */
  ghost predicate BeginsWell(text: string, buf: string) {
    && |buf| <= |text| && buf == text[|text| - |buf|..]
    && (|buf| < |text| ==> var before := text[|text| - |buf| - 1]; IsTerminator(before) || IsPause(before))
  }

  lemma BeginsAnew(text: string, buf: string, c: char)
    requires BeginsWell(text, buf)
    ensures IsPause(c) ==> BeginsWell(text + [c], "")
    ensures buf != "" && IsTerminator(buf[|buf| - 1]) ==> BeginsWell(text + [c], [c])
  {
    if buf != "" { assert text[|text| - 1] == buf[|buf| - 1]; }
  }

  lemma BeginsAsBefore(text: string, buf: string, c: char)
    requires BeginsWell(text, buf)
    ensures BeginsWell(text + [c], buf + [c])
  {
    assert (text + [c])[|text| - |buf|..] == buf + [c];
  }

  lemma {:induction false} BufferBeginsWell(cfg: Config, text: string)
    ensures BeginsWell(text, Feed(cfg, START, text).state.buf)
  {
    hide StepChar, BeginsWell, Open, CountedDots;
    if text == "" {
      assert BeginsWell("", "") by { BeginsWithNothing(); }
    } else {
      var init, c := text[..|text| - 1], text[|text| - 1];
      BufferBeginsWell(cfg, init);
      FeedBuffer(cfg, init, c);
      assert text == init + [c];
      hide Feed;
      var buf := Feed(cfg, START, init).state.buf;
      OpenEndsInTerminator(buf);
      BeginsAnew(init, buf, c);
      BeginsAsBefore(init, buf, c);
    }
  }

  lemma BeginsWithNothing()
    ensures BeginsWell("", "")
  {}

  // ----- No cut after an abbreviation -----

  /** Where the table's words have dots. */
  lemma TableDots(w: string, k: nat)
    requires w in ABBREVIATIONS && k < |w| && w[k] == '.'
    ensures (|w| == 3 && k == 1) || (w == "u.s.a" && (k == 1 || k == 3))
  {}

  lemma TableEnds(w: string)
    requires w in ABBREVIATIONS
    ensures |w| >= 2 && w[|w| - 1] != '.' && w[0] != '.'
  {}

  lemma OneDot(buf: string)
    requires |buf| >= 2 && buf[|buf| - 1] == '.' && buf[|buf| - 2] != '.'
    ensures Dots(buf) == 1
  {
    assert buf == buf[..|buf| - 1] + ['.'];
    DotsStep(buf[..|buf| - 1], '.');
  }

  /** A dot that belongs to a word leaves nothing open. */
  lemma WordDotIsClosed(buf: string)
    requires |buf| >= 2 && buf[|buf| - 1] == '.' && buf[|buf| - 2] != '.' && PartOfWord(buf)
    ensures !Open(buf)
  {
    OneDot(buf);
    assert buf[..|buf|] == buf;
  }

  /** The buffer holds the whole abbreviation. */
  lemma WholeWordIsClosed(text: string, buf: string, i: nat, w: string)
    requires AbbreviationAt(text, i, w) && BeginsWell(text, buf) && |text| - |buf| <= i
    ensures |buf| > |w| && !Open(buf)
  {
    hide Dots, Open;
    var j := i - (|text| - |buf|);
    assert forall k :: 0 <= k < |buf| ==> buf[k] == text[|text| - |buf| + k];
    assert AbbreviationAt(buf, j, w);
    AbbreviationExactly(buf);
    TableEnds(w);
    assert SameLetter(text[i + (|w| - 1)], w[|w| - 1]);
    WordDotIsClosed(buf);
  }

  /** The buffer begins inside the abbreviation, so after one of its dots. */
  lemma CutWord(text: string, buf: string, i: nat, w: string)
    requires AbbreviationAt(text, i, w) && BeginsWell(text, buf) && |text| - |buf| > i && buf != ""
    ensures |buf| == 2 || (w == "u.s.a" && |buf| == 4)
    ensures buf[|buf| - 1] == '.' && IsAlnum(buf[|buf| - 2])
    ensures |buf| == 4 ==> buf[1] == '.' && SameLetter(buf[0], 's') && SameLetter(buf[2], 'a')
  {
    var at := |text| - |buf|;
    assert WordChar(text[at - 1], true);
    var k := at - 1 - i;
    assert SameLetter(text[i + k], w[k]);
    TableIsLower(w);
    TableDots(w, k);
    TableEnds(w);
    assert SameLetter(text[i + (|w| - 1)], w[|w| - 1]) && WordChar(text[i + (|w| - 1)], true);
    assert forall j :: 0 <= j < |buf| ==> buf[j] == text[at + j];
    if |buf| == 4 {
      assert SameLetter(text[i + 2], w[2]) && SameLetter(text[i + 3], w[3]) && SameLetter(text[i + 4], w[4]);
    }
  }

  /** One letter and a dot are a list marker. */
  lemma LetterIsMarker(buf: string)
    requires |buf| == 2 && IsAlnum(buf[0]) && buf[1] == '.'
    ensures !Open(buf)
  {
    hide Dots, Open;
    assert MarkerAt(buf, 0);
    ListMarkerExactly(buf);
    WordDotIsClosed(buf);
  }

  /** A letter after a dot is no list marker. */
  lemma LetterAfterDot(buf: string)
    requires |buf| == 4 && buf[1] == '.' && IsAlnum(buf[2])
    ensures forall i: nat :: !MarkerAt(buf, i)
  {
    assert forall i: nat :: i < 3 && WordFrom(buf, i, 3, false) ==> i == 2;
  }

  lemma TwoLettersAreOpen(buf: string)
    requires |buf| == 4 && buf[1] == buf[3] == '.' && SameLetter(buf[0], 's') && SameLetter(buf[2], 'a')
    ensures Open(buf) && CountedDots(buf) == 1
  {
    assert !PartOfWord(buf) by {
      AbbreviationExactly(buf);
      ListMarkerExactly(buf);
      if exists i, w :: AbbreviationAt(buf, i, w) {
        var i, w :| AbbreviationAt(buf, i, w);
        assert WordFrom(buf, 0, 3, true);
        OneWord(buf, i, 0, 3, true);
        NotInTable(buf, w);
      }
      LetterAfterDot(buf);
    }
    OneDot(buf);
    assert buf[..4] == buf;
    hide PartOfWord, Dots;
  }

  lemma NotInTable(buf: string, w: string)
    requires |buf| == 4 && SameLetter(buf[0], 's') && Reads(buf, 0, w) && |w| == 3
    ensures w !in ABBREVIATIONS || w[0] == 's'
  {
    assert SameLetter(buf[0 + 0], w[0]);
  }

  /** The text's last word is an abbreviation, in any letter case: the text is not cut after its dot,
      except when the splitter has already cut the abbreviation `u.s.a` after its first dot. */
  lemma AbbreviationCutExactlyWhen(cfg: Config, text: string, c: char, i: nat, w: string)
    requires AbbreviationAt(text, i, w)
    ensures var s := Feed(cfg, START, text).state;
            CutsBefore(s, c) <==> w == "u.s.a" && |s.buf| == 4 && s.mode == Normal && !IsDigit(c) && c != '.'
  {
    var buf := Feed(cfg, START, text).state.buf;
    BufferBeginsWell(cfg, text);
    hide Feed, Open, CountedDots, AbbreviationAt, BeginsWell;
    if |text| - |buf| <= i {
      WholeWordIsClosed(text, buf, i, w);
    } else if buf == "" {
      OpenEndsInTerminator(buf);
    } else {
      CutWord(text, buf, i, w);
      if |buf| == 2 { LetterIsMarker(buf); } else { TwoLettersAreOpen(buf); }
    }
  }

  /** A character that is neither a pause nor a backtick, outside a fence. */
  lemma PlainCharacter(cfg: Config, text: string, c: char, more: string)
    requires more == text + [c] && !IsPause(c) && c != '`' && Feed(cfg, START, text).state.mode == Normal
    ensures var s, t := Feed(cfg, START, text).state, Feed(cfg, START, more).state;
            t.mode == Normal && t.buf == if CutsBefore(s, c) then [c] else s.buf + [c]
  {
    var s := Feed(cfg, START, text).state;
    FeedBuffer(cfg, text, c);
    FeedOneMore(cfg, text, c);
    ModeAfter(cfg, s, c);
    hide Feed, CutsBefore, Append, Classify, Open;
    StepMode(cfg, s, c);
  }

  lemma StepMode(cfg: Config, s: Split, c: char)
    requires InBuffer(s)
    ensures StepChar(cfg, s, c).state.mode == Append(cfg, s, c).mode
  {}

  lemma BracketDot()
    ensures Open("(u.") && CountedDots("(u.") == 1
  {
    var buf := "(u.";
    OneDot(buf);
    assert !PartOfWord(buf) by {
      AbbreviationExactly(buf);
      ListMarkerExactly(buf);
      assert forall i: nat :: i < 2 && WordFrom(buf, i, 2, false) ==> i == 1;
      forall i: nat, w | AbbreviationAt(buf, i, w) ensures |w| == 1 { OneWord(buf, i, 1, 2, true); }
      LongWords();
    }
    assert buf[..3] == buf;
  }

  lemma LongWords()
    ensures forall w :: w in ABBREVIATIONS ==> |w| >= 2
  {}

  ghost predicate Holds(cfg: Config, text: string, buf: string) {
    var s := Feed(cfg, START, text).state;
    s.mode == Normal && s.buf == buf
  }

  lemma Goes(cfg: Config, text: string, buf: string, c: char, more: string, longer: string)
    requires more == text + [c] && !IsPause(c) && c != '`' && Holds(cfg, text, buf)
    requires !Open(buf) && longer == buf + [c]
    ensures Holds(cfg, more, longer)
  {
    PlainCharacter(cfg, text, c, more);
  }

  lemma NothingOpen(buf: string)
    requires buf == "" || !IsTerminator(buf[|buf| - 1])
    ensures !Open(buf)
  {
    OpenEndsInTerminator(buf);
  }

  lemma CutFirst(cfg: Config)
    requires Holds(cfg, "(u.", "(u.")
    ensures Holds(cfg, "(u.s", "s")
  {
    BracketDot();
    PlainCharacter(cfg, "(u.", 's', "(u.s");
  }

  lemma ThenTheRest(cfg: Config)
    requires Holds(cfg, "(u.s", "s")
    ensures Holds(cfg, "(u.s.a.", "s.a.")
  {
    hide Open, Holds;
    NothingOpen("s");
    Goes(cfg, "(u.s", "s", '.', "(u.s.", "s.");
    LetterIsMarker("s.");
    Goes(cfg, "(u.s.", "s.", 'a', "(u.s.a", "s.a");
    NothingOpen("s.a");
    Goes(cfg, "(u.s.a", "s.a", '.', "(u.s.a.", "s.a.");
  }

  lemma FirstThree(cfg: Config)
    ensures Holds(cfg, "(u.", "(u.")
  {
    assert Holds(cfg, "", "");
    hide Open, Holds;
    NothingOpen("");
    Goes(cfg, "", "", '(', "(", "(");
    NothingOpen("(");
    Goes(cfg, "(", "(", 'u', "(u", "(u");
    NothingOpen("(u");
    Goes(cfg, "(u", "(u", '.', "(u.", "(u.");
  }

  lemma Bracketed()
    ensures AbbreviationAt("(u.s.a.", 1, "u.s.a")
  {
    assert Reads("(u.s.a.", 1, "u.s.a") && WordFrom("(u.s.a.", 1, 6, true);
    hide Reads, WordFrom;
  }

  lemma BlankCuts(cfg: Config)
    requires Holds(cfg, "(u.s.a.", "s.a.") && Open("s.a.") && CountedDots("s.a.") == 1
    ensures CutsBefore(Feed(cfg, START, "(u.s.a.").state, ' ')
  {
    hide Feed, Open, CountedDots;
  }

  /** In `(u.s.a. ` the splitter cuts after `(u.`, and then after the abbreviation's own last dot. */
  lemma BracketedAbbreviationIsCut(cfg: Config)
    ensures AbbreviationAt("(u.s.a.", 1, "u.s.a") && CutsBefore(Feed(cfg, START, "(u.s.a.").state, ' ')
  {
    hide Feed, Open, CountedDots, CutsBefore, AbbreviationAt, Holds;
    Bracketed();
    FirstThree(cfg);
    CutFirst(cfg);
    ThenTheRest(cfg);
    TwoLettersAreOpen("s.a.");
    BlankCuts(cfg);
  }

  /** No text is cut after an abbreviation that has no dot inside, whatever its letter case. */
  lemma PlainAbbreviationNotCut(cfg: Config, text: string, c: char, i: nat, w: string)
    requires AbbreviationAt(text, i, w) && '.' !in w
    ensures !CutsBefore(Feed(cfg, START, text).state, c)
  {
    AbbreviationCutExactlyWhen(cfg, text, c, i, w);
    assert "u.s.a"[1] == '.';
  }

  // ----- The cut without punctuation -----

  ghost function Terminators(s: string): (n: nat)
    ensures n <= |s|
  {
    if s == "" then 0 else Terminators(s[..|s| - 1]) + if IsTerminator(s[|s| - 1]) then 1 else 0
  }

  /** The length counter is the buffer's length, give or take its terminators and one. */
  ghost predicate Counts(s: Split) {
    |s.buf| - Terminators(s.buf) <= s.sinceTerminator <= |s.buf| + 1
  }

  lemma StepKeepsCounts(cfg: Config, s: Split, c: char)
    requires InBuffer(s) && Counts(s)
    ensures Counts(StepChar(cfg, s, c).state)
  {
    hide EndsWith, EndsWithAbbreviation, EndsWithListMarker, EndsWithDecimal, EndsWithEllipsis;
    assert (s.buf + [c])[..|s.buf|] == s.buf;
  }

  lemma {:induction false} FeedCounts(cfg: Config, text: string)
    ensures Counts(Feed(cfg, START, text).state)
  {
    hide StepChar;
    if text != "" {
      FeedCounts(cfg, text[..|text| - 1]);
      StepKeepsCounts(cfg, Feed(cfg, START, text[..|text| - 1]).state, text[|text| - 1]);
    }
  }

  /** A pause cuts off a buffer with nothing open as soon as the buffer without its terminators reaches the
      limit, and never when, even with two more characters, it is below the limit. */
  lemma LongTextIsCut(cfg: Config, text: string, c: char)
    requires IsPause(c) && Feed(cfg, START, text).state.mode == Normal
    ensures var s := Feed(cfg, START, text).state;
            && (!Open(s.buf) && |s.buf| + 1 - Terminators(s.buf) >= cfg.maxSentenceChars ==> CutsAfter(cfg, s, c))
            && (CutsAfter(cfg, s, c) ==> |s.buf| + 2 >= cfg.maxSentenceChars)
  {
    FeedCounts(cfg, text);
    hide Feed, Open, CountedDots;
  }

  // ----- What a sentence is of its segment -----

  /** Leading whitespace goes and nothing else. */
  lemma {:induction false} TrimmedIs(s: string) returns (k: nat)
    ensures k <= |s| && Trimmed(s) == s[k..]
    ensures forall j :: 0 <= j < k ==> IsWhitespace(s[j])
    ensures k < |s| ==> !IsWhitespace(s[k])
  {
    if s != "" && IsWhitespace(s[0]) {
      var rest := TrimmedIs(s[1..]);
      k := rest + 1;
      assert s[1..][rest..] == s[k..];
      assert forall j :: 0 < j < k ==> s[j] == s[1..][j - 1];
    } else {
      k := 0;
      assert s[0..] == s;
    }
  }

  /** A segment of whitespace gives no sentence; another one gives itself from its first other character on. */
  lemma OneSentenceEach(segments: seq<string>, x: string) returns (k: nat)
    ensures k <= |x| && (forall j :: 0 <= j < k ==> IsWhitespace(x[j])) && (k < |x| ==> !IsWhitespace(x[k]))
    ensures Sentences(segments + [x]) == Sentences(segments) + if k == |x| then [] else [x[k..]]
  {
    k := TrimmedIs(x);
    assert (segments + [x])[..|segments|] == segments;
  }
}
