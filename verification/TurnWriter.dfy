/** TurnWriter of src/dialogue/turn_writer.cpp: what is persisted of an assistant turn. Timestamps
    are left out; a posted row stands for the database write. */
module TurnWriter {
  import opened Events
  import opened Wrappers

  datatype Assistant = Assistant(sentences: seq<string>, played: seq<bool>, lang: string)

  const BLANK: Assistant := Assistant([], [], "")

  type Table = map<TurnId, Assistant>

  /** `interruptedAt` is the number of sentences persisted of a cancelled turn. */
  datatype Row = Row(turn: TurnId, text: string, lang: string, interruptedAt: Option<nat>)

  // ----- What each event does -----

  function Resized<T>(s: seq<T>, n: nat, filler: T): (r: seq<T>)
    ensures |r| == n
  {
    if n <= |s| then s[..n] else s + seq(n - |s|, i => filler)
  }

  function Grown(st: Assistant, seqNo: nat, have: nat): Assistant {
    if seqNo >= have then
      st.(sentences := Resized(st.sentences, seqNo + 1, ""), played := Resized(st.played, seqNo + 1, false))
    else st
  }

  predicate Aligned(st: Assistant) {
    |st.sentences| == |st.played|
  }

  function AddSentence(st: Assistant, seqNo: nat, text: string, lang: string): (r: Assistant)
    requires Aligned(st)
    ensures Aligned(r)
  {
    var g := Grown(st.(lang := if st.lang == "" then lang else st.lang), seqNo, |st.sentences|);
    g.(sentences := g.sentences[seqNo := text])
  }

  function MarkPlayed(st: Assistant, seqNo: nat): (r: Assistant)
    requires Aligned(st)
    ensures Aligned(r)
  {
    var g := Grown(st, seqNo, |st.played|);
    g.(played := g.played[seqNo := true])
  }

  ghost predicate Ok(t: Table) {
    forall id :: id in t ==> Aligned(t[id])
  }

  function EntryOr(t: Table, id: TurnId, otherwise: Assistant): Assistant {
    if id in t then t[id] else otherwise
  }

  function Handle(t: Table, e: Event): (r: Table)
    requires Ok(t)
    ensures Ok(r)
  {
    match e
    case LlmStarted(turn) => t[turn := EntryOr(t, turn, BLANK)]
    case LlmSentence(turn, seqNo, text, lang) => t[turn := AddSentence(EntryOr(t, turn, BLANK), seqNo, text, lang)]
    case PlaybackFinished(turn, seqNo) => if turn in t then t[turn := MarkPlayed(t[turn], seqNo)] else t
    case LlmFinished(turn, _) => t - {turn}
    case _ => t
  }

  /** The sentences that are kept, in order. */
  function Kept(sentences: seq<string>, played: seq<bool>, cancelled: bool): seq<string>
    requires |sentences| == |played|
  {
    if sentences == [] then [] else
    var n := |sentences| - 1;
    Kept(sentences[..n], played[..n], cancelled) +
    if sentences[n] == "" || (cancelled && !played[n]) then [] else [sentences[n]]
  }

  function Spaced(words: seq<string>): string {
    if words == [] then "" else
    var n := |words| - 1;
    if n == 0 then words[n] else Spaced(words[..n]) + " " + words[n]
  }

  /** The row a finished turn leaves: none when it was cancelled before a sentence was heard. */
  function RowOf(turn: TurnId, st: Assistant, cancelled: bool): Option<Row>
    requires Aligned(st)
  {
    var kept := Kept(st.sentences, st.played, cancelled);
    if cancelled && kept == [] then None
    else Some(Row(turn, Spaced(kept), st.lang, if cancelled then Some(|kept|) else None))
  }

  class TurnWriter {
    var inFlight: Table
    var posted: seq<Row>
    const session: nat

    ghost predicate Valid()
      reads this
    {
      Ok(inFlight)
    }

    constructor (s: nat)
      ensures Valid() && inFlight == map[] && posted == [] && session == s
    {
      inFlight, posted, session := map[], [], s;
    }

    method HandleStarted(turn: TurnId)
      requires Valid()
      modifies this`inFlight
      ensures Valid() && inFlight == Handle(old(inFlight), LlmStarted(turn))
    {
      if turn !in inFlight { inFlight := inFlight[turn := BLANK]; }
    }

    method HandleSentence(turn: TurnId, seqNo: nat, text: string, lang: string)
      requires Valid()
      modifies this`inFlight
      ensures Valid() && inFlight == Handle(old(inFlight), LlmSentence(turn, seqNo, text, lang))
    {
      var st := EntryOr(inFlight, turn, BLANK);
      if st.lang == "" { st := st.(lang := lang); }
      if seqNo >= |st.sentences| {
        st := st.(sentences := Resized(st.sentences, seqNo + 1, ""));
        st := st.(played := Resized(st.played, seqNo + 1, false));
      }
      st := st.(sentences := st.sentences[seqNo := text]);
      inFlight := inFlight[turn := st];
    }

    method HandlePlaybackFinished(turn: TurnId, seqNo: nat)
      requires Valid()
      modifies this`inFlight
      ensures Valid() && inFlight == Handle(old(inFlight), PlaybackFinished(turn, seqNo))
    {
      if turn !in inFlight { return; }
      var st := inFlight[turn];
      if seqNo >= |st.played| {
        st := st.(sentences := Resized(st.sentences, seqNo + 1, ""));
        st := st.(played := Resized(st.played, seqNo + 1, false));
      }
      st := st.(played := st.played[seqNo := true]);
      inFlight := inFlight[turn := st];
    }

    method HandleFinished(turn: TurnId, cancelled: bool)
      requires Valid()
      modifies this
      ensures Valid() && inFlight == Handle(old(inFlight), LlmFinished(turn, cancelled))
      ensures var row := if old(turn in inFlight) && session != 0 then RowOf(turn, old(inFlight)[turn], cancelled) else None;
              posted == if row.Some? then old(posted) + [row.value] else old(posted)
    {
      if turn !in inFlight { return; }
      var st := inFlight[turn];
      inFlight := inFlight - {turn};
      if session == 0 { return; }
      var text, count := Joined(st, cancelled);
      if cancelled && count == 0 { return; }
      posted := posted + [Row(turn, text, st.lang, if cancelled then Some(count) else None)];
    }
  }

  /** The loop of the finish handler over the sentences. */
  method Joined(st: Assistant, cancelled: bool) returns (text: string, count: nat)
    requires Aligned(st)
    ensures var kept := Kept(st.sentences, st.played, cancelled); text == Spaced(kept) && count == |kept|
  {
    hide Kept, Spaced;
    text, count := "", 0;
    ghost var kept: seq<string> := [];
    NothingKept(cancelled);
    for i := 0 to |st.sentences|
      invariant kept == Kept(st.sentences[..i], st.played[..i], cancelled)
      invariant text == Spaced(kept) && count == |kept| && (text == "" <==> kept == [])
    {
      OneMoreKept(st.sentences[..i], st.played[..i], cancelled, st.sentences[i], st.played[i]);
      OneMoreSpaced(kept, st.sentences[i]);
      assert st.sentences[..i + 1] == st.sentences[..i] + [st.sentences[i]];
      assert st.played[..i + 1] == st.played[..i] + [st.played[i]];
      var s := st.sentences[i];
      if s == "" { continue; }
      if cancelled && !st.played[i] { continue; }
      if text != "" { text := text + " "; }
      text := text + s;
      count := count + 1;
      kept := kept + [s];
    }
    assert st.sentences[..|st.sentences|] == st.sentences && st.played[..|st.played|] == st.played;
  }

  lemma NothingKept(cancelled: bool)
    ensures Kept([], [], cancelled) == [] && Spaced([]) == ""
  {}

  lemma OneMoreKept(sentences: seq<string>, played: seq<bool>, cancelled: bool, s: string, heard: bool)
    requires |sentences| == |played|
    ensures var kept := Kept(sentences, played, cancelled);
            Kept(sentences + [s], played + [heard], cancelled) ==
            if s == "" || (cancelled && !heard) then kept else kept + [s]
  {
    assert (sentences + [s])[..|sentences|] == sentences && (played + [heard])[..|played|] == played;
    var kept := Kept(sentences, played, cancelled);
    assert kept + [] == kept;
  }

  lemma OneMoreSpaced(words: seq<string>, word: string)
    ensures Spaced(words + [word]) == if words == [] then word else Spaced(words) + " " + word
  {
    assert (words + [word])[..|words|] == words;
  }

  // ----- A turn between its start and its finish -----

  function Run(t: Table, es: seq<Event>): (r: Table)
    requires Ok(t)
    ensures Ok(r)
  {
    if es == [] then t else Handle(Run(t, es[..|es| - 1]), es[|es| - 1])
  }

  predicate IsSentence(e: Event, turn: TurnId, k: nat) {
    e.LlmSentence? && e.turn == turn && e.seqNo == k
  }

  predicate SameNumber(d: Event, e: Event, turn: TurnId) {
    d.LlmSentence? && d.turn == turn && IsSentence(e, turn, d.seqNo)
  }

  /** The events that concern a turn: its sentences and its playbacks. */
  predicate Concerns(e: Event, turn: TurnId) {
    (e.LlmSentence? || e.PlaybackFinished?) && e.turn == turn
  }

  /** Two sentences of the turn with the same number carry the same text. */
  ghost predicate Numbered(es: seq<Event>, turn: TurnId) {
    forall i, j :: 0 <= i < |es| && 0 <= j < |es| && SameNumber(es[i], es[j], turn) ==> es[i].text == es[j].text
  }

  ghost predicate Unfinished(es: seq<Event>, turn: TurnId) {
    forall i :: 0 <= i < |es| ==> !(es[i].LlmFinished? && es[i].turn == turn)
  }

  /** What the entry of a turn says about its events, whatever their order: a sentence slot holds the
      text with that number or nothing, a flag tells whether a playback with that number came, and
      the last slot was asked for by some event. */
  ghost predicate Reflects(es: seq<Event>, turn: TurnId, st: Assistant) {
    && Aligned(st)
    && (forall e :: e in es && Concerns(e, turn) ==> e.seqNo < |st.sentences|)
    && (st.sentences == [] || exists e :: e in es && Concerns(e, turn) && e.seqNo == |st.sentences| - 1)
    && SlotsReflect(es, turn, st.sentences)
    && (forall k :: 0 <= k < |st.played| ==> (st.played[k] <==> PlaybackFinished(turn, k) in es))
    && LanguageReflects(es, turn, st.lang)
  }

  ghost predicate SlotsReflect(es: seq<Event>, turn: TurnId, sentences: seq<string>) {
    && (forall e :: e in es && Concerns(e, turn) && e.LlmSentence? && e.seqNo < |sentences| ==> sentences[e.seqNo] == e.text)
    && (forall k :: 0 <= k < |sentences| && sentences[k] != "" ==> exists e :: e in es && IsSentence(e, turn, k))
  }

  /** Event `i` is the turn's first sentence that names a language. */
  ghost predicate NamesFirst(es: seq<Event>, turn: TurnId, i: nat, lang: string) {
    && i < |es| && lang != "" && IsLanguage(es[i], turn, lang)
    && forall j :: 0 <= j < i && Concerns(es[j], turn) && es[j].LlmSentence? ==> es[j].lang == ""
  }

  predicate IsLanguage(e: Event, turn: TurnId, lang: string) {
    e.LlmSentence? && e.turn == turn && e.lang == lang
  }

  ghost predicate LanguageReflects(es: seq<Event>, turn: TurnId, lang: string) {
    if lang == "" then forall j :: 0 <= j < |es| && Concerns(es[j], turn) && es[j].LlmSentence? ==> es[j].lang == ""
    else exists i :: NamesFirst(es, turn, i, lang)
  }

  lemma AddSlot(es: seq<Event>, turn: TurnId, before: seq<string>, after: seq<string>, e: Event)
    requires SlotsReflect(es, turn, before) && e.LlmSentence? && e.turn == turn && Numbered(es + [e], turn)
    requires e.seqNo < |after| && after[e.seqNo] == e.text && |before| <= |after|
    requires forall k :: 0 <= k < |after| && k != e.seqNo ==> after[k] == if k < |before| then before[k] else ""
    requires forall d :: d in es && Concerns(d, turn) ==> d.seqNo < |before|
    ensures SlotsReflect(es + [e], turn, after)
  {
    var all := es + [e];
    assert all[|es|] == e && e in all;
    assert forall d :: d in es ==> d in all;
    assert forall d :: d in all ==> d in es || d == e;
    forall d | d in all && Concerns(d, turn) && d.LlmSentence? && d.seqNo < |after| ensures after[d.seqNo] == d.text {
      if d != e && d.seqNo == e.seqNo {
        var i :| 0 <= i < |es| && es[i] == d;
        assert all[i] == d;
        assert SameNumber(all[i], all[|es|], turn);
      }
    }
    forall k | 0 <= k < |after| && after[k] != "" ensures exists d :: d in all && IsSentence(d, turn, k) {
      if k == e.seqNo { assert IsSentence(e, turn, k); }
    }
  }

  lemma AddLanguage(es: seq<Event>, turn: TurnId, lang: string, e: Event)
    requires LanguageReflects(es, turn, lang)
    ensures LanguageReflects(es + [e], turn, if lang == "" && e.LlmSentence? && e.turn == turn then e.lang else lang)
  {
    var all := es + [e];
    assert all[|es|] == e && forall j :: 0 <= j < |es| ==> all[j] == es[j];
    if lang != "" {
      var i :| NamesFirst(es, turn, i, lang);
      assert NamesFirst(all, turn, i, lang);
    } else if e.LlmSentence? && e.turn == turn && e.lang != "" {
      assert NamesFirst(all, turn, |es|, e.lang);
    }
  }

  lemma AddSentenceReflects(es: seq<Event>, turn: TurnId, st: Assistant, e: Event)
    requires Reflects(es, turn, st) && e.LlmSentence? && e.turn == turn && Numbered(es + [e], turn)
    ensures Reflects(es + [e], turn, AddSentence(st, e.seqNo, e.text, e.lang))
  {
    hide SlotsReflect, LanguageReflects, Numbered;
    var all, r := es + [e], AddSentence(st, e.seqNo, e.text, e.lang);
    assert all[|es|] == e && e in all;
    assert forall d :: d in es ==> d in all;
    assert forall d :: d in all ==> d in es || d == e;
    AddSlot(es, turn, st.sentences, r.sentences, e);
    AddLanguage(es, turn, st.lang, e);
  }

  lemma MarkPlayedReflects(es: seq<Event>, turn: TurnId, st: Assistant, e: Event)
    requires Reflects(es, turn, st) && e.PlaybackFinished? && e.turn == turn
    ensures Reflects(es + [e], turn, MarkPlayed(st, e.seqNo))
  {
    AddLanguage(es, turn, st.lang, e);
    hide LanguageReflects;
    var all := es + [e];
    assert all[|es|] == e && e in all;
    assert forall d :: d in es ==> d in all;
    assert forall d :: d in all ==> d in es || d == e;
  }

  lemma OtherReflects(es: seq<Event>, turn: TurnId, st: Assistant, e: Event)
    requires Reflects(es, turn, st) && !Concerns(e, turn)
    ensures Reflects(es + [e], turn, st)
  {
    AddLanguage(es, turn, st.lang, e);
    hide LanguageReflects;
    var all := es + [e];
    assert forall d :: d in es ==> d in all;
    assert forall d :: d in all ==> d in es || d == e;
  }

  /** From its start on, and until its finish, the entry of a turn reflects the events. */
  lemma {:induction false} RunReflects(t: Table, turn: TurnId, es: seq<Event>)
    requires Ok(t) && turn in t && t[turn] == BLANK
    requires Unfinished(es, turn) && Numbered(es, turn)
    ensures turn in Run(t, es) && Reflects(es, turn, Run(t, es)[turn])
  {
    hide Reflects, AddSentence, MarkPlayed;
    if es == [] {
      assert Reflects([], turn, BLANK) by { NothingYet(turn); }
    } else {
      var before, e := es[..|es| - 1], es[|es| - 1];
      assert es == before + [e];
      RunReflects(t, turn, before);
      var st := Run(t, before)[turn];
      if e.LlmSentence? && e.turn == turn {
        AddSentenceReflects(before, turn, st, e);
      } else if e.PlaybackFinished? && e.turn == turn {
        MarkPlayedReflects(before, turn, st, e);
      } else {
        OtherReflects(before, turn, st, e);
      }
    }
  }

  lemma NothingYet(turn: TurnId)
    ensures Reflects([], turn, BLANK)
  {}

  ghost predicate SameEvents(es: seq<Event>, fs: seq<Event>, turn: TurnId) {
    forall e :: Concerns(e, turn) ==> (e in es <==> e in fs)
  }

  lemma SameLength(es: seq<Event>, fs: seq<Event>, turn: TurnId, a: Assistant, b: Assistant)
    requires SameEvents(es, fs, turn) && Reflects(es, turn, a) && Reflects(fs, turn, b)
    ensures |a.sentences| <= |b.sentences|
  {}

  lemma SlotHas(es: seq<Event>, fs: seq<Event>, turn: TurnId, a: Assistant, b: Assistant, k: nat)
    requires SameEvents(es, fs, turn) && Reflects(es, turn, a) && Reflects(fs, turn, b)
    requires k < |a.sentences| == |b.sentences| && a.sentences[k] != ""
    ensures b.sentences[k] == a.sentences[k]
  {
    var e :| e in es && IsSentence(e, turn, k);
    assert Concerns(e, turn) && e in fs;
  }

  /** Two entries that reflect the same events have the same sentences and flags. */
  lemma ReflectionIsUnique(es: seq<Event>, fs: seq<Event>, turn: TurnId, a: Assistant, b: Assistant)
    requires SameEvents(es, fs, turn) && Reflects(es, turn, a) && Reflects(fs, turn, b)
    ensures a.sentences == b.sentences && a.played == b.played
  {
    hide SlotsReflect, LanguageReflects;
    SameLength(es, fs, turn, a, b);
    SameLength(fs, es, turn, b, a);
    forall k | 0 <= k < |a.sentences| ensures a.sentences[k] == b.sentences[k] {
      if a.sentences[k] != "" {
        SlotHas(es, fs, turn, a, b, k);
      } else if b.sentences[k] != "" {
        SlotHas(fs, es, turn, b, a, k);
      }
    }
    forall k | 0 <= k < |a.played| ensures a.played[k] == b.played[k] {
      assert Concerns(PlaybackFinished(turn, k), turn);
    }
  }

  ghost predicate OneLanguage(es: seq<Event>, turn: TurnId, lang: string) {
    forall e :: e in es && Concerns(e, turn) && e.LlmSentence? ==> e.lang == lang
  }

  lemma OneLanguageOf(es: seq<Event>, turn: TurnId, st: Assistant, lang: string)
    requires Reflects(es, turn, st) && OneLanguage(es, turn, lang)
    ensures st.lang == if exists e :: e in es && Concerns(e, turn) && e.LlmSentence? then lang else ""
  {
    if st.lang != "" {
      var i: nat :| NamesFirst(es, turn, i, st.lang);
      assert es[i] in es && Concerns(es[i], turn);
    }
  }

  lemma LanguageIsUnique(es: seq<Event>, fs: seq<Event>, turn: TurnId, a: Assistant, b: Assistant, lang: string)
    requires SameEvents(es, fs, turn) && OneLanguage(es, turn, lang)
    requires Reflects(es, turn, a) && Reflects(fs, turn, b)
    ensures a.lang == b.lang
  {
    hide Reflects;
    assert OneLanguage(fs, turn, lang);
    OneLanguageOf(es, turn, a, lang);
    OneLanguageOf(fs, turn, b, lang);
    if e :| e in es && Concerns(e, turn) && e.LlmSentence? { assert e in fs; }
    if e :| e in fs && Concerns(e, turn) && e.LlmSentence? { assert e in es; }
  }

  function TextOf(r: Option<Row>): Option<string> {
    if r.Some? then Some(r.value.text) else None
  }

  /** The row of a turn that starts, sees `es`, and finishes. */
  function RowAfter(t: Table, turn: TurnId, es: seq<Event>, cancelled: bool): Option<Row>
    requires Ok(t)
  {
    var r := Run(Handle(t, LlmStarted(turn)), es);
    if turn in r then RowOf(turn, r[turn], cancelled) else None
  }

  /** However a turn's sentences and playbacks are ordered between its start and its finish, and
      whatever other turns do meanwhile, the same text is persisted, or nothing in both cases; and
      the whole row is the same if the sentences have one language. */
  lemma OrderDoesNotMatter(t: Table, u: Table, turn: TurnId, es: seq<Event>, fs: seq<Event>, cancelled: bool, lang: string)
    requires Ok(t) && Ok(u) && turn !in t && turn !in u
    requires SameEvents(es, fs, turn) && Unfinished(es, turn) && Unfinished(fs, turn)
    requires Numbered(es, turn) && Numbered(fs, turn)
    ensures TextOf(RowAfter(t, turn, es, cancelled)) == TextOf(RowAfter(u, turn, fs, cancelled))
    ensures OneLanguage(es, turn, lang) ==> RowAfter(t, turn, es, cancelled) == RowAfter(u, turn, fs, cancelled)
  {
    hide Reflects, SameEvents, OneLanguage, Numbered, Run;
    var t', u' := Handle(t, LlmStarted(turn)), Handle(u, LlmStarted(turn));
    RunReflects(t', turn, es);
    RunReflects(u', turn, fs);
    var a, b := Run(t', es)[turn], Run(u', fs)[turn];
    ReflectionIsUnique(es, fs, turn, a, b);
    if OneLanguage(es, turn, lang) { LanguageIsUnique(es, fs, turn, a, b, lang); }
  }

  lemma {:induction false} RunFrom(t: Table, e: Event, es: seq<Event>)
    requires Ok(t)
    ensures Run(t, [e] + es) == Run(Handle(t, e), es)
  {
    hide Handle;
    var all := [e] + es;
    if es == [] {
      assert all[..0] == [] && all == [e];
    } else {
      assert all[..|all| - 1] == [e] + es[..|es| - 1];
      RunFrom(t, e, es[..|es| - 1]);
    }
  }

  /** A turn's first sentence starts it as well; a playback or an end of a turn that has not started does nothing. */
  lemma SentenceStarts(t: Table, turn: TurnId, e: Event, es: seq<Event>)
    requires Ok(t) && turn !in t && e.LlmSentence? && e.turn == turn
    ensures Run(t, [e] + es) == Run(Handle(t, LlmStarted(turn)), [e] + es)
    ensures forall k: nat :: Handle(t, PlaybackFinished(turn, k)) == t
    ensures forall cancelled :: Handle(t, LlmFinished(turn, cancelled)) == t
  {
    var started := Handle(t, LlmStarted(turn));
    assert Handle(started, e) == Handle(t, e);
    RunFrom(t, e, es);
    RunFrom(started, e, es);
    assert t - {turn} == t;
  }

  ghost predicate TextAt(es: seq<Event>, turn: TurnId, k: nat, text: string) {
    exists e :: e in es && IsSentence(e, turn, k) && e.text == text
  }

  /** Sentence `k` of the turn is worth persisting. */
  ghost predicate Counts(es: seq<Event>, turn: TurnId, cancelled: bool, k: nat) {
    && (exists e :: e in es && IsSentence(e, turn, k) && e.text != "")
    && (cancelled ==> PlaybackFinished(turn, k) in es)
  }

  ghost predicate Ascending(at: seq<nat>) {
    forall i, j :: 0 <= i < j < |at| ==> at[i] < at[j]
  }

  /** Word `i` stands at `starts[i]`, one blank after the word before it. */
  ghost predicate WordAt(text: string, words: seq<string>, starts: seq<nat>, i: nat)
    requires i < |words| == |starts|
  {
    && starts[i] + |words[i]| <= |text| && text[starts[i]..starts[i] + |words[i]|] == words[i]
    && if i == 0 then starts[0] == 0
       else
         var end := starts[i - 1] + |words[i - 1]|;
         starts[i] == end + 1 && text[end] == ' '
  }

  /** The text is the words with one blank between two words and nothing else. */
  ghost predicate Stands(text: string, words: seq<string>, starts: seq<nat>) {
    && |starts| == |words|
    && (forall i :: 0 <= i < |words| ==> WordAt(text, words, starts, i))
    && |text| == if words == [] then 0 else starts[|words| - 1] + |words[|words| - 1]|
  }

  lemma OneMoreWord(text: string, words: seq<string>, starts: seq<nat>, word: string)
    requires Stands(text, words, starts) && words != []
    ensures Stands(text + " " + word, words + [word], starts + [|text| + 1])
  {
    var longer, more, at := text + " " + word, words + [word], starts + [|text| + 1];
    assert longer[|text| + 1..] == word && longer[|text|] == ' ';
    forall i | 0 <= i < |more| ensures WordAt(longer, more, at, i) {
      if i < |words| {
        assert WordAt(text, words, starts, i);
        assert longer[starts[i]..starts[i] + |words[i]|] == text[starts[i]..starts[i] + |words[i]|];
      } else {
        assert longer[|text| + 1..|text| + 1 + |word|] == word;
      }
    }
  }

  lemma {:induction false} SpacedStands(words: seq<string>) returns (starts: seq<nat>)
    ensures Stands(Spaced(words), words, starts)
  {
    starts := [];
    if words != [] {
      var n := |words| - 1;
      starts := SpacedStands(words[..n]);
      assert words == words[..n] + [words[n]];
      if n == 0 {
        starts := [0];
        assert words[0] == words[0][0..|words[0]|] && WordAt(words[0], words, starts, 0);
      } else {
        OneMoreWord(Spaced(words[..n]), words[..n], starts, words[n]);
        starts := starts + [|Spaced(words[..n])| + 1];
      }
    }
  }

  lemma LanguageOf(es: seq<Event>, turn: TurnId, st: Assistant)
    requires Reflects(es, turn, st)
    ensures LanguageReflects(es, turn, st.lang)
  {}

  /** What is persisted is made of the turn's own non-empty sentences, in the order of their numbers,
      only the played ones when it was cancelled, one blank between them; nothing exactly when it was
      cancelled and no non-empty sentence was played. A cancelled row says how many they are; the
      language is that of the first sentence that names one. */
  lemma RowIsSentencesInOrder(t: Table, turn: TurnId, es: seq<Event>, cancelled: bool)
    returns (at: seq<nat>, texts: seq<string>, starts: seq<nat>)
    requires Ok(t) && turn !in t && Unfinished(es, turn) && Numbered(es, turn)
    ensures Ascending(at) && |texts| == |at|
    ensures forall k: nat :: k in at <==> Counts(es, turn, cancelled, k)
    ensures forall i :: 0 <= i < |at| ==> TextAt(es, turn, at[i], texts[i])
    ensures var row := RowAfter(t, turn, es, cancelled);
            && (row.None? <==> cancelled && at == [])
            && (row.Some? ==>
                  && row.value.turn == turn && Stands(row.value.text, texts, starts)
                  && row.value.interruptedAt == (if cancelled then Some(|at|) else None)
                  && LanguageReflects(es, turn, row.value.lang))
  {
    hide Reflects, Numbered, Kept, Run, Ascending, Stands, Spaced, LanguageReflects;
    var t' := Handle(t, LlmStarted(turn));
    RunReflects(t', turn, es);
    var st := Run(t', es)[turn];
    assert Aligned(st) by { AlignedOf(es, turn, st); }
    at := KeptAt(st.sentences, st.played, cancelled);
    texts := Kept(st.sentences, st.played, cancelled);
    starts := SpacedStands(texts);
    LanguageOf(es, turn, st);
    forall k: nat ensures k in at <==> Counts(es, turn, cancelled, k) { KeepIsCounts(es, turn, st, cancelled, k); }
    forall i | 0 <= i < |at| ensures TextAt(es, turn, at[i], texts[i]) { KeepIsText(es, turn, st, cancelled, at[i]); }
  }

  lemma AlignedOf(es: seq<Event>, turn: TurnId, st: Assistant)
    requires Reflects(es, turn, st)
    ensures Aligned(st)
  {}

  predicate Keep(sentences: seq<string>, played: seq<bool>, cancelled: bool, k: nat)
    requires |sentences| == |played|
  {
    k < |sentences| && sentences[k] != "" && (cancelled ==> played[k])
  }

  lemma KeepIsCounts(es: seq<Event>, turn: TurnId, st: Assistant, cancelled: bool, k: nat)
    requires Reflects(es, turn, st)
    ensures Keep(st.sentences, st.played, cancelled, k) <==> Counts(es, turn, cancelled, k)
  {
    if Keep(st.sentences, st.played, cancelled, k) {
      var e :| e in es && IsSentence(e, turn, k);
      assert Concerns(e, turn);
    }
    if e :| e in es && IsSentence(e, turn, k) && e.text != "" {
      assert Concerns(e, turn);
    }
  }

  lemma KeepIsText(es: seq<Event>, turn: TurnId, st: Assistant, cancelled: bool, k: nat)
    requires Reflects(es, turn, st) && Keep(st.sentences, st.played, cancelled, k)
    ensures TextAt(es, turn, k, st.sentences[k])
  {
    var e :| e in es && IsSentence(e, turn, k);
    assert Concerns(e, turn);
  }

  lemma {:induction false} KeptAt(sentences: seq<string>, played: seq<bool>, cancelled: bool) returns (at: seq<nat>)
    requires |sentences| == |played|
    ensures Ascending(at) && |at| == |Kept(sentences, played, cancelled)|
    ensures forall k: nat :: k in at <==> Keep(sentences, played, cancelled, k)
    ensures forall i :: 0 <= i < |at| ==>
              Keep(sentences, played, cancelled, at[i]) && Kept(sentences, played, cancelled)[i] == sentences[at[i]]
  {
    if sentences == [] {
      at := [];
    } else {
      var n := |sentences| - 1;
      at := KeptAt(sentences[..n], played[..n], cancelled);
      forall k: nat
        ensures Keep(sentences, played, cancelled, k) <==>
                Keep(sentences[..n], played[..n], cancelled, k) || (k == n && Keep(sentences, played, cancelled, n))
      {}
      if Keep(sentences, played, cancelled, n) { at := at + [n]; }
    }
  }
}
