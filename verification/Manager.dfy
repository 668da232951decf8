/** The reply of one turn in src/dialogue/manager.cpp: tokens go through the sentence splitter, and
    the sentences are published until the cap on their number ends the stream. */
module Manager {
  import opened SentenceSplitter

  datatype Sentence = Sentence(seqNo: nat, text: string)

  datatype CapState = NoCap | CapPending | Cancelled

  /** Sentences with the numbers 0, 1, 2, ... */
  function Numbered(sentences: seq<string>): (r: seq<Sentence>)
    ensures |r| == |sentences| && forall i :: 0 <= i < |r| ==> r[i] == Sentence(i, sentences[i])
  {
    seq(|sentences|, i requires 0 <= i < |sentences| => Sentence(i, sentences[i]))
  }

  /** The sentences of a reply that are published: one more than the cap, a cap of 0 being none. */
  function Capped(cap: nat, sentences: seq<string>): seq<string> {
    if cap > 0 && |sentences| > cap + 1 then sentences[..cap + 1] else sentences
  }

  class Reply {
    const cfg: Config
    const cap: nat
    const splitter: SentenceSplitter
    var seqNo: nat
    var capState: CapState
    var published: seq<Sentence>
    ghost var text: string
    ghost var given: string

    /** `given` is the part of the reply's text that reached the splitter. Until the stream is
        cancelled that is all of it, and exactly its sentences are published. */
    ghost predicate Valid()
      reads this, splitter
    {
      && splitter.cfg == cfg && splitter.View() == Feed(cfg, START, given).state
      && seqNo == |published|
      && match capState
         case NoCap => given == text && published == Numbered(Emitted(cfg, text)) && (cap > 0 ==> seqNo < cap)
         case CapPending => given == text && published == Numbered(Emitted(cfg, text)) && 0 < cap == seqNo
         case Cancelled => given <= text && 0 < cap < |Emitted(cfg, given)| && published == Numbered(Emitted(cfg, given)[..cap + 1])
    }

    constructor (c: Config, maxSentences: nat)
      ensures Valid() && fresh(splitter) && cfg == c && cap == maxSentences
      ensures text == "" && published == []
    {
      cfg, cap := c, maxSentences;
      splitter := new SentenceSplitter(c);
      seqNo, capState, published := 0, NoCap, [];
      text, given := "", "";
    }

    method OnToken(delta: string)
      requires Valid()
      modifies this, splitter
      ensures Valid() && text == old(text) + delta
    {
      hide Feed, Emitted, Sentences;
      text := text + delta;
      if capState == Cancelled { return; }
      EmittedGrows(cfg, given, delta);
      FeedTwice(cfg, START, given, delta);
      ghost var before := Emitted(cfg, given);
      var emitted := splitter.Push(delta);
      given := given + delta;
      var backstop := if cap > 0 then cap + 1 else 0;
      for i := 0 to |emitted|
        invariant capState != Cancelled && seqNo == |published| == |before| + i
        invariant Emitted(cfg, given) == before + emitted
        invariant published == Numbered(before + emitted[..i])
        invariant capState == NoCap ==> cap > 0 ==> seqNo < cap
        invariant capState == CapPending ==> 0 < cap == seqNo
        invariant splitter.View() == Feed(cfg, START, given).state && given == text == old(text) + delta
      {
        assert before + emitted[..i + 1] == before + emitted[..i] + [emitted[i]];
        // The program cancels here too, but the state machine below never lets the count pass the cap.
        if backstop > 0 && seqNo >= backstop {
          assert false;
        }
        published := published + [Sentence(seqNo, emitted[i])];
        seqNo := seqNo + 1;
        if capState == NoCap && cap > 0 && seqNo >= cap {
          capState := CapPending;
        } else if capState == CapPending {
          capState := Cancelled;
          assert (before + emitted)[..cap + 1] == before + emitted[..i + 1];
          break;
        }
      }
      if capState != Cancelled { assert emitted[..|emitted|] == emitted; }
    }

    method OnFinished()
      requires Valid()
      modifies this, splitter
      ensures text == old(text)
      ensures published == Numbered(Capped(cap, AllSentences(cfg, text)))
    {
      hide Feed, Emitted, Sentences;
      TailIsOne(Feed(cfg, START, given).state.buf);
      GivenGrows(cfg, given, text);
      ghost var before := Emitted(cfg, given);
      var emitted := splitter.Flush();
      var backstop := if cap > 0 then cap + 1 else 0;
      for i := 0 to |emitted|
        invariant seqNo == |published| && text == old(text) && capState == old(capState)
        invariant capState != Cancelled ==> published == Numbered(before + emitted[..i]) && (cap > 0 ==> seqNo <= cap + i)
        invariant capState == Cancelled ==> seqNo == cap + 1 && published == old(published)
      {
        assert before + emitted[..i + 1] == before + emitted[..i] + [emitted[i]];
        if backstop > 0 && seqNo >= backstop { break; }
        published := published + [Sentence(seqNo, emitted[i])];
        seqNo := seqNo + 1;
      }
      assert emitted[..|emitted|] == emitted;
    }
  }

  lemma TailIsOne(tail: string)
    ensures |Sentences([tail])| <= 1
  {
    assert [tail][..0] == [];
  }

  lemma GivenGrows(cfg: Config, given: string, text: string)
    requires given <= text
    ensures Emitted(cfg, given) <= AllSentences(cfg, text)
  {
    assert text == given + text[|given|..];
    EmittedGrows(cfg, given, text[|given|..]);
  }

  function Joined(deltas: seq<string>): string {
    if deltas == [] then "" else Joined(deltas[..|deltas| - 1]) + deltas[|deltas| - 1]
  }

  /** A whole reply: however its text was cut into deltas, and wherever in a batch the cap fires,
      the sentences published are the first of the whole text, numbered from 0. */
  method PublishReply(cfg: Config, cap: nat, deltas: seq<string>) returns (published: seq<Sentence>)
    ensures var all := AllSentences(cfg, Joined(deltas));
            && published == Numbered(Capped(cap, all))
            && (forall i :: 0 <= i < |published| ==> i < |all| && published[i] == Sentence(i, all[i]))
            && (|published| == |all| || (0 < cap && |published| == cap + 1 < |all|))
            && (cap > 0 ==> |published| <= cap + 1)
  {
    var reply := new Reply(cfg, cap);
    for i := 0 to |deltas|
      invariant reply.Valid() && reply.text == Joined(deltas[..i]) && fresh(reply) && fresh(reply.splitter)
    {
      assert deltas[..i + 1][..i] == deltas[..i];
      reply.OnToken(deltas[i]);
    }
    assert deltas[..|deltas|] == deltas;
    reply.OnFinished();
    return reply.published;
  }
}
