/** What the playback engine renders (src/playback/engine.cpp), said in terms of the chunks that were put
    into the queue: which samples the device gets and after which of them a `PlaybackFinished` is posted. */
module PlayedChunks {
  import opened Audio
  import opened BoundedQueue
  import opened Events
  import opened P = Playback
  import opened Wrappers

  type Op = P.Op

  // ----- The chunks -----

  /** The chunks of the turn that found room in the queue. */
  function Kept(cap: nat, prefill: nat, turn: TurnId, ops: seq<Op>): seq<Chunk> {
    if ops == [] then [] else
    var init, op := ops[..|ops| - 1], ops[|ops| - 1];
    var queue := P.Run(cap, prefill, turn, init).engine.queue;
    Kept(cap, prefill, turn, init) +
    if op.Produce? && op.c.turn == turn && (cap == 0 || |queue| < cap) then [op.c] else []
  }

  function OfTurn(chunks: seq<Chunk>, turn: TurnId): seq<Chunk> {
    if chunks == [] then [] else (if chunks[0].turn == turn then [chunks[0]] else []) + OfTurn(chunks[1..], turn)
  }

  /** What is left to play: the rest of the current chunk, and the turn's queued ones. */
  function Remaining(s: Engine, turn: TurnId): seq<Chunk>
    requires InChunk(s)
  {
    [s.current.(samples := s.current.samples[s.pos..])] + OfTurn(s.queue, turn)
  }

  // ----- What the chunks say -----

  /** The samples of the chunk, followed by the end of the sentence if it is the last one of a sentence. */
  function Full(c: Chunk): (r: seq<Item>)
    ensures |r| == |c.samples| + if c.last && c.turn != NO_TURN then 1 else 0
    ensures forall i :: 0 <= i < |c.samples| ==> r[i] == Sample(c.samples[i])
    ensures c.last && c.turn != NO_TURN ==> r[|c.samples|] == Finished(c.turn, c.seqNo)
  {
    seq(|c.samples|, i requires 0 <= i < |c.samples| => Sample(c.samples[i]))
    + if c.last && c.turn != NO_TURN then [Finished(c.turn, c.seqNo)] else []
  }

  function Whole(chunks: seq<Chunk>): seq<Item> {
    if chunks == [] then [] else Full(chunks[0]) + Whole(chunks[1..])
  }

  function Length(chunks: seq<Chunk>): nat {
    if chunks == [] then 0 else |Full(chunks[0])| + Length(chunks[1..])
  }

  /** Position by position: chunk `j` stands right after the chunks before it, and nothing else is there. */
  lemma {:induction false} WholeAt(chunks: seq<Chunk>, j: nat)
    requires j < |chunks|
    ensures |Whole(chunks)| == Length(chunks) && Length(chunks[..j]) + |Full(chunks[j])| == Length(chunks[..j + 1]) <= Length(chunks)
    ensures Whole(chunks)[Length(chunks[..j])..Length(chunks[..j + 1])] == Full(chunks[j])
    decreases j
  {
    hide Full, Whole, Length;
    WholeLength(chunks);
    WholeUnfolds(chunks, j);
    var tail := chunks[1..];
    WholeUnfolds(chunks, j + 1);
    if j > 0 {
      WholeAt(tail, j - 1);
      WholeLength(tail);
      SliceAfter(Full(chunks[0]), Whole(tail), Length(tail[..j - 1]), Length(tail[..j]));
    } else {
      WholeUnfolds(chunks, 0);
      WholeUnfolds(tail, 0);
      WholeLength(tail);
      SliceFront(Full(chunks[0]), Whole(tail));
      assert tail[..0] == [];
    }
  }

  lemma WholeUnfolds(chunks: seq<Chunk>, j: nat)
    requires j <= |chunks|
    ensures chunks != [] ==> Whole(chunks) == Full(chunks[0]) + Whole(chunks[1..])
    ensures Length(chunks[..j]) == if j == 0 then 0 else |Full(chunks[0])| + Length(chunks[1..][..j - 1])
  {
    if j > 0 { assert chunks[..j][1..] == chunks[1..][..j - 1]; }
  }

  lemma SliceAfter(a: seq<Item>, w: seq<Item>, from: nat, to: nat)
    requires from <= to <= |w|
    ensures (a + w)[|a| + from..|a| + to] == w[from..to]
  {}

  lemma SliceFront(a: seq<Item>, w: seq<Item>)
    ensures (a + w)[0..|a|] == a
  {}

  lemma {:induction false} WholeLength(chunks: seq<Chunk>)
    ensures |Whole(chunks)| == Length(chunks)
  {
    if chunks != [] { WholeLength(chunks[1..]); }
  }

  // ----- The engine renders its chunks in full -----

  lemma FullIsItems(c: Chunk)
    ensures Full(c) == ChunkItems(c, 0) == Samples(c.samples) + EndOf(c)
  {
    assert c.samples[0..] == c.samples;
  }

  lemma WholeIsItems(c: Chunk, rest: seq<Chunk>)
    ensures Whole([c] + rest) == ChunkItems(c, 0) + Whole(rest)
  {
    assert ([c] + rest)[1..] == rest && c.samples[0..] == c.samples;
    assert Full(c) == ChunkItems(c, 0) by { FullIsItems(c); }
  }

  lemma {:induction false} QueueIsWhole(queue: seq<Chunk>, turn: TurnId)
    ensures QueueItems(queue, turn) == Whole(OfTurn(queue, turn))
  {
    hide ChunkItems, Whole;
    if queue == [] {
      WholeNothing();
    } else {
      QueueIsWhole(queue[1..], turn);
      if queue[0].turn == turn { WholeIsItems(queue[0], OfTurn(queue[1..], turn)); }
      assert [] + QueueItems(queue[1..], turn) == QueueItems(queue[1..], turn);
      assert [] + OfTurn(queue[1..], turn) == OfTurn(queue[1..], turn);
    }
  }

  lemma WholeNothing()
    ensures Whole([]) == []
  {}

  lemma ToComeIsWhole(s: Engine, turn: TurnId)
    requires InChunk(s)
    ensures ToCome(s, turn) == Whole(Remaining(s, turn))
  {
    var c := s.current.(samples := s.current.samples[s.pos..]);
    WholeIsItems(c, OfTurn(s.queue, turn));
    QueueIsWhole(s.queue, turn);
    assert c.samples[0..] == s.current.samples[s.pos..];
    assert ChunkItems(c, 0) == ChunkItems(s.current, s.pos);
    hide Whole, ChunkItems, QueueItems;
  }

  lemma {:induction false} WholeAppend(a: seq<Chunk>, b: seq<Chunk>)
    ensures Whole(a + b) == Whole(a) + Whole(b)
  {
    if a == [] {
      assert a + b == b;
    } else {
      hide Full;
      WholeAppend(a[1..], b);
      assert (a + b)[1..] == a[1..] + b;
      assert Full(a[0]) + (Whole(a[1..]) + Whole(b)) == Full(a[0]) + Whole(a[1..]) + Whole(b);
    }
  }

  lemma {:induction false} AcceptedIsKept(cap: nat, prefill: nat, turn: TurnId, ops: seq<Op>)
    ensures P.Run(cap, prefill, turn, ops).accepted == Whole(Kept(cap, prefill, turn, ops))
  {
    hide Whole, Render, ChunkItems, QueueItems;
    if ops == [] {
      WholeNothing();
    } else {
      var init, op := ops[..|ops| - 1], ops[|ops| - 1];
      AcceptedIsKept(cap, prefill, turn, init);
      if op.Produce? {
        QueueIsWhole([op.c], turn);
        assert OfTurn([op.c], turn) == (if op.c.turn == turn then [op.c] else []) by { assert [op.c][1..] == []; }
        WholeAppend(Kept(cap, prefill, turn, init), OfTurn([op.c], turn));
      }
      assert Kept(cap, prefill, turn, init) + [] == Kept(cap, prefill, turn, init);
    }
  }

  /** Over any run with a fixed active turn: what was rendered, then what the remaining chunks say, is what
      the turn's accepted chunks say, each in full and in order. */
  lemma ChunksPlayInFull(cap: nat, prefill: nat, turn: TurnId, ops: seq<Op>)
    requires forall i :: 0 <= i < |ops| && ops[i].Invalidate? ==> ops[i].turn <= turn
    ensures var w := P.Run(cap, prefill, turn, ops);
            w.rendered + Whole(Remaining(w.engine, turn)) == Whole(Kept(cap, prefill, turn, ops))
  {
    hide P.Run, Whole;
    P.RunConserves(cap, prefill, turn, ops);
    ToComeIsWhole(P.Run(cap, prefill, turn, ops).engine, turn);
    AcceptedIsKept(cap, prefill, turn, ops);
  }

  // ----- The device and the postbox -----

  function SamplesOf(chunks: seq<Chunk>): seq<int> {
    if chunks == [] then [] else chunks[0].samples + SamplesOf(chunks[1..])
  }

  /** The sentences that end in the chunks. */
  function EndsIn(chunks: seq<Chunk>): seq<Item> {
    if chunks == [] then [] else
    (if chunks[0].last && chunks[0].turn != NO_TURN then [Finished(chunks[0].turn, chunks[0].seqNo)] else []) + EndsIn(chunks[1..])
  }

  function Ends(items: seq<Item>): seq<Item> {
    if items == [] then [] else Ends(items[..|items| - 1]) + if items[|items| - 1].Finished? then [items[|items| - 1]] else []
  }

  lemma {:induction false} EndsAppend(a: seq<Item>, b: seq<Item>)
    ensures Ends(a + b) == Ends(a) + Ends(b)
  {
    if b == [] {
      assert a + b == a;
    } else {
      assert (a + b)[..|a + b| - 1] == a + b[..|b| - 1];
      EndsAppend(a, b[..|b| - 1]);
    }
  }

  lemma {:induction false} SamplesEndNothing(xs: seq<int>)
    ensures Ends(Samples(xs)) == []
  {
    if xs != [] {
      assert Samples(xs)[..|xs| - 1] == Samples(xs[..|xs| - 1]);
      SamplesEndNothing(xs[..|xs| - 1]);
    }
  }

  lemma OneEnd(e: Item)
    ensures Ends([e]) == (if e.Finished? then [e] else []) && Ends([]) == []
    ensures Heard([e]) == (if e.Sample? then [e.x] else []) && Heard([]) == []
  {
    assert [e][..0] == [];
  }

  lemma {:induction false} WholeSplits(chunks: seq<Chunk>)
    ensures Heard(Whole(chunks)) == SamplesOf(chunks) && Ends(Whole(chunks)) == EndsIn(chunks)
  {
    if chunks == [] {
      OneEnd(Sample(0));
    } else {
      var c := chunks[0];
      var end := EndOf(c);
      FullIsItems(c);
      assert Whole(chunks) == Samples(c.samples) + end + Whole(chunks[1..]);
      WholeSplits(chunks[1..]);
      hide Whole, Heard, Ends;
      HeardAppend(Samples(c.samples) + end, Whole(chunks[1..]));
      HeardAppend(Samples(c.samples), end);
      HeardSamples(c.samples);
      EndsAppend(Samples(c.samples) + end, Whole(chunks[1..]));
      EndsAppend(Samples(c.samples), end);
      SamplesEndNothing(c.samples);
      OneEnd(Finished(c.turn, c.seqNo));
      assert [] + end == end && c.samples + [] == c.samples;
    }
  }

  /** Over any run with a fixed active turn: the device gets the samples of the accepted chunks, none
      lost, repeated or out of order, and for each accepted chunk that is the last of its sentence, and
      for no other, one end is posted, in order. */
  lemma DeviceAndPostbox(cap: nat, prefill: nat, turn: TurnId, ops: seq<Op>)
    requires forall i :: 0 <= i < |ops| && ops[i].Invalidate? ==> ops[i].turn <= turn
    ensures var w, kept := P.Run(cap, prefill, turn, ops), Kept(cap, prefill, turn, ops);
            && Heard(w.rendered) + SamplesOf(Remaining(w.engine, turn)) == SamplesOf(kept)
            && Ends(w.rendered) + EndsIn(Remaining(w.engine, turn)) == EndsIn(kept)
  {
    ChunksPlayInFull(cap, prefill, turn, ops);
    hide P.Run, Whole, Heard, Ends;
    var w := P.Run(cap, prefill, turn, ops);
    WholeSplits(Remaining(w.engine, turn));
    WholeSplits(Kept(cap, prefill, turn, ops));
    HeardAppend(w.rendered, Whole(Remaining(w.engine, turn)));
    EndsAppend(w.rendered, Whole(Remaining(w.engine, turn)));
  }

  function Newest<T>(xs: seq<T>, n: nat): seq<T> {
    if |xs| > n then xs[|xs| - n..] else xs
  }

  /** The postbox holds the newest of what it held and of the ends posted, as many as it has room for. */
  lemma {:induction false} PostboxHoldsNewest(q: Queue<Item>, capacity: nat, items: seq<Item>)
    requires !q.closed && 0 < capacity && |q.items| <= capacity
    ensures var r := PostAll(q, capacity, items);
            !r.closed && r.items == Newest(q.items + Ends(items), capacity)
  {
    if items == [] {
      assert q.items + [] == q.items;
    } else {
      var init, last := items[..|items| - 1], items[|items| - 1];
      PostboxHoldsNewest(q, capacity, init);
      var before := q.items + Ends(init);
      if last.Finished? {
        assert q.items + Ends(items) == before + [last];
      } else {
        assert q.items + (Ends(init) + []) == before;
      }
    }
  }

  // ----- The queue's own operations -----

  lemma OfTurnGrows(chunks: seq<Chunk>, c: Chunk, turn: TurnId)
    ensures OfTurn(chunks + [c], turn) == OfTurn(chunks, turn) + if c.turn == turn then [c] else []
  {
    if chunks == [] {
      assert [] + [c] == [c] && [c][1..] == [];
    } else {
      var longer, rest := chunks + [c], OfTurn(chunks[1..], turn);
      assert longer[0] == chunks[0] && longer[1..] == chunks[1..] + [c];
      OfTurnGrows(chunks[1..], c, turn);
      var first, more := if chunks[0].turn == turn then [chunks[0]] else [], if c.turn == turn then [c] else [];
      assert OfTurn(longer, turn) == first + (rest + more) == first + rest + more;
    }
  }

  /** Invalidating drops every chunk of an older turn and none of any other, in order. */
  lemma {:induction false} InvalidateDropsOlder(items: seq<Chunk>, before: TurnId, turn: TurnId)
    ensures OfTurn(NotBefore(items, before), turn) == if turn < before then [] else OfTurn(items, turn)
  {
    if items != [] {
      var n := |items| - 1;
      InvalidateDropsOlder(items[..n], before, turn);
      assert items == items[..n] + [items[n]];
      OfTurnGrows(items[..n], items[n], turn);
      OfTurnGrows(NotBefore(items[..n], before), items[n], turn);
      assert NotBefore(items[..n], before) + [] == NotBefore(items[..n], before);
    }
  }

  /** Taking a chunk skips the other turns' chunks at the head of the queue, and nothing more. */
  lemma {:induction false} SkipsOnlyStaleHead(items: seq<Chunk>, turn: TurnId) returns (n: nat)
    ensures n <= |items| && SkipStale(items, turn) == items[n..]
    ensures forall i :: 0 <= i < n ==> items[i].turn != turn
    ensures n < |items| ==> items[n].turn == turn
  {
    if items == [] || items[0].turn == turn {
      n := 0;
    } else {
      var m := SkipsOnlyStaleHead(items[1..], turn);
      n := m + 1;
      assert items[1..][m..] == items[n..];
    }
  }

  lemma {:induction false} SamplesOfAppend(a: seq<Chunk>, b: seq<Chunk>)
    ensures SamplesOf(a + b) == SamplesOf(a) + SamplesOf(b)
  {
    if a == [] {
      assert a + b == b;
    } else {
      assert (a + b)[1..] == a[1..] + b;
      SamplesOfAppend(a[1..], b);
    }
  }

  /** The gate counts the samples of the turn's own chunks. */
  lemma {:induction false} GateCountsOwnSamples(items: seq<Chunk>, turn: TurnId)
    ensures SamplesFor(items, turn) == |SamplesOf(OfTurn(items, turn))|
  {
    if items != [] {
      var n := |items| - 1;
      GateCountsOwnSamples(items[..n], turn);
      assert items == items[..n] + [items[n]];
      OfTurnGrows(items[..n], items[n], turn);
      SamplesOfAppend(OfTurn(items[..n], turn), [items[n]]);
      assert [items[n]][1..] == [] && SamplesOf([items[n]]) == items[n].samples + [];
      assert OfTurn(items[..n], turn) + [] == OfTurn(items[..n], turn);
    }
  }

  // ----- Once it plays, it plays on -----

  /** The gate cannot hold the turn any more. */
  predicate Free(s: Engine, prefill: nat, turn: TurnId) {
    prefill == 0 || turn == NO_TURN || s.primed == turn
  }

  lemma {:induction false} LoadingFrees(s: Engine, prefill: nat, need: nat, active: nat -> TurnId, k: nat, turn: TurnId)
    requires InChunk(s) && Stays(active, turn)
    ensures var r := Render(s, prefill, need, active, k).engine;
            r.queue != s.queue || Free(s, prefill, turn) ==> Free(r, prefill, turn)
    decreases need, |s.queue|
  {
    hide Render, Samples, EndOf, SamplesFor, SkipStale;
    if need == 0 {
      RenderNothing(s, prefill, active, k);
    } else if s.pos < |s.current.samples| {
      RenderTakes(s, prefill, need, active, k);
      var take := Min(need, |s.current.samples| - s.pos);
      LoadingFrees(s.(pos := s.pos + take), prefill, need - take, active, k, turn);
    } else {
      RenderLoads(s, prefill, need, active, k);
      var t, live := DropCurrent(s), SkipStale(s.queue, turn);
      if !Gated(t, prefill, turn) && live != [] {
        LoadingFrees(Primed(t, prefill, turn).(current := live[0], pos := 0, queue := live[1..]), prefill, need, active, k + 1, turn);
      }
    }
  }

  lemma {:induction false} FreeStays(cap: nat, prefill: nat, turn: TurnId, ops: seq<Op>, m: nat)
    requires m <= |ops| && Free(P.Run(cap, prefill, turn, ops[..m]).engine, prefill, turn)
    ensures Free(P.Run(cap, prefill, turn, ops).engine, prefill, turn)
  {
    hide Render, P.QueueItems, NotBefore;
    if m == |ops| {
      assert ops[..m] == ops;
    } else {
      var init, op := ops[..|ops| - 1], ops[|ops| - 1];
      assert init[..m] == ops[..m];
      FreeStays(cap, prefill, turn, init, m);
      if op.Device? {
        LoadingFrees(P.Run(cap, prefill, turn, init).engine, prefill, op.frames, _ => turn, 0, turn);
      }
    }
  }

  /** Once the device has taken something from the queue, silence only means that nothing of the turn is
      left: the gate holds a turn before its first sound, never in the middle. */
  lemma PlaysOnOnceStarted(cap: nat, prefill: nat, turn: TurnId, ops: seq<Op>, m: nat, frames: nat)
    requires m < |ops| && ops[m].Device?
    requires P.Run(cap, prefill, turn, ops[..m + 1]).engine.queue != P.Run(cap, prefill, turn, ops[..m]).engine.queue
    ensures var r := Render(P.Run(cap, prefill, turn, ops).engine, prefill, frames, _ => turn, 0);
            r.silence > 0 ==> ToCome(r.engine, turn) == []
  {
    assert ops[..m + 1][..m] == ops[..m];
    assert P.Run(cap, prefill, turn, ops[..m + 1]) ==
           P.Step(P.Run(cap, prefill, turn, ops[..m]), cap, prefill, turn, ops[m]);
    hide Render, P.Run, ToCome, SamplesFor;
    LoadingFrees(P.Run(cap, prefill, turn, ops[..m]).engine, prefill, ops[m].frames, _ => turn, 0, turn);
    FreeStays(cap, prefill, turn, ops, m + 1);
    var s := P.Run(cap, prefill, turn, ops).engine;
    LoadingFrees(s, prefill, frames, _ => turn, 0, turn);
    RenderConserves(s, prefill, frames, _ => turn, 0, turn);
  }
}
