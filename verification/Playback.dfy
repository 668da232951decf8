/** PlaybackQueue (src/playback/queue.cpp) and PlaybackEngine::render_into (src/playback/engine.cpp). */
module Playback {
  import opened Audio
  import opened BoundedQueue
  import opened Events
  import opened Wrappers

  /** `last` marks the final chunk of a sentence. */
  datatype Chunk = Chunk(turn: TurnId, seqNo: nat, samples: seq<int>, last: bool)

  const NO_CHUNK: Chunk := Chunk(NO_TURN, 0, [], false)

  // ----- The queue -----

  /** The queue without the chunks of other turns at its head. */
  function SkipStale(items: seq<Chunk>, turn: TurnId): (r: seq<Chunk>)
    ensures |r| <= |items| && (r != [] ==> r[0].turn == turn)
  {
    if items == [] || items[0].turn == turn then items else SkipStale(items[1..], turn)
  }

  function NotBefore(items: seq<Chunk>, turn: TurnId): (r: seq<Chunk>)
    ensures |r| <= |items|
  {
    if items == [] then [] else
    var n := |items| - 1;
    NotBefore(items[..n], turn) + if items[n].turn < turn then [] else [items[n]]
  }

  function SamplesFor(items: seq<Chunk>, turn: TurnId): nat {
    if items == [] then 0 else
    var n := |items| - 1;
    SamplesFor(items[..n], turn) + if items[n].turn == turn then |items[n].samples| else 0
  }

  class PlaybackQueue {
    const cap: nat
    var items: seq<Chunk>
    var drops: nat
    var enqueued: nat
    var dequeued: nat

    constructor (maxChunks: nat)
      ensures cap == maxChunks && items == [] && drops == enqueued == dequeued == 0
    {
      cap := maxChunks;
      items, drops, enqueued, dequeued := [], 0, 0, 0;
    }

    /** A cap of 0 means no cap. */
    predicate HasRoom()
      reads this
    {
      cap == 0 || |items| < cap
    }

    method Enqueue(chunk: Chunk) returns (ok: bool)
      modifies this
      ensures ok == old(HasRoom()) && dequeued == old(dequeued)
      ensures items == if ok then old(items) + [chunk] else old(items)
      ensures enqueued == old(enqueued) + (if ok then 1 else 0) && drops == old(drops) + if ok then 0 else 1
    {
      if cap != 0 && |items| >= cap {
        drops := drops + 1;
        return false;
      }
      items := items + [chunk];
      enqueued := enqueued + 1;
      return true;
    }

    /** One attempt of `enqueue_blocking`; a failed attempt drops nothing and is tried again. */
    method TryEnqueueBlocking(chunk: Chunk) returns (ok: bool)
      modifies this
      ensures ok == old(HasRoom()) && dequeued == old(dequeued) && drops == old(drops)
      ensures items == if ok then old(items) + [chunk] else old(items)
      ensures enqueued == old(enqueued) + if ok then 1 else 0
    {
      if cap == 0 || |items| < cap {
        items := items + [chunk];
        enqueued := enqueued + 1;
        return true;
      }
      return false;
    }

    method DequeueActive(turn: TurnId) returns (chunk: Option<Chunk>)
      modifies this
      ensures var live := SkipStale(old(items), turn);
              && chunk == (if live == [] then None else Some(live[0]))
              && items == (if live == [] then [] else live[1..])
              && drops == old(drops) + |old(items)| - |live|
              && dequeued == old(dequeued) + (if live == [] then 0 else 1) && enqueued == old(enqueued)
    {
      while items != [] && items[0].turn != turn
        invariant SkipStale(items, turn) == SkipStale(old(items), turn)
        invariant drops + |items| == old(drops) + |old(items)|
        invariant dequeued == old(dequeued) && enqueued == old(enqueued)
        decreases |items|
      {
        items := items[1..];
        drops := drops + 1;
      }
      if items == [] { return None; }
      chunk := Some(items[0]);
      items := items[1..];
      dequeued := dequeued + 1;
    }

    method InvalidateBefore(turn: TurnId) returns (dropped: nat)
      modifies this
      ensures items == NotBefore(old(items), turn)
      ensures dropped == |old(items)| - |items| && drops == old(drops) + dropped
      ensures enqueued == old(enqueued) && dequeued == old(dequeued)
    {
      if items == [] { return 0; }
      var kept: seq<Chunk> := [];
      dropped := 0;
      for i := 0 to |items|
        invariant kept == NotBefore(items[..i], turn) && dropped == i - |kept|
      {
        assert items[..i + 1][..i] == items[..i];
        if items[i].turn < turn { dropped := dropped + 1; } else { kept := kept + [items[i]]; }
      }
      assert items[..|items|] == items;
      items := kept;
      drops := drops + dropped;
    }

    method Clear() returns (n: nat)
      modifies this
      ensures n == |old(items)| && items == [] && drops == old(drops) + n
      ensures enqueued == old(enqueued) && dequeued == old(dequeued)
    {
      n := |items|;
      items := [];
      drops := drops + n;
    }

    method PendingSamplesFor(turn: TurnId) returns (total: nat)
      ensures total == SamplesFor(items, turn)
    {
      total := 0;
      for i := 0 to |items|
        invariant total == SamplesFor(items[..i], turn)
      {
        assert items[..i + 1][..i] == items[..i];
        if items[i].turn == turn { total := total + |items[i].samples|; }
      }
      assert items[..|items|] == items;
    }
  }

  // ----- Rendering -----

  /** What leaves the engine, in order: samples, and the end of a sentence. */
  datatype Item = Sample(x: int) | Finished(turn: TurnId, seqNo: nat)

  datatype Engine = Engine(current: Chunk, pos: nat, primed: TurnId, queue: seq<Chunk>)

  /** The result of filling a buffer: the items rendered, then silence up to the end. */
  datatype Rendered = Rendered(engine: Engine, items: seq<Item>, silence: nat)

  predicate InChunk(s: Engine) {
    s.pos <= |s.current.samples|
  }

  function Samples(xs: seq<int>): (r: seq<Item>)
    ensures |r| == |xs| && forall i :: 0 <= i < |r| ==> r[i] == Sample(xs[i])
  {
    seq(|xs|, i requires 0 <= i < |xs| => Sample(xs[i]))
  }

  function EndOf(c: Chunk): seq<Item> {
    if c.last && c.turn != NO_TURN then [Finished(c.turn, c.seqNo)] else []
  }

  function DropCurrent(s: Engine): Engine {
    if s.current.turn != NO_TURN then s.(current := NO_CHUNK, pos := 0) else s
  }

  /** The prefill gate is closed: a new turn has too little audio queued. */
  predicate Gated(s: Engine, prefill: nat, active: TurnId) {
    prefill > 0 && active != NO_TURN && s.primed != active && SamplesFor(s.queue, active) < prefill
  }

  function Primed(s: Engine, prefill: nat, active: TurnId): Engine {
    if prefill > 0 && active != NO_TURN then s.(primed := active) else s
  }

  function Before(items: seq<Item>, r: Rendered): Rendered {
    r.(items := items + r.items)
  }

  /** Fills `need` samples. `active(k)` is what the `k`-th read of the active turn returns. */
  function Render(s: Engine, prefill: nat, need: nat, active: nat -> TurnId, k: nat): (r: Rendered)
    requires InChunk(s)
    ensures InChunk(r.engine)
    decreases need, |s.queue|
  {
    if need == 0 then Rendered(s, [], 0)
    else if s.pos < |s.current.samples| then
      var take := Min(need, |s.current.samples| - s.pos);
      Before(Samples(s.current.samples[s.pos..s.pos + take]),
             Render(s.(pos := s.pos + take), prefill, need - take, active, k))
    else
      var over := EndOf(s.current);
      var t := DropCurrent(s);
      if Gated(t, prefill, active(k)) then Rendered(t, over, need)
      else
        var u, live := Primed(t, prefill, active(k)), SkipStale(t.queue, active(k));
        if live == [] then Rendered(u.(queue := []), over, need)
        else Before(over, Render(u.(current := live[0], pos := 0, queue := live[1..]), prefill, need, active, k + 1))
  }

  function Heard(items: seq<Item>): seq<int> {
    if items == [] then [] else
    var n := |items| - 1;
    Heard(items[..n]) + if items[n].Sample? then [items[n].x] else []
  }

  /** The postbox after the ends of sentences among the items were posted. */
  function PostAll(q: Queue<Item>, capacity: nat, items: seq<Item>): Queue<Item> {
    if items == [] then q else
    var n := |items| - 1;
    var before := PostAll(q, capacity, items[..n]);
    if items[n].Finished? then Push(before, capacity, DropOldest, items[n]).0 else before
  }

  class PlaybackEngine {
    const queue: PlaybackQueue
    const postbox: BoundedQueue<Item>
    const prefill: nat
    var current: Chunk
    var pos: nat
    var primed: TurnId

    ghost predicate Valid()
      reads this
    {
      pos <= |current.samples| && postbox.policy == DropOldest && postbox.capacity > 0
    }

    function View(): Engine
      reads this, queue
    {
      Engine(current, pos, primed, queue.items)
    }

    constructor (q: PlaybackQueue, prefillTarget: nat)
      ensures Valid() && queue == q && prefill == prefillTarget && fresh(postbox)
      ensures View() == Engine(NO_CHUNK, 0, NO_TURN, q.items)
    {
      queue, prefill := q, prefillTarget;
      postbox := new BoundedQueue<Item>(256, DropOldest);
      current, pos, primed := NO_CHUNK, 0, NO_TURN;
    }

    /** The chunk is used up: its end of sentence goes to the postbox. */
    method Retire()
      requires Valid()
      modifies this, postbox
      ensures Valid() && View() == DropCurrent(old(View()))
      ensures old(pos >= |current.samples|) ==> pos >= |current.samples|
      ensures postbox.View() == PostAll(old(postbox.View()), postbox.capacity, old(EndOf(current)))
    {
      PostOne(postbox.View(), postbox.capacity, Finished(current.turn, current.seqNo));
      if current.turn != NO_TURN {
        if current.last {
          var _ := postbox.PushItem(Finished(current.turn, current.seqNo));
        }
        current := NO_CHUNK;
        pos := 0;
      }
    }

    /** The prefill gate and the next chunk; nothing is loaded when there is only silence to play. */
    method Load(active: TurnId) returns (loaded: bool)
      requires Valid() && pos >= |current.samples|
      modifies this, queue
      ensures Valid()
      ensures var t := old(View());
              var u, live := Primed(t, prefill, active), SkipStale(t.queue, active);
              if Gated(t, prefill, active) then !loaded && View() == t
              else if live == [] then !loaded && View() == u.(queue := [])
              else loaded && View() == u.(current := live[0], pos := 0, queue := live[1..])
    {
      if prefill > 0 && active != NO_TURN && primed != active {
        var pending := queue.PendingSamplesFor(active);
        if pending >= prefill {
          primed := active;
        } else {
          return false;
        }
      }
      var next := queue.DequeueActive(active);
      if next.None? { return false; }
      current, pos := next.value, 0;
      return true;
    }

    method FillSilence(out: array<int>, from: nat)
      requires from <= out.Length
      modifies out
      ensures out[..] == old(out[..from]) + Silence(out.Length - from)
    {
      forall i | from <= i < out.Length { out[i] := 0; }
    }

    method CopyOut(out: array<int>, at: nat, take: nat)
      requires at + take <= out.Length && pos + take <= |current.samples|
      modifies out
      ensures out[..at + take] == old(out[..at]) + current.samples[pos..pos + take]
    {
      forall i | 0 <= i < take { out[at + i] := current.samples[pos + i]; }
    }

    method RenderInto(out: array<int>, active: nat -> TurnId)
      requires Valid()
      modifies this, queue, postbox, out
      ensures Valid()
      ensures var r := Render(old(View()), prefill, out.Length, active, 0);
              && View() == r.engine
              && out[..] == Heard(r.items) + Silence(r.silence)
              && postbox.View() == PostAll(old(postbox.View()), postbox.capacity, r.items)
    {
      hide Render, Heard, PostAll, Gated, SkipStale, Before, Samples, EndOf, DropCurrent;
      var filled, k := 0, 0;
      ghost var done: seq<Item> := [];
      ghost var start, box := View(), postbox.View();
      NothingYet(box, postbox.capacity);
      BeforeNothing(Render(start, prefill, out.Length, active, 0));
      while filled < out.Length
        invariant Valid() && filled <= out.Length && out[..filled] == Heard(done)
        invariant postbox.View() == PostAll(box, postbox.capacity, done)
        invariant Render(start, prefill, out.Length, active, 0)
                  == Before(done, Render(View(), prefill, out.Length - filled, active, k))
        decreases out.Length - filled, |queue.items|
      {
        ghost var s, need := View(), out.Length - filled;
        if pos >= |current.samples| {
          ghost var over := EndOf(current);
          LoadedRound(done, s, prefill, need, active, k);
          AfterEnd(done, s.current, box, postbox.capacity);
          Retire();
          var loaded := Load(active(k));
          done := done + over;
          if !loaded {
            FillSilence(out, filled);
            return;
          }
          k := k + 1;
          if current.samples == [] { continue; }
        }
        ghost var t := View();
        var take := Min(out.Length - filled, |current.samples| - pos);
        TakenRound(done, t, prefill, need, active, k);
        ghost var xs := current.samples[pos..pos + take];
        CopyOut(out, filled, take);
        AfterSamples(done, xs, box, postbox.capacity);
        done := done + Samples(xs);
        pos := pos + take;
        filled := filled + take;
      }
      RenderNothing(View(), prefill, active, k);
      BeforeAll(done, View(), [], 0);
      assert Heard(done) + Silence(0) == Heard(done) && done + [] == done && out[..filled] == out[..];
    }
  }

  // ----- Steps of the rendering loop -----

  lemma BeforeNothing(r: Rendered)
    ensures Before([], r) == r
  {}

  lemma BeforeTwice(a: seq<Item>, b: seq<Item>, r: Rendered)
    ensures Before(a, Before(b, r)) == Before(a + b, r)
  {
    assert a + (b + r.items) == a + b + r.items;
  }

  lemma BeforeAll(done: seq<Item>, s: Engine, items: seq<Item>, silence: nat)
    ensures Before(done, Rendered(s, items, silence)) == Rendered(s, done + items, silence)
  {}

  lemma RenderNothing(s: Engine, prefill: nat, active: nat -> TurnId, k: nat)
    requires InChunk(s)
    ensures Render(s, prefill, 0, active, k) == Rendered(s, [], 0)
  {}

  lemma RenderTakes(s: Engine, prefill: nat, need: nat, active: nat -> TurnId, k: nat)
    requires InChunk(s) && 0 < need && s.pos < |s.current.samples|
    ensures var take := Min(need, |s.current.samples| - s.pos);
            Render(s, prefill, need, active, k) ==
            Before(Samples(s.current.samples[s.pos..s.pos + take]),
                   Render(s.(pos := s.pos + take), prefill, need - take, active, k))
  {}

  lemma RenderLoads(s: Engine, prefill: nat, need: nat, active: nat -> TurnId, k: nat)
    requires InChunk(s) && 0 < need && s.pos >= |s.current.samples|
    ensures var t, over := DropCurrent(s), EndOf(s.current);
            var u, live := Primed(t, prefill, active(k)), SkipStale(t.queue, active(k));
            Render(s, prefill, need, active, k) ==
            if Gated(t, prefill, active(k)) then Rendered(t, over, need)
            else if live == [] then Rendered(u.(queue := []), over, need)
            else Before(over, Render(u.(current := live[0], pos := 0, queue := live[1..]), prefill, need, active, k + 1))
  {}

  /** One round of the loop that copies samples. */
  lemma TakenRound(done: seq<Item>, s: Engine, prefill: nat, need: nat, active: nat -> TurnId, k: nat)
    requires InChunk(s) && 0 < need && s.pos < |s.current.samples|
    ensures var take := Min(need, |s.current.samples| - s.pos);
            Before(done, Render(s, prefill, need, active, k)) ==
            Before(done + Samples(s.current.samples[s.pos..s.pos + take]),
                   Render(s.(pos := s.pos + take), prefill, need - take, active, k))
  {
    hide Render, Samples, Before;
    var take := Min(need, |s.current.samples| - s.pos);
    RenderTakes(s, prefill, need, active, k);
    BeforeTwice(done, Samples(s.current.samples[s.pos..s.pos + take]),
                Render(s.(pos := s.pos + take), prefill, need - take, active, k));
  }

  /** One round of the loop that ends a chunk and loads the next one. */
  lemma LoadedRound(done: seq<Item>, s: Engine, prefill: nat, need: nat, active: nat -> TurnId, k: nat)
    requires InChunk(s) && 0 < need && s.pos >= |s.current.samples|
    ensures var t, over := DropCurrent(s), done + EndOf(s.current);
            var u, live := Primed(t, prefill, active(k)), SkipStale(t.queue, active(k));
            Before(done, Render(s, prefill, need, active, k)) ==
            if Gated(t, prefill, active(k)) then Rendered(t, over, need)
            else if live == [] then Rendered(u.(queue := []), over, need)
            else Before(over, Render(u.(current := live[0], pos := 0, queue := live[1..]), prefill, need, active, k + 1))
  {
    hide Render, Before, Gated, EndOf, SkipStale, DropCurrent, Primed;
    var t, over := DropCurrent(s), EndOf(s.current);
    var u, live := Primed(t, prefill, active(k)), SkipStale(t.queue, active(k));
    RenderLoads(s, prefill, need, active, k);
    BeforeAll(done, t, over, need);
    BeforeAll(done, u.(queue := []), over, need);
    if live != [] {
      BeforeTwice(done, over, Render(u.(current := live[0], pos := 0, queue := live[1..]), prefill, need, active, k + 1));
    }
  }

  lemma {:induction false} HeardAppend(a: seq<Item>, b: seq<Item>)
    ensures Heard(a + b) == Heard(a) + Heard(b)
  {
    if b == [] {
      assert a + b == a;
    } else {
      assert (a + b)[..|a + b| - 1] == a + b[..|b| - 1];
      HeardAppend(a, b[..|b| - 1]);
    }
  }

  lemma {:induction false} HeardSamples(xs: seq<int>)
    ensures Heard(Samples(xs)) == xs
  {
    if xs != [] {
      assert Samples(xs)[..|xs| - 1] == Samples(xs[..|xs| - 1]);
      HeardSamples(xs[..|xs| - 1]);
    }
  }

  lemma {:induction false} PostAllAppend(q: Queue<Item>, capacity: nat, a: seq<Item>, b: seq<Item>)
    ensures PostAll(q, capacity, a + b) == PostAll(PostAll(q, capacity, a), capacity, b)
  {
    if b == [] {
      assert a + b == a;
    } else {
      assert (a + b)[..|a + b| - 1] == a + b[..|b| - 1];
      PostAllAppend(q, capacity, a, b[..|b| - 1]);
    }
  }

  lemma {:induction false} PostSamples(q: Queue<Item>, capacity: nat, xs: seq<int>)
    ensures PostAll(q, capacity, Samples(xs)) == q
  {
    if xs != [] {
      assert Samples(xs)[..|xs| - 1] == Samples(xs[..|xs| - 1]);
      PostSamples(q, capacity, xs[..|xs| - 1]);
    }
  }

  lemma PostOne(q: Queue<Item>, capacity: nat, e: Item)
    ensures PostAll(q, capacity, [e]) == if e.Finished? then Push(q, capacity, DropOldest, e).0 else q
    ensures PostAll(q, capacity, []) == q
  {
    assert [e][..0] == [];
  }

  lemma NothingYet(q: Queue<Item>, capacity: nat)
    ensures Heard([]) == [] && PostAll(q, capacity, []) == q
  {}

  lemma AfterEnd(done: seq<Item>, c: Chunk, q: Queue<Item>, capacity: nat)
    ensures Heard(done + EndOf(c)) == Heard(done)
    ensures PostAll(q, capacity, done + EndOf(c)) == PostAll(PostAll(q, capacity, done), capacity, EndOf(c))
  {
    HeardAppend(done, EndOf(c));
    PostAllAppend(q, capacity, done, EndOf(c));
    assert EndOf(c) != [] ==> EndOf(c)[..0] == [];
  }

  lemma AfterSamples(done: seq<Item>, xs: seq<int>, q: Queue<Item>, capacity: nat)
    ensures Heard(done + Samples(xs)) == Heard(done) + xs
    ensures PostAll(q, capacity, done + Samples(xs)) == PostAll(q, capacity, done)
  {
    HeardAppend(done, Samples(xs));
    HeardSamples(xs);
    PostAllAppend(q, capacity, done, Samples(xs));
    PostSamples(PostAll(q, capacity, done), capacity, xs);
  }

  // ----- Nothing is lost, repeated or reordered -----

  function ChunkItems(c: Chunk, from: nat): seq<Item>
    requires from <= |c.samples|
  {
    Samples(c.samples[from..]) + EndOf(c)
  }

  /** The items of the chunks of one turn, in order. */
  function QueueItems(items: seq<Chunk>, turn: TurnId): seq<Item> {
    if items == [] then [] else
    (if items[0].turn == turn then ChunkItems(items[0], 0) else []) + QueueItems(items[1..], turn)
  }

  /** What is still to come while `turn` is active. */
  function ToCome(s: Engine, turn: TurnId): seq<Item>
    requires InChunk(s)
  {
    ChunkItems(s.current, s.pos) + QueueItems(s.queue, turn)
  }

  ghost predicate Stays(active: nat -> TurnId, turn: TurnId) {
    forall k :: active(k) == turn
  }

  lemma {:induction false} SkipKeepsItems(items: seq<Chunk>, turn: TurnId)
    ensures QueueItems(SkipStale(items, turn), turn) == QueueItems(items, turn)
  {
    if items != [] && items[0].turn != turn { SkipKeepsItems(items[1..], turn); }
  }

  lemma SplitChunk(s: Engine, take: nat)
    requires s.pos + take <= |s.current.samples|
    ensures ChunkItems(s.current, s.pos) ==
            Samples(s.current.samples[s.pos..s.pos + take]) + ChunkItems(s.current, s.pos + take)
  {
    assert s.current.samples[s.pos..] == s.current.samples[s.pos..s.pos + take] + s.current.samples[s.pos + take..];
  }

  /** A chunk that is used up has only its end left, and dropping it leaves nothing. */
  lemma DropKeepsItems(s: Engine, turn: TurnId)
    requires s.pos == |s.current.samples|
    ensures ToCome(s, turn) == EndOf(s.current) + QueueItems(s.queue, turn)
    ensures ToCome(DropCurrent(s), turn) == QueueItems(s.queue, turn)
    ensures InChunk(DropCurrent(s)) && DropCurrent(s).pos == |DropCurrent(s).current.samples|
    ensures EndOf(DropCurrent(s).current) == []
  {
    assert s.current.samples[s.pos..] == [];
  }

  /** For any buffer size, chunk sizes and empty chunks: what one call renders, then what is still to
      come, is what was to come before. Silence is played only behind a closed gate or when nothing
      is left, and fills exactly the rest of the buffer. */
  lemma {:induction false} RenderConserves(s: Engine, prefill: nat, need: nat, active: nat -> TurnId, k: nat, turn: TurnId)
    requires InChunk(s) && Stays(active, turn)
    ensures var r := Render(s, prefill, need, active, k);
            && r.items + ToCome(r.engine, turn) == ToCome(s, turn)
            && |Heard(r.items)| + r.silence == need
            && (r.silence > 0 ==> ToCome(r.engine, turn) == [] || Gated(r.engine, prefill, turn))
    decreases need, |s.queue|
  {
    hide Render, ToCome, Heard, ChunkItems, Samples, Gated, DropCurrent, EndOf;
    if need == 0 {
      RenderNothing(s, prefill, active, k);
      HeardNothing();
      assert [] + ToCome(s, turn) == ToCome(s, turn);
    } else if s.pos < |s.current.samples| {
      var take := Min(need, |s.current.samples| - s.pos);
      var xs := s.current.samples[s.pos..s.pos + take];
      RenderTakes(s, prefill, need, active, k);
      RenderConserves(s.(pos := s.pos + take), prefill, need - take, active, k, turn);
      TakeConserves(s, take, turn);
      var r := Render(s.(pos := s.pos + take), prefill, need - take, active, k);
      HeardAppend(Samples(xs), r.items);
      HeardSamples(xs);
      assert Samples(xs) + r.items + ToCome(r.engine, turn) == Samples(xs) + (r.items + ToCome(r.engine, turn));
    } else {
      LoadConserves(s, prefill, need, active, k, turn);
      var t := DropCurrent(s);
      var u, live := Primed(t, prefill, turn), SkipStale(t.queue, turn);
      if !Gated(t, prefill, turn) && live != [] {
        var over, v := EndOf(s.current), u.(current := live[0], pos := 0, queue := live[1..]);
        DropShape(s);
        RenderConserves(v, prefill, need, active, k + 1, turn);
        var r := Render(v, prefill, need, active, k + 1);
        HeardAppend(over, r.items);
        EndIsSilent(s.current);
        assert over + r.items + ToCome(r.engine, turn) == over + (r.items + ToCome(r.engine, turn));
      }
    }
  }

  lemma HeardNothing()
    ensures Heard([]) == []
  {}

  lemma EndIsSilent(c: Chunk)
    ensures Heard(EndOf(c)) == []
  {
    assert EndOf(c) != [] ==> EndOf(c)[..0] == [];
  }

  lemma DropShape(s: Engine)
    ensures DropCurrent(s).queue == s.queue
  {}

  lemma TakeConserves(s: Engine, take: nat, turn: TurnId)
    requires s.pos + take <= |s.current.samples|
    ensures Samples(s.current.samples[s.pos..s.pos + take]) + ToCome(s.(pos := s.pos + take), turn) == ToCome(s, turn)
  {
    SplitChunk(s, take);
    hide Samples, ChunkItems;
  }

  lemma LoadConserves(s: Engine, prefill: nat, need: nat, active: nat -> TurnId, k: nat, turn: TurnId)
    requires InChunk(s) && 0 < need && s.pos >= |s.current.samples| && Stays(active, turn)
    ensures var t, over, r := DropCurrent(s), EndOf(s.current), Render(s, prefill, need, active, k);
            var u, live := Primed(t, prefill, turn), SkipStale(t.queue, turn);
            if Gated(t, prefill, turn) || live == [] then
              && r.items + ToCome(r.engine, turn) == ToCome(s, turn)
              && |Heard(r.items)| == 0 && r.silence == need
              && (Gated(r.engine, prefill, turn) || ToCome(r.engine, turn) == [])
            else
              var v := u.(current := live[0], pos := 0, queue := live[1..]);
              r == Before(over, Render(v, prefill, need, active, k + 1)) && over + ToCome(v, turn) == ToCome(s, turn)
  {
    hide Render, Gated, SkipStale, Heard;
    RenderLoads(s, prefill, need, active, k);
    DropKeepsItems(s, turn);
    var t := DropCurrent(s);
    SkipKeepsItems(t.queue, turn);
    EndIsSilent(s.current);
  }

  // ----- The prefill gate -----

  lemma {:induction false} PrimedStays(s: Engine, prefill: nat, need: nat, active: nat -> TurnId, k: nat, turn: TurnId)
    requires InChunk(s) && Stays(active, turn) && s.primed == turn
    ensures Render(s, prefill, need, active, k).engine.primed == turn
    decreases need, |s.queue|
  {
    hide Samples, EndOf;
    if need > 0 {
      if s.pos < |s.current.samples| {
        var take := Min(need, |s.current.samples| - s.pos);
        PrimedStays(s.(pos := s.pos + take), prefill, need - take, active, k, turn);
      } else {
        var t, live := DropCurrent(s), SkipStale(s.queue, turn);
        if live != [] {
          PrimedStays(Primed(t, prefill, turn).(current := live[0], pos := 0, queue := live[1..]), prefill, need, active, k + 1, turn);
        }
      }
    }
  }

  lemma GateOpens(s: Engine, prefill: nat, need: nat, active: nat -> TurnId, k: nat, turn: TurnId)
    requires s.current == NO_CHUNK && s.pos == 0 && 0 < need && Stays(active, turn) && !Gated(s, prefill, turn)
    ensures !Gated(Render(s, prefill, need, active, k).engine, prefill, turn)
  {
    hide Render, SamplesFor;
    RenderLoads(s, prefill, need, active, k);
    var u, live := Primed(s, prefill, turn), SkipStale(s.queue, turn);
    if live != [] && u.primed == turn {
      PrimedStays(u.(current := live[0], pos := 0, queue := live[1..]), prefill, need, active, k + 1, turn);
    }
  }

  /** An engine between chunks, with audio of the active turn queued, plays none of it and stays as it
      is exactly when the gate is closed; so a turn whose audio never reaches the prefill target is
      held for ever, and the end of its sentences is never posted. */
  lemma PrefillHoldsExactlyWhen(s: Engine, prefill: nat, need: nat, active: nat -> TurnId, k: nat, turn: TurnId)
    requires s.current == NO_CHUNK && s.pos == 0 && 0 < need && Stays(active, turn) && ToCome(s, turn) != []
    ensures var r := Render(s, prefill, need, active, k);
            && (r.items == [] <==> Gated(s, prefill, turn))
            && (Gated(s, prefill, turn) ==> r.engine == s && r.silence == need)
  {
    hide Render, ToCome, SamplesFor, Gated, SkipStale;
    RenderLoads(s, prefill, need, active, k);
    if !Gated(s, prefill, turn) {
      GateOpens(s, prefill, need, active, k, turn);
      RenderConserves(s, prefill, need, active, k, turn);
      HeardNothing();
      var r := Render(s, prefill, need, active, k);
      assert [] + ToCome(r.engine, turn) == ToCome(r.engine, turn);
    }
  }

  /** A chunk shorter than 100 ms at 48 kHz, alone in the queue of a new turn, is never played. */
  lemma HeldChunk(turn: TurnId, need: nat, samples: seq<int>)
    requires turn != NO_TURN && 0 < |samples| < 4800 && 0 < need
    ensures var s := Engine(NO_CHUNK, 0, NO_TURN, [Chunk(turn, 0, samples, true)]);
            ToCome(s, turn) != [] && Render(s, 4800, need, _ => turn, 0) == Rendered(s, [], need)
  {
    var chunk := Chunk(turn, 0, samples, true);
    var s := Engine(NO_CHUNK, 0, NO_TURN, [chunk]);
    assert [chunk][..0] == [] && [chunk][1..] == [];
    hide Render, SamplesFor;
    assert Gated(s, 4800, turn) by { OneChunkOf(chunk); }
    PrefillHoldsExactlyWhen(s, 4800, need, _ => turn, 0, turn);
  }

  lemma OneChunkOf(chunk: Chunk)
    ensures SamplesFor([chunk], chunk.turn) == |chunk.samples|
  {
    assert [chunk][..0] == [];
  }

  // ----- Whole runs -----

  /** The producer adds a chunk, the device asks for a buffer, an older turn is invalidated. */
  datatype Op = Produce(c: Chunk) | Device(frames: nat) | Invalidate(turn: TurnId)

  /** The engine, everything rendered so far, and the items of the accepted chunks of the turn. */
  datatype Played = Played(engine: Engine, rendered: seq<Item>, accepted: seq<Item>)

  function Step(w: Played, cap: nat, prefill: nat, turn: TurnId, op: Op): (v: Played)
    requires InChunk(w.engine)
    ensures InChunk(v.engine)
  {
    match op
    case Produce(c) =>
      if cap != 0 && |w.engine.queue| >= cap then w
      else Played(w.engine.(queue := w.engine.queue + [c]), w.rendered, w.accepted + QueueItems([c], turn))
    case Device(frames) =>
      var r := Render(w.engine, prefill, frames, _ => turn, 0);
      Played(r.engine, w.rendered + r.items, w.accepted)
    case Invalidate(other) =>
      w.(engine := w.engine.(queue := NotBefore(w.engine.queue, other)))
  }

  function Run(cap: nat, prefill: nat, turn: TurnId, ops: seq<Op>): (w: Played)
    ensures InChunk(w.engine)
  {
    if ops == [] then Played(Engine(NO_CHUNK, 0, NO_TURN, []), [], [])
    else Step(Run(cap, prefill, turn, ops[..|ops| - 1]), cap, prefill, turn, ops[|ops| - 1])
  }

  lemma {:induction false} QueueItemsAppend(a: seq<Chunk>, b: seq<Chunk>, turn: TurnId)
    ensures QueueItems(a + b, turn) == QueueItems(a, turn) + QueueItems(b, turn)
  {
    hide ChunkItems;
    if a == [] {
      assert a + b == b;
    } else {
      assert (a + b)[1..] == a[1..] + b;
      QueueItemsAppend(a[1..], b, turn);
    }
  }

  lemma OneQueueItem(c: Chunk, turn: TurnId)
    ensures QueueItems([c], turn) == if c.turn == turn then ChunkItems(c, 0) else []
  {
    assert [c][1..] == [];
  }

  lemma {:induction false} InvalidateKeepsItems(items: seq<Chunk>, other: TurnId, turn: TurnId)
    requires other <= turn
    ensures QueueItems(NotBefore(items, other), turn) == QueueItems(items, turn)
  {
    hide ChunkItems;
    if items != [] {
      var n := |items| - 1;
      InvalidateKeepsItems(items[..n], other, turn);
      assert items == items[..n] + [items[n]];
      QueueItemsAppend(items[..n], [items[n]], turn);
      QueueItemsAppend(NotBefore(items[..n], other), [items[n]], turn);
      OneQueueItem(items[n], turn);
      assert NotBefore(items[..n], other) + [] == NotBefore(items[..n], other);
      assert QueueItems(items[..n], turn) + [] == QueueItems(items[..n], turn);
    }
  }

  lemma StepConserves(w: Played, cap: nat, prefill: nat, turn: TurnId, op: Op)
    requires InChunk(w.engine) && w.rendered + ToCome(w.engine, turn) == w.accepted
    requires op.Invalidate? ==> op.turn <= turn
    ensures var v := Step(w, cap, prefill, turn, op);
            v.rendered + ToCome(v.engine, turn) == v.accepted
  {
    hide Render, ChunkItems, QueueItems;
    match op
    case Produce(c) => QueueItemsAppend(w.engine.queue, [c], turn);
    case Device(frames) =>
      RenderConserves(w.engine, prefill, frames, _ => turn, 0, turn);
      var r := Render(w.engine, prefill, frames, _ => turn, 0);
      assert w.rendered + r.items + ToCome(r.engine, turn) == w.rendered + (r.items + ToCome(r.engine, turn));
    case Invalidate(other) => InvalidateKeepsItems(w.engine.queue, other, turn);
  }

  /** Over any run with a fixed active turn, what was rendered and what is still to come are exactly
      the samples and sentence ends of the accepted chunks of that turn, in order: every sample once,
      and every end of sentence posted once, after the last sample of its chunk. */
  lemma {:induction false} RunConserves(cap: nat, prefill: nat, turn: TurnId, ops: seq<Op>)
    requires forall i :: 0 <= i < |ops| && ops[i].Invalidate? ==> ops[i].turn <= turn
    ensures var w := Run(cap, prefill, turn, ops);
            w.rendered + ToCome(w.engine, turn) == w.accepted
  {
    hide Step, ToCome;
    if ops == [] {
      assert [] + ToCome(Engine(NO_CHUNK, 0, NO_TURN, []), turn) == [] by { NothingToCome(turn); }
    } else {
      RunConserves(cap, prefill, turn, ops[..|ops| - 1]);
      StepConserves(Run(cap, prefill, turn, ops[..|ops| - 1]), cap, prefill, turn, ops[|ops| - 1]);
    }
  }

  lemma NothingToCome(turn: TurnId)
    ensures ToCome(Engine(NO_CHUNK, 0, NO_TURN, []), turn) == []
  {}
}
