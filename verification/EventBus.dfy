/** EventBus and Subscription of src/event/bus.cpp: publishing pushes an event to the matching
    subscriptions in the order in which they subscribed, and each subscription handles its queue on
    its own thread. The machine interleaves any number of publishers with the subscribers' workers. */
module EventBus {
  import Q = BoundedQueue
  import opened Events
  import opened Wrappers

  /** A subscription to every event, or to one alternative of the event type. */
  datatype Target = Every | Only(kind: nat)

  function KindOf(e: Event): nat {
    match e
    case SpeechStarted => 0
    case SpeechEnded => 1
    case FinalTranscript => 2
    case LlmStarted(_) => 3
    case LlmSentence(_, _, _, _) => 4
    case LlmFinished(_, _) => 5
    case PlaybackFinished(_, _) => 6
    case UserInterrupted(_) => 7
    case CancelGeneration(_) => 8
    case OtherEvent => 9
  }

  predicate Matches(t: Target, e: Event) {
    t == Every || t == Only(KindOf(e))
  }

  /** Two events of the same alternative. */
  predicate SameAlternative(e: Event, f: Event) {
    match e
    case SpeechStarted => f.SpeechStarted?
    case SpeechEnded => f.SpeechEnded?
    case FinalTranscript => f.FinalTranscript?
    case LlmStarted(_) => f.LlmStarted?
    case LlmSentence(_, _, _, _) => f.LlmSentence?
    case LlmFinished(_, _) => f.LlmFinished?
    case PlaybackFinished(_, _) => f.PlaybackFinished?
    case UserInterrupted(_) => f.UserInterrupted?
    case CancelGeneration(_) => f.CancelGeneration?
    case OtherEvent => f.OtherEvent?
  }

  lemma MatchesAlternative(e: Event, f: Event)
    ensures Matches(Every, e) && (Matches(Only(KindOf(f)), e) <==> SameAlternative(e, f))
  {}

  class Subscription {
    const target: Target
    const queue: Q.BoundedQueue<Event>

    constructor (t: Target, capacity: nat, policy: Q.Policy)
      ensures target == t && fresh(queue) && queue.capacity == capacity && queue.policy == policy
      ensures queue.View() == Q.Queue([], false, 0, 0, 0)
    {
      target := t;
      queue := new Q.BoundedQueue(capacity, policy);
    }
  }

  class EventBus {
    var subs: seq<Subscription>
    var shuttingDown: bool
    var published: nat

    constructor ()
      ensures subs == [] && !shuttingDown && published == 0
    {
      subs, shuttingDown, published := [], false, 0;
    }

    /** No two subscriptions share a queue. */
    ghost predicate Valid()
      reads this
    {
      && (forall i, j :: 0 <= i < j < |subs| ==> subs[i].queue != subs[j].queue)
      && (forall i :: 0 <= i < |subs| ==> subs[i].queue.policy == Q.DropOldest ==> subs[i].queue.capacity > 0)
    }

    method RegisterSub(target: Target, capacity: nat, policy: Q.Policy) returns (sub: Subscription)
      requires Valid() && (policy == Q.DropOldest ==> capacity > 0)
      modifies this`subs
      ensures Valid() && subs == old(subs) + [sub] && sub.target == target && fresh(sub.queue)
    {
      sub := new Subscription(target, capacity, policy);
      assert forall i :: 0 <= i < |subs| ==> subs[i].queue != sub.queue;
      subs := subs + [sub];
    }

    /** The queue of subscription `i` after the event was published. */
    ghost function Published(i: nat, e: Event): Q.Queue<Event>
      requires i < |subs|
      reads this, subs[i].queue
    {
      var q := subs[i].queue;
      if Matches(subs[i].target, e) then Q.Push(q.View(), q.capacity, q.policy, e).0 else q.View()
    }

    /** A push to the queue of subscription `i` has to wait for space. */
    ghost predicate MustWait(i: nat, e: Event)
      requires i < |subs|
      reads this, subs[i].queue
    {
      var q := subs[i].queue;
      Matches(subs[i].target, e) && Q.Push(q.View(), q.capacity, q.policy, e).1 == Q.MustWait
    }

    /** The fan-out from subscription `from` on. It goes as far as it can: to the end, or to a full queue
        of the policy `Block`, from where it goes on when there is space again. */
    method PublishFrom(e: Event, from: nat) returns (next: nat)
      requires Valid() && from <= |subs|
      modifies set i | 0 <= i < |subs| :: subs[i].queue
      ensures Valid() && from <= next <= |subs|
      ensures forall i :: from <= i < next ==> subs[i].queue.View() == old(Published(i, e)) && !old(MustWait(i, e))
      ensures forall i :: 0 <= i < from || next <= i < |subs| ==> subs[i].queue.View() == old(subs[i].queue.View())
      ensures next < |subs| ==> old(MustWait(next, e))
    {
      hide Q.Push;
      next := from;
      while next < |subs|
        invariant from <= next <= |subs|
        invariant forall i :: from <= i < next ==> subs[i].queue.View() == old(Published(i, e)) && !old(MustWait(i, e))
        invariant forall i :: 0 <= i < from || next <= i < |subs| ==> subs[i].queue.View() == old(subs[i].queue.View())
      {
        var q := subs[next].queue;
        if Matches(subs[next].target, e) {
          WaitingChangesNothing(q.View(), q.capacity, q.policy, e);
          var result := q.PushItem(e);
          if result == Q.MustWait { return; }
        }
        next := next + 1;
      }
    }

    method PublishEvent(e: Event) returns (next: nat)
      requires Valid()
      modifies this`published, set i | 0 <= i < |subs| :: subs[i].queue
      ensures Valid() && next <= |subs| && published == old(published) + if shuttingDown then 0 else 1
      ensures shuttingDown ==> next == |subs| && forall i :: 0 <= i < |subs| ==> subs[i].queue.View() == old(subs[i].queue.View())
      ensures !shuttingDown ==> forall i :: 0 <= i < |subs| ==>
                subs[i].queue.View() == if i < next then old(Published(i, e)) else old(subs[i].queue.View())
      ensures !shuttingDown && next < |subs| ==> old(MustWait(next, e))
    {
      if shuttingDown { return |subs|; }
      published := published + 1;
      next := PublishFrom(e, 0);
    }
  }

  lemma WaitingChangesNothing(q: Q.Queue<Event>, capacity: nat, policy: Q.Policy, e: Event)
    ensures Q.Push(q, capacity, policy, e).1 == Q.MustWait ==> Q.Push(q, capacity, policy, e).0 == q
  {}

  // ----- All interleavings -----

  /** A publication in progress: the subscriptions below `cursor` have been visited. */
  datatype Publication = Publication(e: Event, cursor: nat)

  /** What a worker does next: look at the running flag, or wait for an event and handle it. */
  datatype Worker = AtCheck | Popping | Exited

  /** What a subscriber asks for. */
  datatype Options = Options(target: Target, capacity: nat, policy: Q.Policy)

  /** `log` is everything ever put in the queue, by publication; the first `gone` of it have left it, and
      `handled` are the positions in the log that reached the handler. */
  datatype Sub = Sub(opts: Options, log: seq<nat>, gone: nat, handled: seq<nat>, running: bool, closed: bool, worker: Worker)

  datatype Bus = Bus(pubs: seq<Publication>, subs: seq<Sub>)

  datatype Step = Begin(e: Event) | PushNext(p: nat) | Check(i: nat) | PopOne(i: nat) | StopRunning(i: nat) | CloseQueue(i: nat)

  predicate Enabled(s: Bus, step: Step) {
    match step
    case Begin(_) => true
    case PushNext(p) =>
      && p < |s.pubs| && s.pubs[p].cursor < |s.subs|
      && var sub := s.subs[s.pubs[p].cursor];
         Wants(sub, s.pubs[p].e) && sub.opts.policy == Q.Block ==> HasRoom(sub) || sub.closed
    case Check(i) => i < |s.subs| && s.subs[i].worker == AtCheck
    case PopOne(i) =>
      && i < |s.subs| && s.subs[i].worker == Popping
      && (s.subs[i].gone < |s.subs[i].log| || s.subs[i].closed)
    case StopRunning(i) => i < |s.subs|
    case CloseQueue(i) => i < |s.subs| && !s.subs[i].running
  }

  predicate Wants(sub: Sub, e: Event) { Matches(sub.opts.target, e) }
  predicate HasRoom(sub: Sub) { |sub.log| - sub.gone < sub.opts.capacity }

  /** A push; to a full queue of the policy `Block` it has to wait. */
  function Pushed(sub: Sub, p: nat): Sub {
    if sub.closed then sub
    else if HasRoom(sub) then sub.(log := sub.log + [p])
    else if sub.opts.policy == Q.DropOldest then sub.(log := sub.log + [p], gone := sub.gone + 1)
    else sub
  }

  function Popped(sub: Sub): Sub {
    if sub.gone >= |sub.log| then sub.(worker := Exited)
    else sub.(gone := sub.gone + 1, handled := sub.handled + [sub.gone], worker := AtCheck)
  }

  function Apply(s: Bus, step: Step): Bus
    requires Enabled(s, step)
  {
    match step
    case Begin(e) => s.(pubs := s.pubs + [Publication(e, 0)])
    case PushNext(p) =>
      var c, e := s.pubs[p].cursor, s.pubs[p].e;
      s.(pubs := s.pubs[p := Publication(e, c + 1)],
         subs := if Wants(s.subs[c], e) then s.subs[c := Pushed(s.subs[c], p)] else s.subs)
    case Check(i) => s.(subs := s.subs[i := s.subs[i].(worker := if s.subs[i].running then Popping else Exited)])
    case PopOne(i) => s.(subs := s.subs[i := Popped(s.subs[i])])
    case StopRunning(i) => s.(subs := s.subs[i := s.subs[i].(running := false)])
    case CloseQueue(i) => s.(subs := s.subs[i := s.subs[i].(closed := true)])
  }

  function Run(s: Bus, steps: seq<Step>): Option<Bus> {
    if steps == [] then Some(s) else
    var before := Run(s, steps[..|steps| - 1]);
    if before.None? || !Enabled(before.value, steps[|steps| - 1]) then None
    else Some(Apply(before.value, steps[|steps| - 1]))
  }

  function Idle(subs: seq<Options>): Bus {
    Bus([], seq(|subs|, i requires 0 <= i < |subs| => Sub(subs[i], [], 0, [], true, false, AtCheck)))
  }

  // ----- Order -----

  ghost predicate Increasing(xs: seq<nat>, bound: nat) {
    && (forall i, j :: 0 <= i < j < |xs| ==> xs[i] < xs[j])
    && (forall i :: 0 <= i < |xs| ==> xs[i] < bound)
  }

  /** A subscription's log holds exactly the matching publications that have passed it, once each. */
  ghost predicate LogOk(pubs: seq<Publication>, sub: Sub, i: nat) {
    && sub.gone <= |sub.log| && Increasing(sub.handled, sub.gone)
    && (forall x :: 0 <= x < |sub.log| ==> Visited(pubs, sub.log[x], i) && Wants(sub, pubs[sub.log[x]].e))
    && (forall x, y :: 0 <= x < y < |sub.log| ==> sub.log[x] != sub.log[y])
    && (forall p: nat :: Visited(pubs, p, i) && Wants(sub, pubs[p].e) && !sub.closed && sub.opts.policy != Q.DropNewest ==> p in sub.log)
  }

  predicate Visited(pubs: seq<Publication>, p: nat, i: nat) {
    p < |pubs| && i < pubs[p].cursor
  }

  ghost predicate Ordered(s: Bus) {
    forall i :: 0 <= i < |s.subs| ==> LogOk(s.pubs, s.subs[i], i)
  }

  lemma BeginKeeps(pubs: seq<Publication>, sub: Sub, i: nat, e: Event)
    requires LogOk(pubs, sub, i)
    ensures LogOk(pubs + [Publication(e, 0)], sub, i)
  {
    var after := pubs + [Publication(e, 0)];
    assert forall p: nat :: Visited(after, p, i) <==> Visited(pubs, p, i);
    assert forall p :: 0 <= p < |pubs| ==> after[p] == pubs[p];
  }

  lemma VisitKeeps(pubs: seq<Publication>, sub: Sub, i: nat, p: nat)
    requires p < |pubs| && LogOk(pubs, sub, i)
    requires pubs[p].cursor == i && Wants(sub, pubs[p].e) && sub.opts.policy == Q.Block ==> HasRoom(sub) || sub.closed
    ensures var c, e := pubs[p].cursor, pubs[p].e;
            var after := pubs[p := Publication(e, c + 1)];
            LogOk(after, if c == i && Wants(sub, e) then Pushed(sub, p) else sub, i)
  {
    var c, e := pubs[p].cursor, pubs[p].e;
    var after := pubs[p := Publication(e, c + 1)];
    assert forall q: nat :: Visited(after, q, i) <==> Visited(pubs, q, i) || (q == p && c == i);
    assert forall q :: 0 <= q < |pubs| ==> after[q].e == pubs[q].e;
    if c == i && Wants(sub, e) && Pushed(sub, p) != sub {
      var log := sub.log + [p];
      assert forall x :: 0 <= x < |sub.log| ==> Visited(pubs, sub.log[x], i);
      assert log[|sub.log|] == p;
      forall q: nat | Visited(after, q, i) && Wants(sub, after[q].e) && sub.opts.policy != Q.DropNewest ensures q in log {
        if q != p { assert Visited(pubs, q, i); }
      }
    }
  }

  lemma WorkerKeeps(pubs: seq<Publication>, sub: Sub, i: nat)
    requires LogOk(pubs, sub, i)
    ensures LogOk(pubs, Popped(sub), i)
  {}

  lemma StepOrders(s: Bus, step: Step)
    requires Ordered(s) && Enabled(s, step)
    ensures Ordered(Apply(s, step))
  {
    var t := Apply(s, step);
    forall i | 0 <= i < |t.subs| ensures LogOk(t.pubs, t.subs[i], i) {
      assert LogOk(s.pubs, s.subs[i], i);
      match step
      case Begin(e) => BeginKeeps(s.pubs, s.subs[i], i, e);
      case PushNext(p) => VisitKeeps(s.pubs, s.subs[i], i, p);
      case PopOne(k) => if k == i { WorkerKeeps(s.pubs, s.subs[i], i); }
      case _ =>
    }
  }

  lemma {:induction false} RunOrders(s: Bus, steps: seq<Step>)
    requires Ordered(s) && Run(s, steps).Some?
    ensures Ordered(Run(s, steps).value)
  {
    hide Ordered, Apply, Enabled;
    if steps != [] {
      RunOrders(s, steps[..|steps| - 1]);
      StepOrders(Run(s, steps[..|steps| - 1]).value, steps[|steps| - 1]);
    }
  }

  lemma IdleIsOrdered(subs: seq<Options>)
    ensures Ordered(Idle(subs))
  {
    var s := Idle(subs);
    forall i | 0 <= i < |s.subs| ensures LogOk(s.pubs, s.subs[i], i) {
      assert s.subs[i].log == [] && s.pubs == [];
    }
  }

  /** What a step leaves alone: nothing is taken out of a log, nothing is added to a closed one, and a
      publication keeps its event. */
  ghost predicate Later(s: Bus, t: Bus) {
    && |s.pubs| <= |t.pubs| && (forall p :: 0 <= p < |s.pubs| ==> t.pubs[p].e == s.pubs[p].e)
    && |t.subs| == |s.subs|
    && (forall i :: 0 <= i < |s.subs| ==> SubLater(s.subs[i], t.subs[i]))
  }

  ghost predicate SubLater(a: Sub, b: Sub) {
    && b.opts == a.opts && a.log <= b.log
    && (a.closed ==> b.closed && b.log == a.log)
  }

  lemma {:induction false} RunIsLater(s: Bus, steps: seq<Step>)
    requires Run(s, steps).Some?
    ensures Later(s, Run(s, steps).value)
  {
    if steps != [] {
      RunIsLater(s, steps[..|steps| - 1]);
      var t, step := Run(s, steps[..|steps| - 1]).value, steps[|steps| - 1];
      assert forall i :: 0 <= i < |t.subs| ==> SubLater(t.subs[i], Apply(t, step).subs[i]);
      assert forall i :: 0 <= i < |t.subs| ==> SubLater(s.subs[i], t.subs[i]);
    }
  }

  /** Subscription `j` has handled publication `q`. */
  ghost predicate HasHandled(s: Bus, j: nat, q: nat) {
    j < |s.subs| && exists h :: 0 <= h < |s.subs[j].handled| && s.subs[j].handled[h] < |s.subs[j].log|
                                && s.subs[j].log[s.subs[j].handled[h]] == q
  }

  /** Causal order. Whatever is published, by whichever thread, after some subscription has handled `q`
      comes after `q` in the queue of every subscription that subscribed no later and wants `q`. */
  lemma CausalOrder(subs: seq<Options>, past: seq<Step>, future: seq<Step>, i: nat, j: nat, q: nat, p: nat, y: nat)
    requires Run(Idle(subs), past).Some?
    requires var now := Run(Idle(subs), past).value;
             && HasHandled(now, j, q) && |now.pubs| <= p && i <= j && Run(now, future).Some?
    requires var now := Run(Idle(subs), past).value;
             var later := Run(now, future).value;
             && i < |later.subs| && y < |later.subs[i].log| && later.subs[i].log[y] == p
             && q < |later.pubs| && Wants(later.subs[i], later.pubs[q].e) && later.subs[i].opts.policy != Q.DropNewest
    ensures var now := Run(Idle(subs), past).value;
            exists x :: 0 <= x < y && Run(now, future).value.subs[i].log[x] == q
  {
    var now := Run(Idle(subs), past).value;
    IdleIsOrdered(subs);
    RunOrders(Idle(subs), past);
    RunIsLater(now, future);
    var later := Run(now, future).value;
    hide Run;
    var a, b := now.subs[i], later.subs[i];
    assert SubLater(a, b) && LogOk(now.pubs, now.subs[j], j) && LogOk(now.pubs, a, i);
    var h :| 0 <= h < |now.subs[j].handled| && now.subs[j].handled[h] < |now.subs[j].log| && now.subs[j].log[now.subs[j].handled[h]] == q;
    assert Visited(now.pubs, q, j);
    assert Visited(now.pubs, q, i);
    assert forall x :: 0 <= x < |a.log| ==> a.log[x] < |now.pubs| by {
      assert forall x :: 0 <= x < |a.log| ==> Visited(now.pubs, a.log[x], i);
    }
    assert b.log[..|a.log|] == a.log;
    assert y >= |a.log|;
    assert q in a.log;
    var x :| 0 <= x < |a.log| && a.log[x] == q;
    assert b.log[x] == q;
  }

  /** Each subscription handles a publication at most once and in the order of its queue. */
  lemma HandledOnceInOrder(subs: seq<Options>, steps: seq<Step>, i: nat)
    requires Run(Idle(subs), steps).Some? && i < |Run(Idle(subs), steps).value.subs|
    ensures var sub := Run(Idle(subs), steps).value.subs[i];
            && Increasing(sub.handled, |sub.log|)
            && (forall x, y :: 0 <= x < y < |sub.log| ==> sub.log[x] != sub.log[y])
  {
    IdleIsOrdered(subs);
    RunOrders(Idle(subs), steps);
    assert LogOk(Run(Idle(subs), steps).value.pubs, Run(Idle(subs), steps).value.subs[i], i);
  }

  /** In every interleaving a subscription to one alternative is given events of that alternative only, and,
      unless it is closed or refuses what does not fit, every such event that has passed it; a subscription to
      everything is given everything. */
  lemma TypedSubscription(subs: seq<Options>, steps: seq<Step>, i: nat, f: Event)
    requires Run(Idle(subs), steps).Some? && i < |Run(Idle(subs), steps).value.subs|
    requires Run(Idle(subs), steps).value.subs[i].opts.target in {Every, Only(KindOf(f))}
    ensures var s := Run(Idle(subs), steps).value;
            var sub := s.subs[i];
            && (forall x :: 0 <= x < |sub.log| ==>
                  sub.log[x] < |s.pubs| && (sub.opts.target == Every || SameAlternative(s.pubs[sub.log[x]].e, f)))
            && (!sub.closed && sub.opts.policy != Q.DropNewest ==>
                  forall p: nat :: Visited(s.pubs, p, i) && (sub.opts.target == Every || SameAlternative(s.pubs[p].e, f)) ==>
                    p in sub.log)
  {
    IdleIsOrdered(subs);
    RunOrders(Idle(subs), steps);
    hide Run, Ordered, KindOf, SameAlternative;
    var s := Run(Idle(subs), steps).value;
    OrderedAt(s, i);
    var sub := s.subs[i];
    forall p: nat | p < |s.pubs| ensures Wants(sub, s.pubs[p].e) <==> sub.opts.target == Every || SameAlternative(s.pubs[p].e, f) {
      MatchesAlternative(s.pubs[p].e, f);
    }
    forall x | 0 <= x < |sub.log| ensures sub.log[x] < |s.pubs| && Wants(sub, s.pubs[sub.log[x]].e) {
      assert Visited(s.pubs, sub.log[x], i);
    }
  }

  lemma OrderedAt(s: Bus, i: nat)
    requires Ordered(s) && i < |s.subs|
    ensures LogOk(s.pubs, s.subs[i], i)
  {}

  /** The bounded queue that a subscription's log stands for. */
  function QueueOf(sub: Sub): seq<nat>
    requires sub.gone <= |sub.log|
  {
    sub.log[sub.gone..]
  }

  /** A push to a subscription, where it need not wait, and a pop are those of the bounded queue. */
  lemma SubIsQueue(sub: Sub, p: nat, q: Q.Queue<nat>)
    requires sub.gone <= |sub.log| && sub.opts.capacity > 0 && q.items == QueueOf(sub) && q.closed == sub.closed
    ensures var (after, result) := Q.Push(q, sub.opts.capacity, sub.opts.policy, p);
            && (result == Q.MustWait <==> !sub.closed && !HasRoom(sub) && sub.opts.policy == Q.Block)
            && Pushed(sub, p).gone <= |Pushed(sub, p).log| && QueueOf(Pushed(sub, p)) == after.items
    ensures var (after, x) := Q.TryPop(q);
            && Popped(sub).gone <= |Popped(sub).log| && QueueOf(Popped(sub)) == after.items
            && Popped(sub).handled == sub.handled + (if x.Some? then [sub.gone] else [])
            && (x.Some? ==> sub.log[sub.gone] == x.value)
  {
    var pushed := Pushed(sub, p);
    if !sub.closed && (HasRoom(sub) || sub.opts.policy == Q.DropOldest) {
      assert pushed.log[sub.gone..] == QueueOf(sub) + [p];
      if !HasRoom(sub) { assert pushed.log[sub.gone + 1..] == QueueOf(sub)[1..] + [p]; }
    }
  }

  // ----- Stopping -----

  function Queued(sub: Sub): int { |sub.log| - sub.gone }

  /** What subscription `a` had queued when it was told to stop, and what its queue, then `b`, accepted
      since. */
  function ToHandle(a: Sub, b: Sub): int { Queued(a) + |b.log| - |a.log| }

  /** Between the stop of subscription `a` and its later state `b`: a worker that was about to look at the
      flag handles nothing more; one that was waiting handles one event, if there is or comes one. */
  ghost predicate Stopping(a: Sub, b: Sub) {
    && b.opts == a.opts && !b.running && b.gone <= |b.log| && |a.log| <= |b.log|
    && match a.worker
       case Popping =>
         if b.worker == Popping then b.handled == a.handled && (Queued(b) > 0 <==> ToHandle(a, b) > 0)
         else if |b.handled| == |a.handled| then ToHandle(a, b) == 0 && b.closed
         else |b.handled| == |a.handled| + 1 && ToHandle(a, b) > 0
       case _ => b.worker != Popping && b.handled == a.handled
  }

  lemma StepStops(s: Bus, step: Step, a: Sub, i: nat)
    requires i < |s.subs| && Enabled(s, step) && a.opts.capacity > 0 && a.gone <= |a.log| && Stopping(a, s.subs[i])
    ensures |Apply(s, step).subs| == |s.subs| && Stopping(a, Apply(s, step).subs[i])
  {}

  lemma {:induction false} RunStops(s: Bus, steps: seq<Step>, i: nat)
    requires i < |s.subs| && Run(s, steps).Some?
    requires var a := s.subs[i]; !a.running && a.gone <= |a.log| && a.opts.capacity > 0
    ensures |Run(s, steps).value.subs| == |s.subs| && Stopping(s.subs[i], Run(s, steps).value.subs[i])
  {
    hide Apply, Enabled, Stopping;
    if steps == [] {
      assert Stopping(s.subs[i], s.subs[i]) by { StartsStopping(s.subs[i]); }
    } else {
      RunStops(s, steps[..|steps| - 1], i);
      StepStops(Run(s, steps[..|steps| - 1]).value, steps[|steps| - 1], s.subs[i], i);
    }
  }

  lemma StartsStopping(a: Sub)
    requires !a.running && a.gone <= |a.log|
    ensures Stopping(a, a)
  {}

  /** Once the running flag is cleared the worker handles at most one more event, whatever is published
      before the queue is closed: the one it is waiting for. When it leaves, everything that was queued or
      came since was handled, as the header promises, exactly when that is no more than this one event. */
  lemma StopDrainsExactlyWhen(s: Bus, steps: seq<Step>, i: nat)
    requires i < |s.subs| && Run(s, steps).Some?
    requires var a := s.subs[i]; !a.running && a.gone <= |a.log| && a.opts.capacity > 0 && a.worker != Exited
    requires i < |Run(s, steps).value.subs| && Run(s, steps).value.subs[i].worker == Exited
    ensures var a, b := s.subs[i], Run(s, steps).value.subs[i];
            var more := |b.handled| - |a.handled|;
            && more == (if a.worker == Popping && ToHandle(a, b) > 0 then 1 else 0)
            && (more == ToHandle(a, b) <==> ToHandle(a, b) <= (if a.worker == Popping then 1 else 0))
  {
    hide Run;
    RunStops(s, steps, i);
  }

  /** Two events are queued when the worker is told to stop: it leaves without handling either. */
  lemma StopLosesQueuedEvents()
    ensures var run := Run(Idle([Options(Every, 512, Q.Block)]), [Begin(OtherEvent), PushNext(0), Begin(OtherEvent), PushNext(1),
                                                StopRunning(0), CloseQueue(0), Check(0)]);
            run.Some? && run.value.subs[0].worker == Exited && run.value.subs[0].handled == [] && Queued(run.value.subs[0]) == 2
  {
    var s, e := Idle([Options(Every, 512, Q.Block)]), OtherEvent;
    var r1 := [Begin(e)];
    var r2 := r1 + [PushNext(0)];
    var r3 := r2 + [Begin(e)];
    var r4 := r3 + [PushNext(1)];
    var r5 := r4 + [StopRunning(0)];
    var r6 := r5 + [CloseQueue(0)];
    OneMore(s, [], Begin(e));
    assert [] + [Begin(e)] == r1;
    OneMore(s, r1, PushNext(0));
    OneMore(s, r2, Begin(e));
    OneMore(s, r3, PushNext(1));
    OneMore(s, r4, StopRunning(0));
    OneMore(s, r5, CloseQueue(0));
    OneMore(s, r6, Check(0));
    assert r6 + [Check(0)] == [Begin(e), PushNext(0), Begin(e), PushNext(1), StopRunning(0), CloseQueue(0), Check(0)];
  }

  lemma OneMore(s: Bus, steps: seq<Step>, step: Step)
    requires Run(s, steps).Some? && Enabled(Run(s, steps).value, step)
    ensures Run(s, steps + [step]) == Some(Apply(Run(s, steps).value, step))
  {
    assert (steps + [step])[..|steps|] == steps;
  }
}
