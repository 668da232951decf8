/** BoundedQueue of src/event/queue.hpp. Each method is one lock region; a push that has to wait for
    space is a step that cannot be taken yet. */
module BoundedQueue {
  import opened Wrappers

  datatype Policy = DropOldest | DropNewest | Block

  datatype PushResult = Accepted | Refused | MustWait

  datatype Queue<T> = Queue(items: seq<T>, closed: bool, pushes: nat, pops: nat, drops: nat)

  function Push<T>(q: Queue<T>, capacity: nat, policy: Policy, x: T): (Queue<T>, PushResult) {
    if q.closed then (q, Refused)
    else if |q.items| < capacity then (q.(items := q.items + [x], pushes := q.pushes + 1), Accepted)
    else match policy
      case DropOldest =>
        (q.(items := (if q.items == [] then [] else q.items[1..]) + [x], pushes := q.pushes + 1, drops := q.drops + 1), Accepted)
      case DropNewest => (q.(drops := q.drops + 1), Refused)
      case Block => (q, MustWait)
  }

  function TryPop<T>(q: Queue<T>): (Queue<T>, Option<T>) {
    if q.items == [] then (q, None) else (q.(items := q.items[1..], pops := q.pops + 1), Some(q.items[0]))
  }

  class BoundedQueue<T> {
    const capacity: nat
    const policy: Policy
    var items: seq<T>
    var closed: bool
    var pushes: nat
    var pops: nat
    var drops: nat

    function View(): Queue<T>
      reads this
    {
      Queue(items, closed, pushes, pops, drops)
    }

    constructor (c: nat, p: Policy)
      ensures capacity == c && policy == p && View() == Queue([], false, 0, 0, 0)
    {
      capacity, policy := c, p;
      items, closed, pushes, pops, drops := [], false, 0, 0, 0;
    }

    /** A full queue that drops its oldest item must have one. */
    method PushItem(x: T) returns (result: PushResult)
      requires policy == DropOldest ==> capacity > 0
      modifies this
      ensures (View(), result) == Push(old(View()), capacity, policy, x)
    {
      if closed { return Refused; }
      if |items| >= capacity {
        match policy
        case DropOldest =>
          items := items[1..];
          drops := drops + 1;
        case DropNewest =>
          drops := drops + 1;
          return Refused;
        case Block =>
          return MustWait;
      }
      items := items + [x];
      pushes := pushes + 1;
      return Accepted;
    }

    method TryPopItem() returns (x: Option<T>)
      modifies this
      ensures (View(), x) == TryPop(old(View()))
    {
      if items == [] { return None; }
      x := Some(items[0]);
      items := items[1..];
      pops := pops + 1;
    }

    method Close()
      modifies this
      ensures View() == old(View()).(closed := true)
    {
      closed := true;
    }
  }

  // ----- Any interleaving of producers and consumers -----

  datatype Op<T> = PushOp(x: T) | PopOp | CloseOp

  /** An item that left the queue: delivered to a consumer, or dropped to make room. */
  datatype Departure<T> = Delivered(x: T) | Dropped(x: T)

  datatype World<T> = World(q: Queue<T>, accepted: seq<T>, departures: seq<Departure<T>>)

  function Step<T>(w: World<T>, capacity: nat, policy: Policy, op: Op<T>): World<T> {
    match op
    case CloseOp => w.(q := w.q.(closed := true))
    case PopOp =>
      var (q, x) := TryPop(w.q);
      if x.None? then w else w.(q := q, departures := w.departures + [Delivered(x.value)])
    case PushOp(x) =>
      var (q, result) := Push(w.q, capacity, policy, x);
      if result != Accepted then w.(q := q)
      else if |w.q.items| >= capacity && w.q.items != [] then
        World(q, w.accepted + [x], w.departures + [Dropped(w.q.items[0])])
      else World(q, w.accepted + [x], w.departures)
  }

  function Run<T>(capacity: nat, policy: Policy, ops: seq<Op<T>>): World<T> {
    if ops == [] then World(Queue([], false, 0, 0, 0), [], [])
    else Step(Run(capacity, policy, ops[..|ops| - 1]), capacity, policy, ops[|ops| - 1])
  }

  function Gone<T>(ds: seq<Departure<T>>): seq<T> {
    if ds == [] then [] else Gone(ds[..|ds| - 1]) + [ds[|ds| - 1].x]
  }

  function DeliveredOf<T>(ds: seq<Departure<T>>): seq<T> {
    if ds == [] then [] else
    DeliveredOf(ds[..|ds| - 1]) + if ds[|ds| - 1].Delivered? then [ds[|ds| - 1].x] else []
  }

  ghost predicate Conserved<T>(w: World<T>, capacity: nat, policy: Policy) {
    && w.accepted == Gone(w.departures) + w.q.items && |w.q.items| <= capacity
    && w.q.pushes == |w.accepted| && w.q.pops == |DeliveredOf(w.departures)|
    && (policy != DropOldest ==> DeliveredOf(w.departures) == Gone(w.departures))
    && (policy == DropOldest ==> w.q.drops + w.q.pops == |w.departures|)
  }

  lemma DepartureAppend<T>(ds: seq<Departure<T>>, d: Departure<T>)
    ensures Gone(ds + [d]) == Gone(ds) + [d.x]
    ensures DeliveredOf(ds + [d]) == DeliveredOf(ds) + if d.Delivered? then [d.x] else []
  {
    assert (ds + [d])[..|ds|] == ds;
  }

  lemma StepConserves<T>(w: World<T>, capacity: nat, policy: Policy, op: Op<T>)
    requires 0 < capacity && Conserved(w, capacity, policy)
    ensures Conserved(Step(w, capacity, policy, op), capacity, policy)
  {
    hide Gone, DeliveredOf;
    if w.q.items != [] {
      DepartureAppend(w.departures, Delivered(w.q.items[0]));
      DepartureAppend(w.departures, Dropped(w.q.items[0]));
    }
  }

  /** Accepted items leave in the order in which they came and are never duplicated: what left, then
      what is queued, is what was accepted. Only `DropOldest` loses any of them, and counts it. */
  lemma {:induction false} QueueConserves<T>(capacity: nat, policy: Policy, ops: seq<Op<T>>)
    requires 0 < capacity
    ensures var w := Run(capacity, policy, ops);
            && w.accepted == Gone(w.departures) + w.q.items && |w.q.items| <= capacity
            && (policy != DropOldest ==> DeliveredOf(w.departures) + w.q.items == w.accepted)
            && (policy == DropOldest ==> w.q.drops + w.q.pops == |w.departures|)
    ensures Conserved(Run(capacity, policy, ops), capacity, policy)
  {
    hide Step, Gone, DeliveredOf;
    if ops == [] {
      NothingGone<T>();
    } else {
      QueueConserves(capacity, policy, ops[..|ops| - 1]);
      StepConserves(Run(capacity, policy, ops[..|ops| - 1]), capacity, policy, ops[|ops| - 1]);
    }
  }

  lemma NothingGone<T>()
    ensures Gone<T>([]) == [] && DeliveredOf<T>([]) == []
  {}

  // ----- What the policies promise -----

  /** A push, what the queue was like when it came, and what became of it. */
  datatype Attempt<T> = Attempt(x: T, closed: bool, full: bool, result: PushResult)

  /** All pushes of a run. */
  function Attempts<T>(capacity: nat, policy: Policy, ops: seq<Op<T>>): seq<Attempt<T>> {
    if ops == [] then [] else
    var q := Run(capacity, policy, ops[..|ops| - 1]).q;
    Attempts(capacity, policy, ops[..|ops| - 1]) +
    match ops[|ops| - 1]
    case PushOp(x) => [Attempt(x, q.closed, |q.items| >= capacity, Push(q, capacity, policy, x).1)]
    case _ => []
  }

  function AcceptedOf<T>(attempts: seq<Attempt<T>>): seq<T> {
    if attempts == [] then [] else
    var last := attempts[|attempts| - 1];
    AcceptedOf(attempts[..|attempts| - 1]) + if last.result == Accepted then [last.x] else []
  }

  /** How many pushes found an open queue full. */
  function Overflows<T>(attempts: seq<Attempt<T>>): nat {
    if attempts == [] then 0 else
    var last := attempts[|attempts| - 1];
    Overflows(attempts[..|attempts| - 1]) + if last.full && !last.closed then 1 else 0
  }

  /** A closed queue refuses, one with room accepts; a full one makes room, refuses, or lets wait. */
  predicate ByPolicy<T>(policy: Policy, a: Attempt<T>) {
    && (a.result == Refused <==> a.closed || (a.full && policy == DropNewest))
    && (a.result == MustWait <==> !a.closed && a.full && policy == Block)
  }

  ghost predicate Promised<T>(w: World<T>, policy: Policy, ops: seq<Op<T>>, attempts: seq<Attempt<T>>) {
    && w.q.closed == (CloseOp in ops)
    && (forall k :: 0 <= k < |attempts| ==> ByPolicy(policy, attempts[k]))
    && w.accepted == AcceptedOf(attempts)
    && w.q.drops == if policy == Block then 0 else Overflows(attempts)
  }

  lemma AttemptsAppend<T>(attempts: seq<Attempt<T>>, a: Attempt<T>)
    ensures AcceptedOf(attempts + [a]) == AcceptedOf(attempts) + if a.result == Accepted then [a.x] else []
    ensures Overflows(attempts + [a]) == Overflows(attempts) + if a.full && !a.closed then 1 else 0
  {
    assert (attempts + [a])[..|attempts|] == attempts;
  }

  lemma StepPromises<T>(w: World<T>, capacity: nat, policy: Policy, ops: seq<Op<T>>, op: Op<T>, attempts: seq<Attempt<T>>)
    requires Promised(w, policy, ops, attempts)
    ensures op.PushOp? ==>
              var a := Attempt(op.x, w.q.closed, |w.q.items| >= capacity, Push(w.q, capacity, policy, op.x).1);
              Promised(Step(w, capacity, policy, op), policy, ops + [op], attempts + [a])
    ensures !op.PushOp? ==> Promised(Step(w, capacity, policy, op), policy, ops + [op], attempts)
  {
    hide AcceptedOf, Overflows;
    assert CloseOp in ops + [op] <==> CloseOp in ops || op == CloseOp;
    if op.PushOp? {
      AttemptsAppend(attempts, Attempt(op.x, w.q.closed, |w.q.items| >= capacity, Push(w.q, capacity, policy, op.x).1));
    }
  }

  /** Over any run: a push is refused only once the queue is closed, or by `DropNewest` when it is full; only
      `Block` lets it wait, and never drops; what was accepted is what the accepted pushes brought, in order;
      and each overflow of the other policies is counted once. */
  lemma {:induction false} PoliciesHold<T>(capacity: nat, policy: Policy, ops: seq<Op<T>>)
    ensures Promised(Run(capacity, policy, ops), policy, ops, Attempts(capacity, policy, ops))
  {
    hide Step, Push, AcceptedOf, Overflows, Promised;
    if ops == [] {
      NothingPushed<T>(capacity, policy);
    } else {
      var init, op := ops[..|ops| - 1], ops[|ops| - 1];
      assert ops == init + [op];
      PoliciesHold(capacity, policy, init);
      var attempts := Attempts(capacity, policy, init);
      StepPromises(Run(capacity, policy, init), capacity, policy, init, op, attempts);
      assert attempts + [] == attempts;
    }
  }

  lemma NothingPushed<T>(capacity: nat, policy: Policy)
    ensures Promised(Run<T>(capacity, policy, []), policy, [], [])
  {}
}
