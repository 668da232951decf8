/** The single-producer, single-consumer ring of src/audio/spsc_ring.hpp: once as a class whose
    methods run alone, and once as a machine whose steps are the single loads, stores and slot
    accesses of `push`, `pop` and `size`, interleaved in any order. Atomics are sequentially
    consistent steps; a slot access is not atomic and has a beginning and an end. */
module SpscRing {
  import opened Modular
  import opened Wrappers

  // ----- Masked indices -----

  function BitAnd(x: nat, y: nat): nat {
    if x == 0 || y == 0 then 0
    else 2 * BitAnd(x / 2, y / 2) + if x % 2 == 1 && y % 2 == 1 then 1 else 0
  }

  /** The two static assertions on the capacity. */
  predicate GoodCapacity(capacity: nat) {
    capacity > 1 && BitAnd(capacity, capacity - 1) == 0
  }

  /** For a power of two, masking with `c - 1` is the remainder by `c`. */
  lemma {:induction false} MaskIsMod(x: nat, c: nat)
    requires 0 < c && BitAnd(c, c - 1) == 0
    ensures BitAnd(x, c - 1) == x % c
    decreases c
  {
    hide BitAnd;
    if c % 2 == 1 {
      OddPower(c / 2);
      BitAndZero(x);
    } else {
      EvenPower(c / 2, x);
      MaskIsMod(x / 2, c / 2);
      HalveMod(x, c / 2);
      assert 2 * (c / 2) == c;
    }
  }

  lemma OddPower(m: nat)
    requires BitAnd(2 * m + 1, 2 * m) == 0
    ensures m == 0
  {
    hide BitAnd;
    BitAndHalves(2 * m + 1, 2 * m);
    assert (2 * m + 1) / 2 == m && 2 * m / 2 == m;
    Meet(m);
  }

  lemma EvenPower(m: nat, x: nat)
    requires 0 < m && BitAnd(2 * m, 2 * m - 1) == 0
    ensures BitAnd(m, m - 1) == 0
    ensures BitAnd(x, 2 * m - 1) == 2 * BitAnd(x / 2, m - 1) + x % 2
  {
    BitAndHalves(2 * m, 2 * m - 1);
    assert (2 * m - 1) / 2 == m - 1;
    BitAndHalves(x, 2 * m - 1);
  }

  lemma {:induction false} Meet(x: nat)
    ensures BitAnd(x, x) == x
  {
    if x != 0 { Meet(x / 2); }
  }

  lemma BitAndHalves(x: nat, y: nat)
    ensures BitAnd(x, y) == 2 * BitAnd(x / 2, y / 2) + if x % 2 == 1 && y % 2 == 1 then 1 else 0
  {}

  lemma BitAndZero(x: nat)
    ensures BitAnd(x, 0) == 0 && BitAnd(0, x) == 0
  {}

  lemma HalveMod(x: nat, d: nat)
    requires 0 < d
    ensures x % (2 * d) == 2 * (x / 2 % d) + x % 2
  {
    var q, r := x / 2 / d, x / 2 % d;
    assert x / 2 == q * d + r;
    assert x == q * (2 * d) + (2 * r + x % 2);
    Divide(x, 2 * d, q, 2 * r + x % 2);
  }

  function Next(i: nat, capacity: nat): nat
    requires capacity > 0
  {
    BitAnd(i + 1, capacity - 1)
  }

  // ----- One call at a time -----

  class SpscRing<T(0)> {
    const slots: array<T>
    var head: nat
    var tail: nat

    ghost predicate Valid()
      reads this
    {
      && GoodCapacity(slots.Length)
      && head < slots.Length && tail < slots.Length
    }

    /** The items stored, oldest first. */
    ghost function Contents(): (s: seq<T>)
      requires Valid()
      reads this, slots
    {
      Window(slots[..], head, Distance(head, tail, slots.Length))
    }

    constructor (capacity: nat)
      requires GoodCapacity(capacity)
      ensures Valid() && fresh(slots) && slots.Length == capacity && Contents() == []
    {
      slots := new T[capacity];
      head, tail := 0, 0;
    }

    method Push(value: T) returns (ok: bool)
      requires Valid()
      modifies this`tail, slots
      ensures Valid()
      ensures ok <==> |old(Contents())| < slots.Length - 1
      ensures Contents() == if ok then old(Contents()) + [value] else old(Contents())
    {
      Wraps(head, tail, slots.Length);
      MaskIsMod(tail + 1, slots.Length);
      var nextTail := Next(tail, slots.Length);
      if nextTail == head {
        return false;
      }
      PushWindow(slots[..], head, Distance(head, tail, slots.Length), value);
      slots[tail] := value;
      tail := nextTail;
      return true;
    }

    method Pop() returns (out: Option<T>)
      requires Valid()
      modifies this`head
      ensures Valid()
      ensures out == if old(Contents()) == [] then None else Some(old(Contents())[0])
      ensures Contents() == if old(Contents()) == [] then [] else old(Contents())[1..]
    {
      Wraps(head, tail, slots.Length);
      if head == tail {
        return None;
      }
      MaskIsMod(head + 1, slots.Length);
      PopWindow(slots[..], head, Distance(head, tail, slots.Length));
      out := Some(slots[head]);
      head := Next(head, slots.Length);
    }
  }

  function Distance(head: nat, tail: nat, capacity: nat): (n: nat)
    requires 0 < capacity
    ensures n < capacity
  {
    (tail - head) % capacity
  }

  /** `n` slots from `head` on, wrapping around. */
  function Window<T>(slots: seq<T>, head: nat, n: nat): (w: seq<T>)
    requires slots != []
    ensures |w| == n && forall i :: 0 <= i < n ==> w[i] == slots[Along(head, i, |slots|)]
  {
    seq(n, i requires 0 <= i => slots[Along(head, i, |slots|)])
  }

  lemma PushWindow<T>(slots: seq<T>, head: nat, n: nat, value: T)
    requires n < |slots|
    ensures Window(slots[Along(head, n, |slots|) := value], head, n + 1) == Window(slots, head, n) + [value]
  {
    forall i: nat | i < n ensures Along(head, i, |slots|) != Along(head, n, |slots|) {
      ModDistinct(head + i, head + n, |slots|);
    }
  }

  lemma PopWindow<T>(slots: seq<T>, head: nat, n: nat)
    requires 0 < n < |slots| && head < |slots|
    ensures Window(slots, head, n)[0] == slots[head]
    ensures Window(slots, Along(head, 1, |slots|), n - 1) == Window(slots, head, n)[1..]
  {
    Divide(head, |slots|, 0, head);
    forall i: nat | i < n - 1 ensures Along(Along(head, 1, |slots|), i, |slots|) == Along(head, i + 1, |slots|) {
      ModStep(head + 1, i, |slots|);
    }
  }

  /** How the occupancy, read off the indices, changes when one of them moves on. */
  lemma Wraps(head: nat, tail: nat, c: nat)
    requires head < c && tail < c
    ensures var n := Distance(head, tail, c);
            && Along(head, n, c) == tail
            && (Along(tail, 1, c) == head <==> n == c - 1)
            && (head == tail <==> n == 0)
            && (n < c - 1 ==> Distance(head, Along(tail, 1, c), c) == n + 1)
            && (0 < n ==> Distance(Along(head, 1, c), tail, c) == n - 1)
  {
    var d := tail - head;
    if d >= 0 { Divide(d, c, 0, d); } else { Divide(d, c, -1, d + c); }
    Divide(head + d, c, 0, tail);
    if d < 0 { Divide(head + d + c, c, 1, tail); }
    if tail + 1 < c { Divide(tail + 1, c, 0, tail + 1); } else { Divide(tail + 1, c, 1, 0); }
    if head + 1 < c { Divide(head + 1, c, 0, head + 1); } else { Divide(head + 1, c, 1, 0); }
    var up, down := (tail + 1) % c - head, tail - (head + 1) % c;
    if up >= 0 { Divide(up, c, 0, up); } else { Divide(up, c, -1, up + c); }
    if down >= 0 { Divide(down, c, 0, down); } else { Divide(down, c, -1, down + c); }
  }

  // ----- Producer, consumer and an observer interleaved -----

  /** What a slot holds; `Torn` while it is being written and after its value was moved out. */
  datatype Slot<T> = Holds(value: T) | Torn

  datatype Producer<T> =
    | NotPushing
    | LoadedTail(v: T, t: nat)
    | MayWrite(v: T, t: nat)
    | Writing(v: T, t: nat)
    | Written(v: T, t: nat)

  datatype Consumer<T> =
    | NotPopping
    | LoadedHead(h: nat)
    | MayRead(h: nat)
    | Reading(h: nat)
    | Taken(h: nat, out: Slot<T>)

  /** `size()` loads the head first; `popsThen` records how many items had been popped by then. */
  datatype Observer = Away | SawHead(h: nat, popsThen: nat)

  /** The shared memory, the three threads' local state, and what was pushed and popped so far. */
  datatype Ring<T> = Ring(
    capacity: nat, head: nat, tail: nat, slots: seq<Slot<T>>,
    producer: Producer<T>, consumer: Consumer<T>, observer: Observer,
    pushed: seq<T>, popped: seq<Slot<T>>)

  datatype Step<T> =
    | BeginPush(v: T) | LoadHead | BeginWrite | EndWrite | StoreTail
    | BeginPop | LoadTail | BeginRead | EndRead | StoreHead
    | BeginSize | EndSize

  predicate Enabled<T>(s: Ring<T>, step: Step<T>) {
    match step
    case BeginPush(_) => s.producer.NotPushing?
    case LoadHead => s.producer.LoadedTail?
    case BeginWrite => s.producer.MayWrite?
    case EndWrite => s.producer.Writing?
    case StoreTail => s.producer.Written?
    case BeginPop => s.consumer.NotPopping?
    case LoadTail => s.consumer.LoadedHead?
    case BeginRead => s.consumer.MayRead?
    case EndRead => s.consumer.Reading?
    case StoreHead => s.consumer.Taken?
    case BeginSize => s.observer.Away?
    case EndSize => s.observer.SawHead?
  }

  /** The load of the head that decides whether a push fails. */
  predicate PushFails<T>(s: Ring<T>)
    requires s.producer.LoadedTail? && s.capacity > 0
  {
    Next(s.producer.t, s.capacity) == s.head
  }

  predicate PopFails<T>(s: Ring<T>)
    requires s.consumer.LoadedHead?
  {
    s.consumer.h == s.tail
  }

  const WORD: nat := 0x1_0000_0000_0000_0000

  /** The value `size()` returns: an unsigned 64-bit subtraction, masked. */
  function SizeResult<T>(s: Ring<T>): nat
    requires s.observer.SawHead? && s.capacity > 0
  {
    BitAnd((s.tail - s.observer.h) % WORD, s.capacity - 1)
  }

  function Put<T>(slots: seq<Slot<T>>, i: nat, x: Slot<T>): seq<Slot<T>> {
    if i < |slots| then slots[i := x] else slots
  }

  function Apply<T>(s: Ring<T>, step: Step<T>): Ring<T>
    requires s.capacity > 0 && Enabled(s, step)
  {
    match step
    case BeginPush(v) => s.(producer := LoadedTail(v, s.tail))
    case LoadHead =>
      if PushFails(s) then s.(producer := NotPushing)
      else s.(producer := MayWrite(s.producer.v, s.producer.t))
    case BeginWrite =>
      s.(producer := Writing(s.producer.v, s.producer.t), slots := Put(s.slots, s.producer.t, Torn))
    case EndWrite =>
      s.(producer := Written(s.producer.v, s.producer.t),
         slots := Put(s.slots, s.producer.t, Holds(s.producer.v)))
    case StoreTail =>
      s.(producer := NotPushing, tail := Next(s.producer.t, s.capacity), pushed := s.pushed + [s.producer.v])
    case BeginPop => s.(consumer := LoadedHead(s.head))
    case LoadTail =>
      if PopFails(s) then s.(consumer := NotPopping) else s.(consumer := MayRead(s.consumer.h))
    case BeginRead => s.(consumer := Reading(s.consumer.h))
    case EndRead =>
      var h := s.consumer.h;
      s.(consumer := Taken(h, if h < |s.slots| then s.slots[h] else Torn), slots := Put(s.slots, h, Torn))
    case StoreHead =>
      s.(consumer := NotPopping, head := Next(s.consumer.h, s.capacity), popped := s.popped + [s.consumer.out])
    case BeginSize => s.(observer := SawHead(s.head, |s.popped|))
    case EndSize => s.(observer := Away)
  }

  function Initial<T>(capacity: nat): Ring<T> {
    Ring(capacity, 0, 0, seq(capacity, i => Torn), NotPushing, NotPopping, Away, [], [])
  }

  /** `Run(c, steps)` is the state after the steps, or `None` when one of them was not possible. */
  function Run<T>(capacity: nat, steps: seq<Step<T>>): Option<Ring<T>>
    requires capacity > 0
    ensures Run(capacity, steps).Some? ==> Run(capacity, steps).value.capacity == capacity
  {
    if steps == [] then Some(Initial(capacity)) else
    var before := Run(capacity, steps[..|steps| - 1]);
    if before.None? || !Enabled(before.value, steps[|steps| - 1]) then None
    else Some(Apply(before.value, steps[|steps| - 1]))
  }

  // ----- The invariant -----

  function Occupancy<T>(s: Ring<T>): int { |s.pushed| - |s.popped| }

  ghost predicate Counts<T>(s: Ring<T>) {
    && GoodCapacity(s.capacity) && |s.slots| == s.capacity
    && 0 <= Occupancy(s) <= s.capacity - 1
    && s.head == |s.popped| % s.capacity && s.tail == |s.pushed| % s.capacity
  }

  /** What was popped is a prefix of what was pushed; the rest is in the slots. */
  ghost predicate Stored<T>(s: Ring<T>)
    requires Counts(s)
  {
    && (forall i :: 0 <= i < |s.popped| ==> s.popped[i] == Holds(s.pushed[i]))
    && (forall i :: |s.popped| <= i < |s.pushed| && !(i == |s.popped| && s.consumer.Taken?) ==>
          s.slots[i % s.capacity] == Holds(s.pushed[i]))
  }

  ghost predicate ProducerOk<T>(s: Ring<T>)
    requires Counts(s)
  {
    && (!s.producer.NotPushing? ==> s.producer.t == s.tail)
    && (s.producer.MayWrite? || s.producer.Writing? || s.producer.Written? ==> Occupancy(s) <= s.capacity - 2)
    && (s.producer.Written? ==> s.slots[s.producer.t] == Holds(s.producer.v))
  }

  ghost predicate ConsumerOk<T>(s: Ring<T>)
    requires Counts(s)
  {
    && (!s.consumer.NotPopping? ==> s.consumer.h == s.head)
    && (s.consumer.MayRead? || s.consumer.Reading? || s.consumer.Taken? ==> 1 <= Occupancy(s))
    && (s.consumer.Taken? ==> s.consumer.out == Holds(s.pushed[|s.popped|]))
  }

  ghost predicate ObserverOk<T>(s: Ring<T>)
    requires Counts(s)
  {
    s.observer.SawHead? ==>
      s.observer.popsThen <= |s.popped| && s.observer.h == s.observer.popsThen % s.capacity
  }

  ghost predicate Inv<T>(s: Ring<T>) {
    Counts(s) && Stored(s) && ProducerOk(s) && ConsumerOk(s) && ObserverOk(s)
  }

  /** The index after the one with remainder of `n`. */
  lemma NextIs(n: nat, c: nat)
    requires GoodCapacity(c)
    ensures Next(n % c, c) == (n + 1) % c
  {
    MaskIsMod(n % c + 1, c);
    ModStep(n, 1, c);
  }

  /** The slot at the tail is none of the stored ones. */
  lemma TailSlotFree<T>(s: Ring<T>)
    requires Counts(s)
    ensures forall i :: |s.popped| <= i < |s.pushed| ==> i % s.capacity != s.tail
  {
    forall i | |s.popped| <= i < |s.pushed| ensures i % s.capacity != s.tail {
      ModDistinct(i, |s.pushed|, s.capacity);
    }
  }

  lemma HeadSlotOwn<T>(s: Ring<T>)
    requires Counts(s)
    ensures forall i :: |s.popped| < i < |s.pushed| ==> i % s.capacity != s.head
  {
    forall i | |s.popped| < i < |s.pushed| ensures i % s.capacity != s.head {
      ModDistinct(|s.popped|, i, s.capacity);
    }
  }

  /** A push fails exactly when it sees a full ring, a pop exactly when it sees an empty one. */
  lemma FailureIsExact<T>(s: Ring<T>)
    requires Inv(s)
    ensures s.producer.LoadedTail? ==> (PushFails(s) <==> Occupancy(s) == s.capacity - 1)
    ensures s.consumer.LoadedHead? ==> (PopFails(s) <==> Occupancy(s) == 0)
  {
    hide BitAnd, Stored, ObserverOk, Next;
    NextIs(|s.pushed|, s.capacity);
    if Occupancy(s) < s.capacity - 1 {
      ModDistinct(|s.popped|, |s.pushed| + 1, s.capacity);
    } else {
      Divide(|s.popped| + s.capacity, s.capacity, |s.popped| / s.capacity + 1, |s.popped| % s.capacity);
    }
    if Occupancy(s) > 0 { ModDistinct(|s.popped|, |s.pushed|, s.capacity); }
  }

  lemma ProducerStep<T>(s: Ring<T>, step: Step<T>)
    requires Inv(s) && Enabled(s, step)
    requires step.BeginPush? || step.LoadHead? || step.BeginWrite? || step.EndWrite? || step.StoreTail?
    ensures Inv(Apply(s, step))
  {
    FailureIsExact(s);
    NextIs(|s.pushed|, s.capacity);
    TailSlotFree(s);
  }

  lemma ConsumerStep<T>(s: Ring<T>, step: Step<T>)
    requires Inv(s) && Enabled(s, step)
    requires step.BeginPop? || step.LoadTail? || step.BeginRead? || step.EndRead? || step.StoreHead?
    ensures Inv(Apply(s, step))
  {
    FailureIsExact(s);
    NextIs(|s.popped|, s.capacity);
    HeadSlotOwn(s);
    TailSlotFree(s);
  }

  lemma {:induction false} RunKeepsInv<T>(capacity: nat, steps: seq<Step<T>>)
    requires GoodCapacity(capacity) && Run(capacity, steps).Some?
    ensures Inv(Run(capacity, steps).value)
  {
    if steps == [] {
      Divide(0, capacity, 0, 0);
    } else {
      RunKeepsInv(capacity, steps[..|steps| - 1]);
      var s, step := Run(capacity, steps[..|steps| - 1]).value, steps[|steps| - 1];
      match step
      case BeginSize =>
      case EndSize =>
      case BeginPush(_) | LoadHead | BeginWrite | EndWrite | StoreTail => ProducerStep(s, step);
      case BeginPop | LoadTail | BeginRead | EndRead | StoreHead => ConsumerStep(s, step);
    }
  }

  // ----- What every interleaving guarantees -----

  /** Popped values are a prefix of the pushed ones, at most `Capacity - 1` are stored, and the slot
      being written is never the slot being read. */
  lemma RingSafety<T>(capacity: nat, steps: seq<Step<T>>)
    requires GoodCapacity(capacity) && Run(capacity, steps).Some?
    ensures var s := Run(capacity, steps).value;
            && |s.popped| <= |s.pushed| <= |s.popped| + capacity - 1
            && (forall i :: 0 <= i < |s.popped| ==> s.popped[i] == Holds(s.pushed[i]))
            && (s.producer.Writing? && s.consumer.Reading? ==> s.producer.t != s.consumer.h)
  {
    RunKeepsInv(capacity, steps);
    var s := Run(capacity, steps).value;
    if s.producer.Writing? && s.consumer.Reading? {
      ModDistinct(|s.popped|, |s.pushed|, capacity);
    }
  }

  /** The moment that decides a push or a pop saw the ring full, or empty, if and only if it fails. */
  lemma FailuresAreHonest<T>(capacity: nat, steps: seq<Step<T>>)
    requires GoodCapacity(capacity) && Run(capacity, steps).Some?
    ensures var s := Run(capacity, steps).value;
            && (s.producer.LoadedTail? ==> (PushFails(s) <==> Occupancy(s) == capacity - 1))
            && (s.consumer.LoadedHead? ==> (PopFails(s) <==> Occupancy(s) == 0))
  {
    RunKeepsInv(capacity, steps);
    FailureIsExact(Run(capacity, steps).value);
  }

  /** `size()` counts the items stored now and those popped since it loaded the head, up to the
      capacity. It is exact when nothing was popped in between; otherwise it can be off by any
      number, and not just by one. */
  lemma SizeCounts<T>(capacity: nat, steps: seq<Step<T>>)
    requires GoodCapacity(capacity) && Run(capacity, steps).Some? && Run(capacity, steps).value.observer.SawHead?
    requires capacity <= WORD
    ensures var s := Run(capacity, steps).value;
            var popsSince := |s.popped| - s.observer.popsThen;
            && 0 <= popsSince
            && SizeResult(s) == (Occupancy(s) + popsSince) % capacity
            && (SizeResult(s) == Occupancy(s) <==> popsSince % capacity == 0)
  {
    hide Run, SizeResult, Stored, ProducerOk, ConsumerOk;
    RunKeepsInv(capacity, steps);
    var s := Run(capacity, steps).value;
    MaskedDifference(s.tail, s.observer.h, |s.pushed|, s.observer.popsThen, capacity);
    SizeIsMasked(s);
    SameRemainder(Occupancy(s), |s.popped| - s.observer.popsThen, capacity);
  }

  lemma SizeIsMasked<T>(s: Ring<T>)
    requires s.observer.SawHead? && s.capacity > 0
    ensures SizeResult(s) == BitAnd((s.tail - s.observer.h) % WORD, s.capacity - 1)
  {}

  /** The masked difference of two masked counters is the difference of the counters. */
  lemma MaskedDifference(t: nat, h: nat, pushed: nat, popped: nat, capacity: nat)
    requires GoodCapacity(capacity) && capacity <= WORD && popped <= pushed
    requires t == pushed % capacity && h == popped % capacity
    ensures BitAnd((t - h) % WORD, capacity - 1) == (pushed - popped) % capacity
  {
    hide BitAnd;
    WordIsMultiple(capacity);
    MaskIsMod((t - h) % WORD, capacity);
    ModOfMod(t - h, capacity);
    ModDifference(pushed, popped, capacity);
  }

  function Power(n: nat): (p: nat)
    ensures p > 0
  {
    if n == 0 then 1 else 2 * Power(n - 1)
  }

  /** A power of two divides every larger one. */
  lemma {:induction false} PowersDivide(c: nat, n: nat)
    requires 0 < c <= Power(n) && BitAnd(c, c - 1) == 0
    ensures Power(n) % c == 0
    decreases n
  {
    hide BitAnd;
    if c % 2 == 1 {
      OddPower(c / 2);
    } else {
      EvenPower(c / 2, 0);
      PowersDivide(c / 2, n - 1);
      var q := Power(n - 1) / (c / 2);
      assert Power(n - 1) == q * (c / 2);
      Divide(Power(n), c, q, 0);
    }
  }

  lemma WordIsPower()
    ensures Power(64) == WORD
  {
    assert Power(8) == 0x100;
    PowersAdd(8, 8);
    PowersAdd(16, 16);
    PowersAdd(32, 32);
  }

  lemma {:induction false} PowersAdd(m: nat, n: nat)
    ensures Power(m + n) == Power(m) * Power(n)
  {
    if n > 0 { PowersAdd(m, n - 1); }
  }

  lemma WordIsMultiple(capacity: nat)
    requires GoodCapacity(capacity) && capacity <= WORD
    ensures WORD % capacity == 0
  {
    hide Power;
    WordIsPower();
    PowersDivide(capacity, 64);
  }

  // ----- How far `size()` can be off -----

  /** Producer and consumer are between calls. */
  predicate AtRest<T>(s: Ring<T>) { s.producer == NotPushing && s.consumer == NotPopping }

  lemma Extend<T>(capacity: nat, steps: seq<Step<T>>, s: Ring<T>, step: Step<T>) returns (more: seq<Step<T>>, t: Ring<T>)
    requires capacity > 0 && Run(capacity, steps) == Some(s) && Enabled(s, step)
    ensures t == Apply(s, step) && Run(capacity, more) == Some(t)
  {
    assert (steps + [step])[..|steps|] == steps;
    more, t := steps + [step], Apply(s, step);
  }

  lemma PushOne<T>(capacity: nat, steps: seq<Step<T>>, s: Ring<T>, v: T) returns (more: seq<Step<T>>, t: Ring<T>)
    requires GoodCapacity(capacity) && Run(capacity, steps) == Some(s) && AtRest(s) && Occupancy(s) < capacity - 1
    ensures Run(capacity, more) == Some(t) && AtRest(t) && t.observer == s.observer
    ensures |t.pushed| == |s.pushed| + 1 && t.popped == s.popped
  {
    hide Run, Inv, Next, Put;
    more, t := Extend(capacity, steps, s, BeginPush(v));
    FailuresAreHonest(capacity, more);
    more, t := Extend(capacity, more, t, LoadHead);
    more, t := Extend(capacity, more, t, BeginWrite);
    more, t := Extend(capacity, more, t, EndWrite);
    more, t := Extend(capacity, more, t, StoreTail);
  }

  lemma PopOne<T>(capacity: nat, steps: seq<Step<T>>, s: Ring<T>) returns (more: seq<Step<T>>, t: Ring<T>)
    requires GoodCapacity(capacity) && Run(capacity, steps) == Some(s) && AtRest(s) && Occupancy(s) != 0
    ensures Run(capacity, more) == Some(t) && AtRest(t) && t.observer == s.observer
    ensures |t.popped| == |s.popped| + 1 && t.pushed == s.pushed
  {
    hide Run, Inv, Next, Put;
    more, t := Extend(capacity, steps, s, BeginPop);
    FailuresAreHonest(capacity, more);
    more, t := Extend(capacity, more, t, LoadTail);
    more, t := Extend(capacity, more, t, BeginRead);
    more, t := Extend(capacity, more, t, EndRead);
    more, t := Extend(capacity, more, t, StoreHead);
  }

  /** `k` items are pushed, `size()` loads the head, and `n` of them are popped before it loads the tail. */
  lemma {:induction false} PushThenPop<T>(capacity: nat, k: nat, n: nat, v: T) returns (steps: seq<Step<T>>, s: Ring<T>)
    requires GoodCapacity(capacity) && n <= k < capacity
    ensures Run(capacity, steps) == Some(s) && AtRest(s) && |s.pushed| == k && |s.popped| == n
    ensures s.observer.SawHead? && s.observer.popsThen == 0
    decreases n
  {
    hide Run, Inv;
    if n == 0 {
      steps, s := PushAll(capacity, k, v);
      steps, s := Extend(capacity, steps, s, BeginSize);
    } else {
      steps, s := PushThenPop(capacity, k, n - 1, v);
      steps, s := PopOne(capacity, steps, s);
    }
  }

  lemma {:induction false} PushAll<T>(capacity: nat, k: nat, v: T) returns (steps: seq<Step<T>>, s: Ring<T>)
    requires GoodCapacity(capacity) && k < capacity
    ensures Run(capacity, steps) == Some(s) && AtRest(s) && |s.pushed| == k && |s.popped| == 0 && s.observer == Away
    decreases k
  {
    if k == 0 {
      steps, s := [], Initial(capacity);
    } else {
      hide Run, Inv;
      steps, s := PushAll(capacity, k - 1, v);
      steps, s := PushOne(capacity, steps, s, v);
    }
  }

  /** `size()` can be off by any number up to the ring's room: it can return `k` when the ring is empty. */
  lemma SizeOffByAny<T>(capacity: nat, k: nat, v: T) returns (steps: seq<Step<T>>)
    requires GoodCapacity(capacity) && k < capacity <= WORD
    ensures Run(capacity, steps).Some? && Run(capacity, steps).value.observer.SawHead?
    ensures Occupancy(Run(capacity, steps).value) == 0 && SizeResult(Run(capacity, steps).value) == k
  {
    hide Run;
    var s;
    steps, s := PushThenPop(capacity, k, k, v);
    SizeCounts(capacity, steps);
    Divide(k, capacity, 0, k);
  }

  lemma ModOfMod(d: int, c: nat)
    requires 0 < c && WORD % c == 0
    ensures d % WORD % c == d % c
  {
    var k, r := d / WORD, d % WORD;
    var m := WORD / c;
    assert d == k * WORD + r && WORD == m * c;
    var q, t := r / c, r % c;
    assert r == q * c + t;
    assert d == (k * m + q) * c + t by { assert k * WORD == k * m * c; }
    Divide(d, c, k * m + q, t);
  }

  lemma SameRemainder(a: nat, b: nat, c: nat)
    requires a < c
    ensures (a + b) % c == a <==> b % c == 0
  {
    var q, r := b / c, b % c;
    assert b == q * c + r;
    if a + r < c { Divide(a + b, c, q, a + r); } else { Divide(a + b, c, q + 1, a + r - c); }
  }
}
