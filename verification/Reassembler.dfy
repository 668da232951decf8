/** EnvelopeReassembler of src/stt/realtime_envelope.cpp: fragments of base64 text, tagged with a
    message id and an index, are collected until a message is whole. The parsed envelope is the input. */
module Reassembler {
  import opened Wrappers
  import opened Base64

  type Id(==, !new) = string

  datatype Envelope =
    | FullMessage(data: string)
    | PartialMessage(id: Id, data: string, index: Option<nat>, total: Option<nat>)
    | OtherType

  datatype Pending = Pending(fragments: seq<string>, received: nat)

  type Table = map<Id, Pending>

  function Join(fragments: seq<string>): string {
    if fragments == [] then "" else fragments[0] + Join(fragments[1..])
  }

  lemma JoinUnfolds(fragments: seq<string>, before: string)
    ensures before + Join(fragments) ==
            if fragments == [] then before else before + fragments[0] + Join(fragments[1..])
  {}

  predicate Accepted(env: Envelope) {
    && env.PartialMessage? && env.index.Some? && env.total.Some?
    && env.total.value != 0 && env.index.value < env.total.value
  }

  function Blank(total: nat): (f: seq<string>)
    ensures |f| == total && forall i :: 0 <= i < total ==> f[i] == ""
  {
    seq(total, i => "")
  }

  function Entry(table: Table, id: Id): Option<Pending> {
    if id in table then Some(table[id]) else None
  }

  function Store(table: Table, id: Id, entry: Option<Pending>): Table {
    if entry.Some? then table[id := entry.value] else table - {id}
  }

  /** What one accepted fragment does to the entry of its message, and what the call returns. */
  function FeedEntry(entry: Option<Pending>, data: string, index: nat, total: nat)
    : (Option<Pending>, Option<seq<Byte>>)
    requires index < total
  {
    if entry.Some? && |entry.value.fragments| != total then (None, None)
    else
      var p := if entry.Some? then entry.value else Pending(Blank(total), 0);
      if p.fragments[index] != "" then (Some(p), None)
      else
        var q := Pending(p.fragments[index := data], p.received + 1);
        if q.received == total then (None, Decode(Join(q.fragments))) else (Some(q), None)
  }

  /** The table after one envelope, and the message the call returns. */
  function Feed(table: Table, env: Envelope): (Table, Option<seq<Byte>>) {
    if env.FullMessage? then (table, Decode(env.data))
    else if !Accepted(env) then (table, None)
    else
      var (entry, out) := FeedEntry(Entry(table, env.id), env.data, env.index.value, env.total.value);
      (Store(table, env.id, entry), out)
  }

  class EnvelopeReassembler {
    var pending: Table

    constructor ()
      ensures pending == map[]
    {
      pending := map[];
    }

    method FeedEnvelope(env: Envelope) returns (message: Option<seq<Byte>>)
      modifies this
      ensures (pending, message) == Feed(old(pending), env)
    {
      hide Decode, Join;
      ghost var before := pending;
      if env.FullMessage? {
        message := DecodeText(env.data);
        return;
      }
      if !env.PartialMessage? || env.index.None? || env.total.None?
         || env.total.value == 0 || env.index.value >= env.total.value {
        return None;
      }
      var inserted := env.id !in pending;
      if inserted {
        pending := pending[env.id := Pending(Blank(env.total.value), 0)];
      } else if |pending[env.id].fragments| != env.total.value {
        pending := pending - {env.id};
        return None;
      }
      var p := pending[env.id];
      var idx := env.index.value;
      if p.fragments[idx] != "" {
        assert pending == before[env.id := p];
        return None;
      }
      p := Pending(p.fragments[idx := env.data], p.received + 1);
      pending := pending[env.id := p];
      assert pending == before[env.id := p];
      if p.received == |p.fragments| {
        var encoded := Concatenate(p.fragments);
        pending := pending - {env.id};
        assert pending == before - {env.id};
        message := DecodeText(encoded);
        return;
      }
      return None;
    }
  }

  method Concatenate(fragments: seq<string>) returns (encoded: string)
    ensures encoded == Join(fragments)
  {
    encoded := "";
    for i := 0 to |fragments|
      invariant encoded + Join(fragments[i..]) == Join(fragments)
    {
      JoinUnfolds(fragments[i..], encoded);
      encoded := encoded + fragments[i];
    }
    JoinUnfolds([], encoded);
  }

  /** Joining is concatenation in the order of the fragments. */
  lemma {:induction false} JoinConcatenates(a: seq<string>, b: seq<string>, x: string)
    ensures Join([]) == "" && Join([x]) == x && Join(a + b) == Join(a) + Join(b)
  {
    assert [x][1..] == [];
    if a == [] {
      assert a + b == b;
    } else {
      JoinConcatenates(a[1..], b, x);
      assert (a + b)[1..] == a[1..] + b;
    }
  }

  // ----- Messages cut into fragments and delivered in any order -----

  /** How each message was cut: the fragments are not empty and join to the base64 of the payload. */
  datatype Message = Message(payload: seq<Byte>, fragments: seq<string>)

  type Plan = map<Id, Message>

  ghost predicate Cut(m: Message) {
    && m.payload != [] && m.fragments != []
    && (forall i :: 0 <= i < |m.fragments| ==> m.fragments[i] != "")
    && Join(m.fragments) == Encode(m.payload)
  }

  ghost predicate Sound(plan: Plan) {
    forall id :: id in plan ==> Cut(plan[id])
  }

  datatype Delivery = Delivery(id: Id, index: nat)

  ghost predicate Of(plan: Plan, d: Delivery) {
    d.id in plan && d.index < |plan[d.id].fragments|
  }

  function ToEnvelope(plan: Plan, d: Delivery): Envelope
    requires Of(plan, d)
  {
    var m := plan[d.id];
    PartialMessage(d.id, m.fragments[d.index], Some(d.index), Some(|m.fragments|))
  }

  /** The indices of message `id` among the deliveries `ds`. */
  ghost function Seen(ds: seq<Delivery>, id: Id): set<nat> {
    if ds == [] then {} else
    Seen(ds[..|ds| - 1], id) + if ds[|ds| - 1].id == id then {ds[|ds| - 1].index} else {}
  }

  ghost function AllOf(total: nat): (all: set<nat>)
    ensures |all| == total && forall i: nat :: i in all <==> i < total
  {
    if total == 0 then {} else AllOf(total - 1) + {total - 1}
  }

  ghost predicate Whole(plan: Plan, ds: seq<Delivery>, id: Id)
    requires id in plan
  {
    Seen(ds, id) == AllOf(|plan[id].fragments|)
  }

  /** Deliveries come in any order and may repeat, as long as their message is not yet whole. */
  ghost predicate Admissible(plan: Plan, ds: seq<Delivery>)
    ensures Admissible(plan, ds) ==> forall j :: 0 <= j < |ds| ==> Of(plan, ds[j])
  {
    forall j :: 0 <= j < |ds| ==> Of(plan, ds[j]) && !Whole(plan, ds[..j], ds[j].id)
  }

  ghost function Run(plan: Plan, ds: seq<Delivery>): Table
    requires forall j :: 0 <= j < |ds| ==> Of(plan, ds[j])
  {
    if ds == [] then map[] else Feed(Run(plan, ds[..|ds| - 1]), ToEnvelope(plan, ds[|ds| - 1])).0
  }

  /** What the call for the last delivery returns. */
  ghost function LastOutput(plan: Plan, ds: seq<Delivery>): Option<seq<Byte>>
    requires ds != [] && forall j :: 0 <= j < |ds| ==> Of(plan, ds[j])
  {
    Feed(Run(plan, ds[..|ds| - 1]), ToEnvelope(plan, ds[|ds| - 1])).1
  }

  /** A message has an entry exactly while it is partly delivered, and the entry holds exactly
      the delivered fragments and counts them. */
  ghost predicate EntryAgrees(m: Message, seen: set<nat>, entry: Option<Pending>) {
    && seen <= AllOf(|m.fragments|)
    && (entry.Some? <==> seen != {} && seen != AllOf(|m.fragments|))
    && (entry.Some? ==> Holds(m, seen, entry.value))
  }

  ghost predicate Holds(m: Message, seen: set<nat>, p: Pending) {
    && |p.fragments| == |m.fragments| && p.received == |seen|
    && forall i :: 0 <= i < |m.fragments| ==> p.fragments[i] == if i in seen then m.fragments[i] else ""
  }

  ghost predicate Agrees(plan: Plan, ds: seq<Delivery>, table: Table) {
    && table.Keys <= plan.Keys
    && forall id :: id in plan ==> EntryAgrees(plan[id], Seen(ds, id), Entry(table, id))
  }

  lemma SubsetSize(a: set<nat>, b: set<nat>)
    requires a <= b
    ensures |a| <= |b| && (|a| == |b| ==> a == b)
  {
    assert b == a + (b - a);
  }

  /** One delivery of a message that is not yet whole. */
  lemma FeedEntryAgrees(m: Message, seen: set<nat>, entry: Option<Pending>, index: nat)
    requires Cut(m) && EntryAgrees(m, seen, entry) && seen != AllOf(|m.fragments|) && index < |m.fragments|
    ensures var (after, out) := FeedEntry(entry, m.fragments[index], index, |m.fragments|);
            && EntryAgrees(m, seen + {index}, after)
            && out == if seen + {index} == AllOf(|m.fragments|) then Some(m.payload) else None
  {
    hide Decode, Encode, Join, AllOf;
    var p := if entry.Some? then entry.value else Pending(Blank(|m.fragments|), 0);
    SubsetSize(seen + {index}, AllOf(|m.fragments|));
    if index in seen {
      assert seen + {index} == seen;
    } else {
      var q := Pending(p.fragments[index := m.fragments[index]], p.received + 1);
      assert Holds(m, seen + {index}, q);
      if q.received == |m.fragments| {
        assert q.fragments == m.fragments;
        DecodeAfterEncode(m.payload);
      }
    }
  }

  lemma FeedAgrees(plan: Plan, ds: seq<Delivery>, d: Delivery, table: Table)
    requires Sound(plan) && Of(plan, d) && Agrees(plan, ds, table) && !Whole(plan, ds, d.id)
    ensures var (after, out) := Feed(table, ToEnvelope(plan, d));
            && Agrees(plan, ds + [d], after)
            && out == if Whole(plan, ds + [d], d.id) then Some(plan[d.id].payload) else None
  {
    hide Decode, Cut, FeedEntry, EntryAgrees, AllOf;
    FeedEntryAgrees(plan[d.id], Seen(ds, d.id), Entry(table, d.id), d.index);
    var (after, out) := Feed(table, ToEnvelope(plan, d));
    assert (ds + [d])[..|ds|] == ds;
    forall id | id in plan ensures EntryAgrees(plan[id], Seen(ds + [d], id), Entry(after, id)) {
      if id == d.id {
        assert Seen(ds + [d], id) == Seen(ds, id) + {d.index};
        assert Entry(after, id) == FeedEntry(Entry(table, id), plan[id].fragments[d.index], d.index, |plan[id].fragments|).0;
      } else {
        assert EntryAgrees(plan[id], Seen(ds, id), Entry(table, id));
        assert Seen(ds + [d], id) == Seen(ds, id) + {};
        assert Seen(ds, id) + {} == Seen(ds, id);
        assert Entry(after, id) == Entry(table, id);
      }
    }
  }

  lemma NotEmpty(m: Message)
    requires Cut(m)
    ensures 0 in AllOf(|m.fragments|)
  {}

  lemma NothingDelivered(m: Message)
    requires Cut(m)
    ensures EntryAgrees(m, {}, None)
  {
    NotEmpty(m);
  }

  /** After any admissible deliveries the table holds exactly the partly delivered messages. */
  lemma {:induction false} RunAgrees(plan: Plan, ds: seq<Delivery>)
    requires Sound(plan) && Admissible(plan, ds)
    ensures Agrees(plan, ds, Run(plan, ds))
    ensures ds != [] ==>
              LastOutput(plan, ds) == if Whole(plan, ds, ds[|ds| - 1].id)
                                      then Some(plan[ds[|ds| - 1].id].payload) else None
  {
    hide Cut, Feed, Decode, AllOf, EntryAgrees, Whole;
    if ds == [] {
      forall id | id in plan ensures EntryAgrees(plan[id], {}, None) {
        NothingDelivered(plan[id]);
      }
    } else {
      var init, d := ds[..|ds| - 1], ds[|ds| - 1];
      forall j | 0 <= j < |init| ensures Of(plan, init[j]) && !Whole(plan, init[..j], init[j].id) {
        assert init[..j] == ds[..j];
      }
      RunAgrees(plan, init);
      FeedAgrees(plan, init, d, Run(plan, init));
      assert ds == init + [d];
    }
  }

  ghost function PartlyReceived(plan: Plan, ds: seq<Delivery>): set<Id> {
    set id | id in plan && Seen(ds, id) != {} && !Whole(plan, ds, id)
  }

  /** `pending_count` is the number of messages that are partly received. */
  lemma PendingCount(plan: Plan, ds: seq<Delivery>)
    requires Sound(plan) && Admissible(plan, ds)
    ensures |Run(plan, ds)| == |PartlyReceived(plan, ds)|
  {
    hide Run, Seen, Cut, AllOf, Holds, Admissible;
    RunAgrees(plan, ds);
    var table := Run(plan, ds);
    forall id ensures id in table.Keys <==> id in plan && Seen(ds, id) != {} && !Whole(plan, ds, id) {
      if id in plan { assert EntryAgrees(plan[id], Seen(ds, id), Entry(table, id)); }
    }
    assert table.Keys == PartlyReceived(plan, ds);
    assert |table| == |table.Keys|;
  }

  lemma {:induction false} SeenGrows(ds: seq<Delivery>, i: nat, j: nat, id: Id)
    requires i <= j <= |ds|
    ensures Seen(ds[..i], id) <= Seen(ds[..j], id)
    decreases j
  {
    if i < j {
      SeenGrows(ds, i, j - 1, id);
      assert ds[..j][..j - 1] == ds[..j - 1];
    }
  }

  lemma {:induction false} SeenBy(ds: seq<Delivery>, k: nat, id: Id)
    ensures k in Seen(ds, id) <==> Delivery(id, k) in ds
  {
    if ds != [] {
      SeenBy(ds[..|ds| - 1], k, id);
      assert ds == ds[..|ds| - 1] + [ds[|ds| - 1]];
    }
  }

  /** The call for delivery `j` returns message `id`. */
  ghost predicate Returns(plan: Plan, ds: seq<Delivery>, j: nat, id: Id)
    requires Admissible(plan, ds) && j < |ds|
  {
    ds[j].id == id && LastOutput(plan, ds[..j + 1]).Some?
  }

  lemma AdmissiblePrefix(plan: Plan, ds: seq<Delivery>, j: nat)
    requires Admissible(plan, ds) && j <= |ds|
    ensures Admissible(plan, ds[..j])
  {
    forall k | 0 <= k < j ensures Of(plan, ds[..j][k]) && !Whole(plan, ds[..j][..k], ds[..j][k].id) {
      assert ds[..j][..k] == ds[..k];
    }
  }

  /** The call for a delivery returns something exactly when the message became whole with it,
      and what it returns is the payload, byte for byte. */
  lemma ReturnsWhenWhole(plan: Plan, ds: seq<Delivery>, j: nat)
    requires Sound(plan) && Admissible(plan, ds) && j < |ds|
    ensures Returns(plan, ds, j, ds[j].id) <==> Whole(plan, ds[..j + 1], ds[j].id)
    ensures Returns(plan, ds, j, ds[j].id) ==> LastOutput(plan, ds[..j + 1]) == Some(plan[ds[j].id].payload)
  {
    AdmissiblePrefix(plan, ds, j + 1);
    RunAgrees(plan, ds[..j + 1]);
  }

  /** Exactly-once: a message all of whose fragments were delivered is returned by exactly one
      call, the one for its last missing fragment. */
  lemma ReturnedExactlyOnce(plan: Plan, ds: seq<Delivery>, id: Id) returns (at: nat)
    requires Sound(plan) && Admissible(plan, ds) && id in plan
    requires forall k :: 0 <= k < |plan[id].fragments| ==> Delivery(id, k) in ds
    ensures at < |ds| && Returns(plan, ds, at, id)
    ensures LastOutput(plan, ds[..at + 1]) == Some(plan[id].payload)
    ensures forall j :: 0 <= j < |ds| && Returns(plan, ds, j, id) ==> j == at
    ensures ds[at] !in ds[..at]
  {
    hide Returns, Whole, Run, Feed;
    at := LastGap(plan, ds, id);
    ReturnsWhenWhole(plan, ds, at);
    NewWhenWhole(plan, ds, at);
    forall j | 0 <= j < |ds| && Returns(plan, ds, j, id) ensures j == at {
      assert ds[j].id == id by { ReturnsOwn(plan, ds, j, id); }
      ReturnsWhenWhole(plan, ds, j);
      if j < at { WholeOnlyOnce(plan, ds, j, at); }
      if at < j { WholeOnlyOnce(plan, ds, at, j); }
    }
  }

  lemma ReturnsOwn(plan: Plan, ds: seq<Delivery>, j: nat, id: Id)
    requires Admissible(plan, ds) && j < |ds| && Returns(plan, ds, j, id)
    ensures ds[j].id == id
  {}

  lemma NewWhenWhole(plan: Plan, ds: seq<Delivery>, j: nat)
    requires Admissible(plan, ds) && j < |ds| && Whole(plan, ds[..j + 1], ds[j].id)
    ensures ds[j] !in ds[..j]
  {
    assert ds[..j + 1][..j] == ds[..j];
    SeenBy(ds[..j], ds[j].index, ds[j].id);
    var index, before, after := ds[j].index, Seen(ds[..j], ds[j].id), Seen(ds[..j + 1], ds[j].id);
    assert after == before + {index};
    assert index in before ==> after == before;
  }

  lemma WholeOnlyOnce(plan: Plan, ds: seq<Delivery>, i: nat, j: nat)
    requires Admissible(plan, ds) && i <= j < |ds| && ds[i].id == ds[j].id
    requires Whole(plan, ds[..i + 1], ds[i].id)
    ensures i == j
  {
    if i < j { StaysWhole(plan, ds, i + 1, j, ds[i].id); }
  }

  lemma StaysWhole(plan: Plan, ds: seq<Delivery>, i: nat, j: nat, id: Id)
    requires Admissible(plan, ds) && id in plan && i <= j <= |ds| && Whole(plan, ds[..i], id)
    ensures Whole(plan, ds[..j], id)
  {
    SeenGrows(ds, i, j, id);
    SeenWithin(plan, ds, j, id);
  }

  lemma WholeWhenAllDelivered(plan: Plan, ds: seq<Delivery>, id: Id)
    requires Admissible(plan, ds) && id in plan
    requires forall k :: 0 <= k < |plan[id].fragments| ==> Delivery(id, k) in ds
    ensures Whole(plan, ds, id)
  {
    forall k: nat ensures k in Seen(ds, id) <==> k in AllOf(|plan[id].fragments|) {
      SeenBy(ds, k, id);
    }
  }

  lemma OthersAddNothing(ds: seq<Delivery>, at: nat, id: Id)
    requires at < |ds| && ds[at].id != id
    ensures Seen(ds[..at], id) == Seen(ds[..at + 1], id)
  {
    assert ds[..at + 1][..at] == ds[..at];
  }

  lemma NotWholeAtFirst(plan: Plan, ds: seq<Delivery>, id: Id)
    requires id in plan && Cut(plan[id])
    ensures !Whole(plan, ds[..0], id)
  {
    NotEmpty(plan[id]);
  }

  /** The delivery with which a message becomes whole. */
  lemma LastGap(plan: Plan, ds: seq<Delivery>, id: Id) returns (at: nat)
    requires Sound(plan) && Admissible(plan, ds) && id in plan
    requires forall k :: 0 <= k < |plan[id].fragments| ==> Delivery(id, k) in ds
    ensures at < |ds| && ds[at].id == id && Whole(plan, ds[..at + 1], id)
  {
    hide Seen, AllOf, Cut, Admissible;
    NotEmpty(plan[id]);
    assert Delivery(id, 0) in ds;
    WholeWhenAllDelivered(plan, ds, id);
    at := |ds| - 1;
    assert ds[..at + 1] == ds;
    while ds[at].id != id
      invariant 0 <= at < |ds| && Whole(plan, ds[..at + 1], id)
      decreases at
    {
      OthersAddNothing(ds, at, id);
      NotWholeAtFirst(plan, ds, id);
      at := at - 1;
    }
  }

  lemma {:induction false} SeenWithin(plan: Plan, ds: seq<Delivery>, j: nat, id: Id)
    requires id in plan && j <= |ds| && forall k :: 0 <= k < |ds| ==> Of(plan, ds[k])
    ensures Seen(ds[..j], id) <= AllOf(|plan[id].fragments|)
  {
    if j > 0 {
      SeenWithin(plan, ds, j - 1, id);
      assert ds[..j][..j - 1] == ds[..j - 1];
    }
  }

  // ----- When the promise holds -----

  ghost predicate AllOfPlan(plan: Plan, ds: seq<Delivery>) {
    forall j :: 0 <= j < |ds| ==> Of(plan, ds[j])
  }

  /** Some call for message `id` before delivery `j` returned something, and so does the call for `j`. */
  ghost predicate ReturnsAgain(plan: Plan, ds: seq<Delivery>, i: nat, j: nat)
    requires AllOfPlan(plan, ds) && i < j < |ds|
  {
    ds[i].id == ds[j].id && LastOutput(plan, ds[..i + 1]).Some? && LastOutput(plan, ds[..j + 1]).Some?
  }

  /** Exactly once: no message is returned twice. */
  ghost predicate NothingTwice(plan: Plan, ds: seq<Delivery>)
    requires AllOfPlan(plan, ds)
  {
    forall i, j :: 0 <= i < j < |ds| ==> !ReturnsAgain(plan, ds, i, j)
  }

  /** No entry outlives its message: at every moment the table holds what is partly received. */
  ghost predicate NothingLeaks(plan: Plan, ds: seq<Delivery>)
    requires AllOfPlan(plan, ds)
  {
    forall j :: 0 <= j <= |ds| ==> Agrees(plan, ds[..j], Run(plan, ds[..j]))
  }

  /** One more delivery of a message that is whole: it is returned again if it has a single fragment, and
      opens an entry that nothing will fill otherwise. */
  lemma AfterWhole(m: Message, index: nat)
    requires Cut(m) && index < |m.fragments|
    ensures var (after, out) := FeedEntry(None, m.fragments[index], index, |m.fragments|);
            && (|m.fragments| == 1 ==> after == None && out == Some(m.payload))
            && (|m.fragments| > 1 ==> after.Some? && out == None)
  {
    hide Decode, Encode, Join;
    if |m.fragments| == 1 {
      assert Blank(1)[0 := m.fragments[0]] == m.fragments;
      DecodeAfterEncode(m.payload);
    }
  }

  lemma WholeHasNoEntry(plan: Plan, ds: seq<Delivery>, table: Table, id: Id)
    requires Agrees(plan, ds, table) && id in plan && Whole(plan, ds, id)
    ensures Entry(table, id) == None
  {
    assert EntryAgrees(plan[id], Seen(ds, id), Entry(table, id));
  }

  /** A message that is whole was returned by an earlier call. */
  lemma WasReturned(plan: Plan, ds: seq<Delivery>, id: Id) returns (at: nat)
    requires Sound(plan) && Admissible(plan, ds) && id in plan && Whole(plan, ds, id)
    ensures at < |ds| && ds[at].id == id && LastOutput(plan, ds[..at + 1]).Some?
  {
    hide Run, Feed, Whole, Seen, Cut;
    forall k | 0 <= k < |plan[id].fragments| ensures Delivery(id, k) in ds {
      WholeHasAll(plan, ds, id, k);
    }
    at := ReturnedExactlyOnce(plan, ds, id);
  }

  lemma WholeHasAll(plan: Plan, ds: seq<Delivery>, id: Id, k: nat)
    requires id in plan && Whole(plan, ds, id) && k < |plan[id].fragments|
    ensures Delivery(id, k) in ds
  {
    SeenBy(ds, k, id);
  }

  /** The call for one more delivery of a whole message, and the entry it leaves. */
  lemma RepeatedCall(plan: Plan, ds: seq<Delivery>, d: Delivery)
    requires Sound(plan) && Admissible(plan, ds) && Of(plan, d) && Whole(plan, ds, d.id)
    ensures AllOfPlan(plan, ds + [d])
    ensures var n := |plan[d.id].fragments|;
            && (n == 1 ==> LastOutput(plan, ds + [d]).Some?)
            && (n > 1 ==> Entry(Run(plan, ds + [d]), d.id).Some?)
  {
    hide Decode, Cut, FeedEntry, Whole, Seen, Agrees, Admissible;
    assert (ds + [d])[..|ds|] == ds;
    RunAgrees(plan, ds);
    WholeHasNoEntry(plan, ds, Run(plan, ds), d.id);
    assert Cut(plan[d.id]);
    AfterWhole(plan[d.id], d.index);
  }

  /** The first delivery of a message that is already whole makes the promise fail. */
  lemma RepeatBreaks(plan: Plan, ds: seq<Delivery>, d: Delivery)
    requires Sound(plan) && Admissible(plan, ds) && Of(plan, d) && Whole(plan, ds, d.id)
    ensures AllOfPlan(plan, ds + [d])
    ensures !Agrees(plan, ds + [d], Run(plan, ds + [d])) ||
            exists i :: 0 <= i < |ds| && ReturnsAgain(plan, ds + [d], i, |ds|)
  {
    hide Run, LastOutput, Cut, Sound, Whole, Agrees, Admissible;
    RepeatedCall(plan, ds, d);
    var all := ds + [d];
    if |plan[d.id].fragments| == 1 {
      var i := WasReturned(plan, ds, d.id);
      assert all[..i + 1] == ds[..i + 1] && all[..|ds| + 1] == all;
      assert ReturnsAgain(plan, all, i, |ds|);
    } else {
      assert |plan[d.id].fragments| > 1 by { NotEmptyAt(plan, d); }
      WholeStays(plan, ds, d);
      if Agrees(plan, all, Run(plan, all)) { WholeHasNoEntry(plan, all, Run(plan, all), d.id); }
    }
  }

  lemma NotEmptyAt(plan: Plan, d: Delivery)
    requires Of(plan, d)
    ensures |plan[d.id].fragments| > 0
  {}

  lemma WholeStays(plan: Plan, ds: seq<Delivery>, d: Delivery)
    requires Of(plan, d) && Whole(plan, ds, d.id)
    ensures Whole(plan, ds + [d], d.id)
  {
    assert (ds + [d])[..|ds|] == ds;
  }

  lemma PromiseForPrefix(plan: Plan, ds: seq<Delivery>, j: nat)
    requires AllOfPlan(plan, ds) && NothingTwice(plan, ds) && NothingLeaks(plan, ds) && j <= |ds|
    ensures AllOfPlan(plan, ds[..j]) && NothingTwice(plan, ds[..j]) && NothingLeaks(plan, ds[..j])
  {
    hide Run, Agrees, LastOutput;
    var init := ds[..j];
    forall l | 0 <= l <= j ensures Agrees(plan, init[..l], Run(plan, init[..l])) {
      assert init[..l] == ds[..l];
    }
    forall i, l | 0 <= i < l < j ensures !ReturnsAgain(plan, init, i, l) {
      assert init[..i + 1] == ds[..i + 1] && init[..l + 1] == ds[..l + 1];
      assert !ReturnsAgain(plan, ds, i, l);
    }
  }

  lemma {:induction false} PromiseNeedsAdmissible(plan: Plan, ds: seq<Delivery>)
    requires Sound(plan) && AllOfPlan(plan, ds) && NothingTwice(plan, ds) && NothingLeaks(plan, ds)
    ensures Admissible(plan, ds)
  {
    hide Sound, Agrees, Run, LastOutput, Whole, NothingTwice;
    if ds != [] {
      var init, d := ds[..|ds| - 1], ds[|ds| - 1];
      PromiseForPrefix(plan, ds, |ds| - 1);
      PromiseNeedsAdmissible(plan, init);
      assert ds == init + [d] && ds[..|ds|] == ds;
      if Whole(plan, init, d.id) {
        RepeatBreaks(plan, init, d);
        assert Agrees(plan, ds, Run(plan, ds));
        NotAgain(plan, ds, |init|);
        assert false;
      }
      forall j | 0 <= j < |ds| ensures Of(plan, ds[j]) && !Whole(plan, ds[..j], ds[j].id) {
        if j < |init| { assert ds[..j] == init[..j] && ds[j] == init[j]; }
      }
    }
  }

  lemma NotAgain(plan: Plan, ds: seq<Delivery>, j: nat)
    requires AllOfPlan(plan, ds) && NothingTwice(plan, ds) && j < |ds|
    ensures !exists i :: 0 <= i < j && ReturnsAgain(plan, ds, i, j)
  {}

  lemma AdmissibleGivesPromise(plan: Plan, ds: seq<Delivery>)
    requires Sound(plan) && Admissible(plan, ds)
    ensures NothingTwice(plan, ds) && NothingLeaks(plan, ds)
  {
    hide Sound, Agrees, Run, LastOutput, Whole, Admissible;
    forall j | 0 <= j <= |ds| ensures Agrees(plan, ds[..j], Run(plan, ds[..j])) {
      AdmissiblePrefix(plan, ds, j);
      RunAgrees(plan, ds[..j]);
    }
    forall i, j | 0 <= i < j < |ds| ensures !ReturnsAgain(plan, ds, i, j) {
      if ReturnsAgain(plan, ds, i, j) {
        ReturnsWhenWhole(plan, ds, i);
        WholeOnlyOnce(plan, ds, i, j);
      }
    }
  }

  /** Fragments of the plan in any order: the table always holds exactly the partly received messages and
      no message is returned twice, if and only if nothing is delivered of a message that is whole. */
  lemma PromiseHoldsExactlyWhen(plan: Plan, ds: seq<Delivery>)
    requires Sound(plan) && AllOfPlan(plan, ds)
    ensures Admissible(plan, ds) <==> NothingTwice(plan, ds) && NothingLeaks(plan, ds)
  {
    hide Sound, Admissible, NothingTwice, NothingLeaks;
    if Admissible(plan, ds) {
      AdmissibleGivesPromise(plan, ds);
    } else if NothingTwice(plan, ds) && NothingLeaks(plan, ds) {
      PromiseNeedsAdmissible(plan, ds);
    }
  }

  /** What repeating the fragments of a message does after it came out: one of two leaves an entry, both
      bring the message a second time and leave none, and the only fragment of a message brings it each
      time. */
  lemma LateDuplicates(id: Id, a: string, b: string)
    requires a != "" && b != ""
    ensures var first, second := PartialMessage(id, a, Some(0), Some(2)), PartialMessage(id, b, Some(1), Some(2));
            var whole := Feed(Feed(map[], first).0, second);
            var repeated := Feed(Feed(whole.0, first).0, second);
            && whole.0 == map[] && whole.1 == Decode(Join([a, b]))
            && id in Feed(whole.0, first).0
            && repeated.0 == map[] && repeated.1 == Decode(Join([a, b]))
    ensures var only := PartialMessage(id, a, Some(0), Some(1));
            Feed(map[], only) == (map[], Decode(Join([a])))
  {
    hide Decode, Join;
    assert Blank(2)[0 := a][1 := b] == [a, b] && Blank(1)[0 := a] == [a];
    var empty: Table := map[];
    assert empty[id := Pending(Blank(2)[0 := a], 1)] - {id} == map[] && empty - {id} == map[];
  }

  // ----- Calls that bring no fragment -----

  /** A message that is not cut comes back at once and leaves the table alone; text that is not the
      base64 of anything brings nothing. */
  lemma FullMessageComesBack(table: Table, payload: seq<Byte>, data: string)
    ensures Feed(table, FullMessage(Encode(payload))) == (table, Some(payload))
    ensures Feed(table, FullMessage(data)).0 == table
    ensures Feed(table, FullMessage(data)).1 == Some(payload) <==>
            |data| % 4 == 0 && Encode(payload) <= data && (Encode(payload) == data || |payload| % 3 != 0)
  {
    hide Encode, Decode;
    DecodeAfterEncode(payload);
    DecodesExactly(data, payload);
  }

  /** What brings nothing: another type, a fragment without its index or total or with one that is out of
      range; a fragment that is already there; and a changed total, which also gives the message up. */
  lemma Refusals(table: Table, env: Envelope)
    ensures env.OtherType? ==> Feed(table, env) == (table, None)
    ensures env.PartialMessage? && (env.index.None? || env.total.None?) ==> Feed(table, env) == (table, None)
    ensures env.PartialMessage? && env.index.Some? && env.total.Some? && env.index.value >= env.total.value ==>
              Feed(table, env) == (table, None)
    ensures env.PartialMessage? && env.index.Some? && env.total.Some? && env.index.value < env.total.value && env.id in table ==>
              var known := table[env.id].fragments;
              && (|known| != env.total.value ==> Feed(table, env) == (table - {env.id}, None))
              && (|known| == env.total.value && known[env.index.value] != "" ==> Feed(table, env) == (table, None))
  {
    hide Decode, Join;
    if env.PartialMessage? && env.id in table { assert table[env.id := table[env.id]] == table; }
  }

  /** A call brings a whole message, a fragment of the plan, or something that is refused. */
  datatype Call = Uncut(payload: seq<Byte>) | Fragment(d: Delivery) | Refused

  function Fragments(calls: seq<Call>): seq<Delivery> {
    if calls == [] then [] else
    Fragments(calls[..|calls| - 1]) + if calls[|calls| - 1].Fragment? then [calls[|calls| - 1].d] else []
  }

  ghost predicate AllPlanned(plan: Plan, calls: seq<Call>) {
    forall j :: 0 <= j < |calls| && calls[j].Fragment? ==> Of(plan, calls[j].d)
  }

  function EnvelopeOf(plan: Plan, call: Call): Envelope
    requires call.Fragment? ==> Of(plan, call.d)
  {
    match call
    case Uncut(payload) => FullMessage(Encode(payload))
    case Fragment(d) => ToEnvelope(plan, d)
    case Refused => OtherType
  }

  ghost function TableAfter(plan: Plan, calls: seq<Call>): Table
    requires AllPlanned(plan, calls)
  {
    if calls == [] then map[] else
    Feed(TableAfter(plan, calls[..|calls| - 1]), EnvelopeOf(plan, calls[|calls| - 1])).0
  }

  /** What call `j` returns. */
  ghost function Returned(plan: Plan, calls: seq<Call>, j: nat): Option<seq<Byte>>
    requires AllPlanned(plan, calls) && j < |calls|
  {
    Feed(TableAfter(plan, calls[..j]), EnvelopeOf(plan, calls[j])).1
  }

  lemma {:induction false} FragmentsPlanned(plan: Plan, calls: seq<Call>)
    requires AllPlanned(plan, calls)
    ensures AllOfPlan(plan, Fragments(calls))
  {
    if calls != [] { FragmentsPlanned(plan, calls[..|calls| - 1]); }
  }

  /** The table depends on the fragments alone. */
  lemma {:induction false} TableOfFragments(plan: Plan, calls: seq<Call>)
    requires AllPlanned(plan, calls)
    ensures AllOfPlan(plan, Fragments(calls)) && TableAfter(plan, calls) == Run(plan, Fragments(calls))
  {
    hide Feed, Encode;
    FragmentsPlanned(plan, calls);
    if calls != [] {
      var init, last := calls[..|calls| - 1], calls[|calls| - 1];
      TableOfFragments(plan, init);
      assert Fragments(init) + [] == Fragments(init);
      match last
      case Uncut(payload) => FullMessageComesBack(TableAfter(plan, init), payload, "");
      case Fragment(d) => assert Fragments(calls)[..|Fragments(calls)| - 1] == Fragments(init);
      case Refused => Refusals(TableAfter(plan, init), OtherType);
    }
  }

  lemma FragmentsPrefix(calls: seq<Call>, j: nat)
    requires j < |calls|
    ensures Fragments(calls[..j + 1]) == Fragments(calls[..j]) + if calls[j].Fragment? then [calls[j].d] else []
  {
    assert calls[..j + 1][..j] == calls[..j];
  }

  lemma {:induction false} FragmentsGrow(calls: seq<Call>, i: nat, j: nat)
    requires i <= j <= |calls|
    ensures Fragments(calls[..i]) <= Fragments(calls[..j])
    decreases j
  {
    if i < j {
      FragmentsGrow(calls, i, j - 1);
      FragmentsPrefix(calls, j - 1);
    }
  }

  /** Whole messages and fragments in any order: every whole message is returned by its own call, byte for
      byte; the pending count is that of the fragments; and a fragment's call returns what it would
      return had there been only fragments. */
  lemma CallsReturn(plan: Plan, calls: seq<Call>, j: nat)
    requires Sound(plan) && AllPlanned(plan, calls) && Admissible(plan, Fragments(calls)) && j < |calls|
    ensures match calls[j]
            case Uncut(payload) => Returned(plan, calls, j) == Some(payload)
            case Refused => Returned(plan, calls, j) == None
            case Fragment(d) =>
              var at := |Fragments(calls[..j])|;
              && at < |Fragments(calls)| && Fragments(calls)[at] == d
              && Returned(plan, calls, j) == LastOutput(plan, Fragments(calls)[..at + 1])
    ensures |TableAfter(plan, calls)| == |PartlyReceived(plan, Fragments(calls))|
  {
    hide Feed, Encode, Sound, Admissible, Run;
    TableOfFragments(plan, calls);
    PendingCount(plan, Fragments(calls));
    var init := calls[..j];
    TableOfFragments(plan, init);
    match calls[j]
    case Uncut(payload) => FullMessageComesBack(TableAfter(plan, init), payload, "");
    case Refused => Refusals(TableAfter(plan, init), OtherType);
    case Fragment(d) =>
      FragmentsPrefix(calls, j);
      FragmentsGrow(calls, j + 1, |calls|);
      assert calls[..|calls|] == calls;
      var at := |Fragments(init)|;
      assert Fragments(calls)[..at + 1] == Fragments(init) + [d];
      assert (Fragments(init) + [d])[..at] == Fragments(init);
  }

  /** Exactly once among all calls: a message all of whose fragments were delivered is returned by one
      fragment's call, and by no other call that brings a fragment of it. */
  lemma ReturnedOnceAmongCalls(plan: Plan, calls: seq<Call>, id: Id) returns (at: nat)
    requires Sound(plan) && AllPlanned(plan, calls) && Admissible(plan, Fragments(calls)) && id in plan
    requires forall k :: 0 <= k < |plan[id].fragments| ==> Delivery(id, k) in Fragments(calls)
    ensures at < |calls| && calls[at].Fragment? && calls[at].d.id == id && Returned(plan, calls, at) == Some(plan[id].payload)
    ensures forall j :: 0 <= j < |calls| && calls[j].Fragment? && calls[j].d.id == id && Returned(plan, calls, j).Some? ==> j == at
  {
    hide Sound, Admissible, Returned, Returns, LastOutput, AllPlanned, Fragments, Run, Feed;
    var i := ReturnedExactlyOnce(plan, Fragments(calls), id);
    at := CallOf(calls, i);
    assert Fragments(calls)[i].id == id by { ReturnsOwn(plan, Fragments(calls), i, id); }
    CallsReturn(plan, calls, at);
    forall j | 0 <= j < |calls| && calls[j].Fragment? && calls[j].d.id == id && Returned(plan, calls, j).Some? ensures j == at {
      ReturningCall(plan, calls, j);
      assert |Fragments(calls[..j])| == i;
      SameCall(calls, j, at);
    }
  }

  lemma ReturningCall(plan: Plan, calls: seq<Call>, j: nat)
    requires Sound(plan) && AllPlanned(plan, calls) && Admissible(plan, Fragments(calls)) && j < |calls|
    requires calls[j].Fragment? && Returned(plan, calls, j).Some?
    ensures var at := |Fragments(calls[..j])|;
            at < |Fragments(calls)| && Returns(plan, Fragments(calls), at, calls[j].d.id)
  {
    hide Sound, Admissible, Returned, LastOutput, AllPlanned, Fragments, Run;
    CallsReturn(plan, calls, j);
  }

  /** The call that brings fragment `i`. */
  lemma {:induction false} CallOf(calls: seq<Call>, i: nat) returns (at: nat)
    requires i < |Fragments(calls)|
    ensures at < |calls| && calls[at].Fragment? && |Fragments(calls[..at])| == i && calls[at].d == Fragments(calls)[i]
  {
    var init := calls[..|calls| - 1];
    if i < |Fragments(init)| {
      at := CallOf(init, i);
      assert init[..at] == calls[..at];
    } else {
      at := |calls| - 1;
    }
  }

  lemma SameCall(calls: seq<Call>, i: nat, j: nat)
    requires i < |calls| && j < |calls| && calls[i].Fragment? && calls[j].Fragment?
    requires |Fragments(calls[..i])| == |Fragments(calls[..j])|
    ensures i == j
  {
    FragmentsPrefix(calls, i);
    FragmentsPrefix(calls, j);
    if i < j { FragmentsGrow(calls, i + 1, j); }
    if j < i { FragmentsGrow(calls, j + 1, i); }
  }

  // ----- Empty fragments -----

  /** The first fragment of a message of several, sent twice: the second one changes nothing if and only if it
      is not empty. */
  lemma RepeatIgnoredExactlyWhen(table: Table, env: Envelope)
    requires Accepted(env) && env.total.value > 1 && env.id !in table
    ensures var once := Feed(table, env).0;
            Feed(once, env) == (once, None) <==> env.data != ""
  {
    hide Decode, Join;
    var once := Feed(table, env).0;
    assert once[env.id].fragments[env.index.value] == env.data && once[env.id].received == 1;
    if env.data == "" {
      CountsAgain(once, env);
    } else {
      Refusals(once, env);
    }
  }

  lemma CountsAgain(table: Table, env: Envelope)
    requires Accepted(env) && env.id in table && |table[env.id].fragments| == env.total.value
    requires table[env.id].fragments[env.index.value] == "" && table[env.id].received == 1
    ensures Feed(table, env).0 != table
  {
    hide Decode, Join;
    var after := Feed(table, env).0;
    if env.id in after { assert after[env.id].received == 2; }
  }

  /** An empty fragment sent twice counts for two: a message of two fragments comes out empty without its
      second fragment. */
  lemma EmptyFragmentCountsTwice(table: Table, id: Id)
    requires id !in table
    ensures var env := PartialMessage(id, "", Some(0), Some(2));
            Feed(Feed(table, env).0, env) == (table, Some([]))
  {
    hide Decode, Encode;
    DecodeAfterEncode([]);
    EncodeNothing();
    var env := PartialMessage(id, "", Some(0), Some(2));
    var p := Pending(Blank(2)[0 := ""], 1);
    assert Feed(table, env).0 == table[id := p];
    assert table[id := p] - {id} == table;
    var fragments := p.fragments[0 := ""];
    assert fragments == ["", ""];
    JoinConcatenates([""], [""], "");
    assert [""] + [""] == ["", ""] && Join(fragments) == "";
  }

  lemma EncodeNothing()
    ensures Encode([]) == ""
  {}
}
