/**
 backend/queue/memory_queue.py: topics split into partitions, each a queue of
 envelopes with dense offsets, read through one cyclic cursor per consumer
 group and topic.
 */
module MemoryQueues {
  import opened Collections

  datatype Envelope<M> = Envelope(offset: nat, partition: nat, topic: string, value: M)

  /** The remainder of `a` by `n`, never negative, by repeated subtraction. */
  function Remainder(a: int, n: nat): (r: nat)
    requires n > 0
    ensures r < n
    decreases if a < 0 then -a else if a < n then 0 else a
  {
    if a < 0 then Remainder(a + n, n) else if a < n then a else Remainder(a - n, n)
  }

  /** Quotients that differ by at least one put `n` between the products. */
  lemma ProductsApart(p: int, q: int, n: nat)
    requires p < q
    ensures p * n + n <= q * n
  {
    var k := q - p - 1;
    assert q * n == p * n + n + k * n;
  }

  lemma QuotientUnique(a: int, n: nat, q: int, r: nat)
    requires r < n && a == q * n + r
    ensures a % n == r
  {
    var p, s := a / n, a % n;
    assert a == p * n + s;
    if q > p {
      ProductsApart(p, q, n);
    } else if q < p {
      ProductsApart(q, p, n);
    }
  }

  lemma OneMore(q: int, n: nat)
    ensures (q + 1) * n == q * n + n
  {
  }

  lemma SameRemainder(a: int, n: nat)
    requires n > 0
    ensures (a + n) % n == a % n
  {
    var q, r := a / n, a % n;
    OneMore(q, n);
    QuotientUnique(a + n, n, q + 1, r);
  }

  /** It is the remainder that `%` computes for a positive divisor. */
  lemma {:induction false} RemainderIsMod(a: int, n: nat)
    requires n > 0
    ensures Remainder(a, n) == a % n
    decreases if a < 0 then -a else if a < n then 0 else a
  {
    if a < 0 {
      RemainderIsMod(a + n, n);
      SameRemainder(a, n);
    } else if a >= n {
      RemainderIsMod(a - n, n);
      SameRemainder(a - n, n);
    } else {
      QuotientUnique(a, n, 0, a);
    }
  }

  /** One topic: its partition queues, the next offset of each, and the number of messages produced. */
  datatype Topic<M> = Topic(queues: seq<seq<Envelope<M>>>, offsets: seq<nat>, produced: nat) {
    predicate Valid() { |queues| == |offsets| }

    /** The partition a produce call ends up in: the requested one, else round robin. */
    function Target(partition: Option<int>): (p: nat)
      requires |queues| > 0
      ensures p < |queues|
    {
      Remainder(if partition.Some? then partition.value else produced, |queues|)
    }

    function Put(name: string, p: nat, value: M): Topic<M>
      requires Valid() && p < |queues|
    {
      Topic(queues[p := queues[p] + [Envelope(offsets[p], p, name, value)]],
            offsets[p := offsets[p] + 1],
            produced + 1)
    }

    /** Removes the head of a partition, if it has one. */
    function Take(p: nat): Topic<M>
      requires p < |queues|
    {
      if queues[p] == [] then this else this.(queues := queues[p := queues[p][1..]])
    }
  }

  /** A requested partition is taken modulo their number; without a request the messages go round. */
  lemma TargetIsRemainder<M>(t: Topic<M>, partition: Option<int>)
    requires |t.queues| > 0
    ensures t.Target(partition) == match partition case Some(p) => p % |t.queues| case None => t.produced % |t.queues|
  {
    RemainderIsMod(if partition.Some? then partition.value else t.produced, |t.queues|);
  }

  function Empties<T>(n: nat): (r: seq<seq<T>>)
    ensures |r| == n && forall p :: 0 <= p < n ==> r[p] == []
  {
    seq(n, _ => [])
  }

  function NewTopic<M>(partitions: nat): (t: Topic<M>)
    ensures t.Valid() && |t.queues| == partitions
    ensures forall p :: 0 <= p < partitions ==> t.queues[p] == [] && t.offsets[p] == 0
  {
    Topic(Empties(partitions), seq(partitions, _ => 0), 0)
  }

  function Length<T>(q: seq<T>): nat { |q| }

  /** Messages waiting in a topic. */
  function Depth<M>(t: Topic<M>): nat {
    Sum(t.queues, Length)
  }

  // ---- Delivery: what a topic owes its producers and consumers ----

  /**
   What partition `p` has been sent is what it has delivered followed by what
   still waits, and the k-th message sent carries offset k.
   */
  ghost predicate Ledger<M>(
    name: string, t: Topic<M>, sent: seq<seq<Envelope<M>>>, delivered: seq<seq<Envelope<M>>>, p: nat)
    requires t.Valid() && p < |t.queues| == |sent| == |delivered|
  {
    && delivered[p] + t.queues[p] == sent[p]
    && t.offsets[p] == |sent[p]|
    && forall k :: 0 <= k < |sent[p]| ==>
         sent[p][k].offset == k && sent[p][k].partition == p && sent[p][k].topic == name
  }

  ghost predicate Balanced<M>(
    name: string, t: Topic<M>, sent: seq<seq<Envelope<M>>>, delivered: seq<seq<Envelope<M>>>)
  {
    && t.Valid() && |t.queues| == |sent| == |delivered|
    && (forall p :: 0 <= p < |t.queues| ==> Ledger(name, t, sent, delivered, p))
    && t.produced == Sum(sent, Length)
  }

  lemma LedgerSend<M>(
    name: string, t: Topic<M>, p: nat, value: M, sent: seq<seq<Envelope<M>>>, delivered: seq<seq<Envelope<M>>>)
    requires Balanced(name, t, sent, delivered) && p < |t.queues|
    ensures Balanced(name, t.Put(name, p, value),
                     sent[p := sent[p] + [Envelope(t.offsets[p], p, name, value)]], delivered)
  {
    var envelope := Envelope(t.offsets[p], p, name, value);
    assert Ledger(name, t, sent, delivered, p);
    assert delivered[p] + (t.queues[p] + [envelope]) == (delivered[p] + t.queues[p]) + [envelope];
    var t', sent' := t.Put(name, p, value), sent[p := sent[p] + [envelope]];
    SumUpdate(sent, p, sent'[p], Length);
    forall q | 0 <= q < |t.queues|
      ensures Ledger(name, t', sent', delivered, q)
    {
      assert Ledger(name, t, sent, delivered, q);
    }
  }

  function Head<T>(q: seq<T>): seq<T> { if q == [] then [] else [q[0]] }

  lemma LedgerTake<M>(name: string, t: Topic<M>, p: nat, sent: seq<seq<Envelope<M>>>, delivered: seq<seq<Envelope<M>>>)
    requires Balanced(name, t, sent, delivered) && p < |t.queues|
    ensures Balanced(name, t.Take(p), sent, delivered[p := delivered[p] + Head(t.queues[p])])
  {
    var after := delivered[p := delivered[p] + Head(t.queues[p])];
    assert Ledger(name, t, sent, delivered, p);
    if t.queues[p] != [] {
      assert delivered[p] + t.queues[p] == (delivered[p] + [t.queues[p][0]]) + t.queues[p][1..];
    }
    var t' := t.Take(p);
    forall q | 0 <= q < |t.queues|
      ensures Ledger(name, t', sent, after, q)
    {
      assert Ledger(name, t, sent, delivered, q);
    }
  }

  /**
   A topic together with everything ever sent to and received from each
   partition; cursors belong to a consumer group and a topic.
   */
  datatype Traffic<M> = Traffic(
    name: string,
    topic: Topic<M>,
    cursors: map<(string, string), nat>,
    sent: seq<seq<Envelope<M>>>,
    delivered: seq<seq<Envelope<M>>>)
  {
    ghost predicate Valid() {
      |topic.queues| > 0 && Balanced(name, topic, sent, delivered)
    }

    function Cursor(group: string): nat {
      if (group, name) in cursors then cursors[(group, name)] else 0
    }

    /** The partition the group looks at next. */
    function Next(group: string): (p: nat)
      requires |topic.queues| > 0
      ensures p < |topic.queues|
    {
      Remainder(Cursor(group), |topic.queues|)
    }
  }

  /** Anything a producer or one pass of a consumer's loop can do to a topic. */
  datatype TrafficEvent<M> = Send(value: M, partition: Option<int>) | Poll(group: string)

  lemma NewIsBalanced<M>(name: string, partitions: nat)
    ensures Balanced<M>(name, NewTopic(partitions), Empties(partitions), Empties(partitions))
  {
    SumZero(Empties<Envelope<M>>(partitions), Length);
  }

  /** A freshly created topic. */
  ghost function Open<M>(name: string, partitions: nat): (t: Traffic<M>)
    requires partitions > 0
    ensures t.Valid()
  {
    NewIsBalanced<M>(name, partitions);
    Traffic(name, NewTopic(partitions), map[], Empties(partitions), Empties(partitions))
  }

  ghost function Handle<M>(t: Traffic<M>, e: TrafficEvent<M>): Traffic<M>
    requires t.Valid()
  {
    match e
    case Send(value, partition) =>
      var p := t.topic.Target(partition);
      t.(topic := t.topic.Put(t.name, p, value),
         sent := t.sent[p := t.sent[p] + [Envelope(t.topic.offsets[p], p, t.name, value)]])
    case Poll(group) =>
      var p := t.Next(group);
      t.(topic := t.topic.Take(p),
         cursors := t.cursors[(group, t.name) := p + 1],
         delivered := t.delivered[p := t.delivered[p] + Head(t.topic.queues[p])])
  }

  lemma HandleValid<M>(t: Traffic<M>, e: TrafficEvent<M>)
    requires t.Valid()
    ensures Handle(t, e).Valid()
  {
    match e {
      case Send(value, partition) =>
        var p := t.topic.Target(partition);
        LedgerSend(t.name, t.topic, p, value, t.sent, t.delivered);
      case Poll(group) =>
        LedgerTake(t.name, t.topic, t.Next(group), t.sent, t.delivered);
    }
  }

  ghost function HandleAll<M>(t: Traffic<M>, events: seq<TrafficEvent<M>>): (r: Traffic<M>)
    requires t.Valid()
    ensures r.Valid()
    decreases |events|
  {
    if events == [] then t
    else
      HandleValid(t, events[0]);
      HandleAll(Handle(t, events[0]), events[1..])
  }

  lemma {:induction false} DepthBalance<M>(
    waiting: seq<seq<Envelope<M>>>, delivered: seq<seq<Envelope<M>>>, sent: seq<seq<Envelope<M>>>)
    requires |waiting| == |delivered| == |sent|
    requires forall p :: 0 <= p < |sent| ==> delivered[p] + waiting[p] == sent[p]
    ensures Sum(waiting, Length) + Sum(delivered, Length) == Sum(sent, Length)
  {
    if sent == [] {
    } else {
      DepthBalance(waiting[1..], delivered[1..], sent[1..]);
      assert |sent[0]| == |delivered[0]| + |waiting[0]|;
    }
  }

  /** What waits in a topic is what was produced and not delivered. */
  lemma DepthIsOutstanding<M>(
    name: string, t: Topic<M>, sent: seq<seq<Envelope<M>>>, delivered: seq<seq<Envelope<M>>>)
    requires Balanced(name, t, sent, delivered)
    ensures Depth(t) + Sum(delivered, Length) == t.produced
  {
    forall q | 0 <= q < |sent|
      ensures delivered[q] + t.queues[q] == sent[q]
    {
      assert Ledger(name, t, sent, delivered, q);
    }
    DepthBalance(t.queues, delivered, sent);
  }

  lemma ValidMeansDelivered<M>(r: Traffic<M>, p: nat)
    requires r.Valid() && p < |r.topic.queues|
    ensures r.delivered[p] <= r.sent[p] && r.delivered[p] + r.topic.queues[p] == r.sent[p]
    ensures forall k :: 0 <= k < |r.sent[p]| ==> r.sent[p][k].offset == k
    ensures forall i, j :: 0 <= i < j < |r.delivered[p]| ==> r.delivered[p][i] != r.delivered[p][j]
    ensures Depth(r.topic) + Sum(r.delivered, Length) == r.topic.produced
  {
    assert Ledger(r.name, r.topic, r.sent, r.delivered, p);
    assert forall k :: 0 <= k < |r.delivered[p]| ==> r.delivered[p][k] == r.sent[p][k];
    DepthIsOutstanding(r.name, r.topic, r.sent, r.delivered);
  }

  lemma {:induction false} SameShape<M>(t: Traffic<M>, events: seq<TrafficEvent<M>>)
    requires t.Valid()
    ensures |HandleAll(t, events).topic.queues| == |t.topic.queues|
    ensures forall p :: 0 <= p < |t.sent| ==> t.sent[p] <= HandleAll(t, events).sent[p]
    decreases |events|
  {
    if events == [] {
    } else {
      HandleValid(t, events[0]);
      SameShape(Handle(t, events[0]), events[1..]);
    }
  }

  /**
   Whatever producers, consumers and groups do and in whatever order: a
   partition delivers a prefix of what it was sent, in order and with dense
   offsets, so no message comes out twice; what waits is what was produced and
   not delivered.
   */
  lemma DeliveryIsOrderedAndUnique<M>(name: string, partitions: nat, events: seq<TrafficEvent<M>>, p: nat)
    requires p < partitions
    ensures var r := HandleAll(Open<M>(name, partitions), events);
            && |r.sent| == |r.delivered| == |r.topic.queues| == partitions
            && r.delivered[p] <= r.sent[p]
            && r.delivered[p] + r.topic.queues[p] == r.sent[p]
            && (forall k :: 0 <= k < |r.sent[p]| ==> r.sent[p][k].offset == k)
            && (forall i, j :: 0 <= i < j < |r.delivered[p]| ==> r.delivered[p][i] != r.delivered[p][j])
            && Depth(r.topic) + Sum(r.delivered, Length) == r.topic.produced
  {
    var t := Open<M>(name, partitions);
    SameShape(t, events);
    ValidMeansDelivered(HandleAll(t, events), p);
  }

  // ---- Bounded waiting ----

  function PollsBy<M>(events: seq<TrafficEvent<M>>, group: string): nat {
    if events == [] then 0
    else (if events[0] == Poll(group) then 1 else 0) + PollsBy(events[1..], group)
  }

  /** How many polls by the group come before it looks at partition `p`. */
  function Distance(cursor: nat, p: nat, partitions: nat): (d: nat)
    requires p < partitions
    ensures d < partitions
  {
    var next := Remainder(cursor, partitions);
    if next <= p then p - next else p - next + partitions
  }

  /** A poll moves the cursor cyclically, so every distance but one shrinks by one. */
  lemma CursorStep(cursor: nat, p: nat, partitions: nat)
    requires p < partitions
    ensures var next := Remainder(cursor, partitions);
            && Remainder(next + 1, partitions) == (if next + 1 == partitions then 0 else next + 1)
            && Distance(next + 1, p, partitions)
               == if next == p then partitions - 1 else Distance(cursor, p, partitions) - 1
  {
  }

  lemma NextStep<M>(t: Traffic<M>, e: TrafficEvent<M>, group: string)
    requires t.Valid()
    ensures Handle(t, e).Valid() && |Handle(t, e).topic.queues| == |t.topic.queues|
    ensures Handle(t, e).Next(group) ==
            if e == Poll(group) then Remainder(t.Next(group) + 1, |t.topic.queues|) else t.Next(group)
  {
    HandleValid(t, e);
  }

  lemma WrapsAround(p: nat, k: nat, n: nat)
    requires p < n
    ensures Remainder(Remainder(p + 1, n) + k, n) == Remainder(p + 1 + k, n)
  {
    RemainderIsMod(p + 1, n);
    if p + 1 == n {
      RemainderIsMod(k, n);
      RemainderIsMod(n + k, n);
      SameRemainder(k, n);
      assert Remainder(p + 1, n) == 0;
    }
  }

  /** From the first partition on, each poll of a group looks at the next one, whatever the others do. */
  lemma {:induction false} PollsGoRound<M>(t: Traffic<M>, events: seq<TrafficEvent<M>>, group: string)
    requires t.Valid()
    ensures |HandleAll(t, events).topic.queues| == |t.topic.queues|
    ensures HandleAll(t, events).Next(group) == Remainder(t.Next(group) + PollsBy(events, group), |t.topic.queues|)
    decreases |events|
  {
    var n := |t.topic.queues|;
    if events == [] {
    } else {
      NextStep(t, events[0], group);
      PollsGoRound(Handle(t, events[0]), events[1..], group);
      if events[0] == Poll(group) {
        WrapsAround(t.Next(group), PollsBy(events[1..], group), n);
      }
    }
  }

  /** On a fresh topic the k-th poll of any group, counting from 0, looks at partition k mod n. */
  lemma PollsStartAtZero<M>(name: string, partitions: nat, events: seq<TrafficEvent<M>>, group: string)
    requires partitions > 0
    ensures |HandleAll(Open<M>(name, partitions), events).topic.queues| == partitions
    ensures HandleAll(Open<M>(name, partitions), events).Next(group) == PollsBy(events, group) % partitions
  {
    PollsGoRound(Open<M>(name, partitions), events, group);
    RemainderIsMod(PollsBy(events, group), partitions);
  }

  /** The polls in `j` full rounds over `n` partitions. */
  function Rounds(j: nat, n: nat): nat {
    if j == 0 then 0 else n + Rounds(j - 1, n)
  }

  /** They are j * n. */
  lemma {:induction false} RoundsIsProduct(j: nat, n: nat)
    ensures Rounds(j, n) == j * n
  {
    if j == 0 {
    } else {
      RoundsIsProduct(j - 1, n);
      assert j * n == (j - 1) * n + n;
    }
  }

  /** The event takes the head of partition `p`. */
  predicate Takes<M>(t: Traffic<M>, e: TrafficEvent<M>, p: nat)
    requires p < |t.topic.queues|
  {
    e.Poll? && t.Next(e.group) == p && t.topic.queues[p] != []
  }

  /** What one event does to a partition. */
  lemma PartitionStep<M>(t: Traffic<M>, e: TrafficEvent<M>, p: nat)
    requires t.Valid() && p < |t.topic.queues|
    ensures var r := Handle(t, e);
            && r.Valid() && |r.topic.queues| == |r.delivered| == |t.topic.queues| == |t.delivered|
            && |r.delivered[p]| == |t.delivered[p]| + (if Takes(t, e, p) then 1 else 0)
            && |r.topic.queues[p]| + (if Takes(t, e, p) then 1 else 0) >= |t.topic.queues[p]|
  {
    HandleValid(t, e);
  }

  /** What one event does to a group's distance from a partition. */
  lemma DistanceStep<M>(t: Traffic<M>, e: TrafficEvent<M>, group: string, p: nat)
    requires t.Valid() && p < |t.topic.queues|
    ensures var n := |t.topic.queues|;
            var d := Distance(t.Cursor(group), p, n);
            && Distance(Handle(t, e).Cursor(group), p, n)
               == (if e != Poll(group) then d else if d == 0 then n - 1 else d - 1)
            && (d == 0 <==> t.Next(group) == p)
  {
    CursorStep(t.Cursor(group), p, |t.topic.queues|);
  }

  lemma {:induction false} DeliveredGrows<M>(t: Traffic<M>, events: seq<TrafficEvent<M>>, p: nat)
    requires t.Valid() && p < |t.topic.queues|
    ensures |HandleAll(t, events).delivered| == |t.topic.queues|
    ensures |t.delivered[p]| <= |HandleAll(t, events).delivered[p]|
    decreases |events|
  {
    if events == [] {
    } else {
      HandleValid(t, events[0]);
      DeliveredGrows(Handle(t, events[0]), events[1..], p);
    }
  }

  /**
   With `j` messages ahead of it in partition `p`, a message is delivered
   once the group has polled more than j rounds plus the distance,
   whatever producers and other groups do in between.
   */
  lemma {:induction false} DeliveredAfter<M>(t: Traffic<M>, events: seq<TrafficEvent<M>>, group: string, p: nat, j: nat)
    requires t.Valid() && p < |t.topic.queues| && j < |t.topic.queues[p]|
    requires PollsBy(events, group) > Rounds(j, |t.topic.queues|) + Distance(t.Cursor(group), p, |t.topic.queues|)
    ensures |HandleAll(t, events).delivered| == |t.topic.queues|
    ensures |HandleAll(t, events).delivered[p]| > |t.delivered[p]| + j
    decreases |events|
  {
    var t' := Handle(t, events[0]);
    PartitionStep(t, events[0], p);
    DistanceStep(t, events[0], group, p);
    if Takes(t, events[0], p) && j == 0 {
      DeliveredGrows(t', events[1..], p);
    } else {
      DeliveredAfter(t', events[1..], group, p, if Takes(t, events[0], p) then j - 1 else j);
    }
  }

  /** While nobody else polls, fewer polls than that do not reach the message. */
  lemma {:induction false} NotDeliveredBefore<M>(
    t: Traffic<M>, events: seq<TrafficEvent<M>>, group: string, p: nat, j: nat)
    requires t.Valid() && p < |t.topic.queues|
    requires forall k :: 0 <= k < |events| && events[k].Poll? ==> events[k].group == group
    requires PollsBy(events, group) <= Rounds(j, |t.topic.queues|) + Distance(t.Cursor(group), p, |t.topic.queues|)
    ensures |HandleAll(t, events).delivered| == |t.topic.queues|
    ensures |HandleAll(t, events).delivered[p]| <= |t.delivered[p]| + j
    decreases |events|
  {
    if events == [] {
      SameShape(t, events);
      assert |t.delivered| == |t.topic.queues|;
    } else {
      PartitionStep(t, events[0], p);
      DistanceStep(t, events[0], group, p);
      NotDeliveredBefore(Handle(t, events[0]), events[1..], group, p,
                         if events[0].Poll? && t.Next(group) == p then j - 1 else j);
    }
  }

  /** The message that waited behind `j` others in partition `p` of `t` has come out by `r`. */
  ghost predicate CameOut<M>(t: Traffic<M>, r: Traffic<M>, p: nat, j: nat)
    requires p < |t.topic.queues| && p < |t.delivered| && p < |r.delivered| && j < |t.topic.queues[p]|
  {
    var k := |t.delivered[p]| + j;
    k < |r.delivered[p]| && r.delivered[p][k] == t.topic.queues[p][j]
  }

  lemma CameOutIff<M>(t: Traffic<M>, events: seq<TrafficEvent<M>>, p: nat, j: nat)
    requires t.Valid() && p < |t.topic.queues| && j < |t.topic.queues[p]|
    ensures var r := HandleAll(t, events);
            |r.delivered| == |t.topic.queues|
            && (CameOut(t, r, p, j) <==> |r.delivered[p]| > |t.delivered[p]| + j)
  {
    var r := HandleAll(t, events);
    SameShape(t, events);
    assert Ledger(r.name, r.topic, r.sent, r.delivered, p);
    assert Ledger(t.name, t.topic, t.sent, t.delivered, p);
    var k := |t.delivered[p]| + j;
    assert t.sent[p][k] == t.topic.queues[p][j];
    assert r.sent[p][k] == t.sent[p][k];
  }

  /**
   Bounded waiting: a message with `j` messages ahead of it in its partition
   has come out, as exactly the envelope that was waiting, after (j + 1) * n
   polls of n partitions by any one group, whatever else happens in between.
   */
  lemma {:induction false} BoundedWaiting<M>(
    t: Traffic<M>, events: seq<TrafficEvent<M>>, group: string, p: nat, j: nat)
    requires t.Valid() && p < |t.topic.queues| && j < |t.topic.queues[p]|
    requires PollsBy(events, group) >= (j + 1) * |t.topic.queues|
    ensures |HandleAll(t, events).delivered| == |t.topic.queues|
    ensures CameOut(t, HandleAll(t, events), p, j)
  {
    RoundsIsProduct(j + 1, |t.topic.queues|);
    CameOutIff(t, events, p, j);
    DeliveredAfter(t, events, group, p, j);
  }

  /** If the group polls alone, the message is out precisely from the poll after j rounds and the distance on. */
  lemma {:induction false} BoundedWaitingIsExact<M>(
    t: Traffic<M>, events: seq<TrafficEvent<M>>, group: string, p: nat, j: nat)
    requires t.Valid() && p < |t.topic.queues| && j < |t.topic.queues[p]|
    requires forall k :: 0 <= k < |events| && events[k].Poll? ==> events[k].group == group
    ensures |HandleAll(t, events).delivered| == |t.topic.queues|
    ensures CameOut(t, HandleAll(t, events), p, j) <==>
            PollsBy(events, group) > Rounds(j, |t.topic.queues|) + Distance(t.Cursor(group), p, |t.topic.queues|)
  {
    CameOutIff(t, events, p, j);
    if PollsBy(events, group) > Rounds(j, |t.topic.queues|) + Distance(t.Cursor(group), p, |t.topic.queues|) {
      DeliveredAfter(t, events, group, p, j);
    } else {
      NotDeliveredBefore(t, events, group, p, j);
    }
  }

  // ---- The queue object ----

  /** The value of the whole queue. */
  datatype Broker<M> = Broker(topics: map<string, Topic<M>>, defaultPartitions: nat) {
    ghost predicate Valid() {
      forall name :: name in topics ==> topics[name].Valid()
    }

    function CreateTopic(name: string, partitions: nat): Broker<M> {
      if name in topics then this else this.(topics := topics[name := NewTopic(partitions)])
    }

    /** The topic a produce or consume call works on, created on demand. */
    function Named(name: string): Topic<M> {
      if name in topics then topics[name] else NewTopic(defaultPartitions)
    }

    function Produce(name: string, value: M, partition: Option<int>): Broker<M>
      requires Valid() && |Named(name).queues| > 0
    {
      var t := Named(name);
      this.(topics := topics[name := t.Put(name, t.Target(partition), value)])
    }
  }

  /** Every topic's history is in balance. */
  ghost predicate AllBalanced<M>(
    topics: map<string, Topic<M>>, sent: map<string, seq<seq<Envelope<M>>>>,
    delivered: map<string, seq<seq<Envelope<M>>>>)
  {
    && sent.Keys == delivered.Keys == topics.Keys
    && (forall name :: name in topics ==>
          topics[name].Valid() && |topics[name].queues| == |sent[name]| == |delivered[name]|)
    && forall name {:trigger Balanced(name, topics[name], sent[name], delivered[name])} :: name in topics ==>
         Balanced(name, topics[name], sent[name], delivered[name])
  }

  lemma AllBalancedUpdate<M>(
    topics: map<string, Topic<M>>, sent: map<string, seq<seq<Envelope<M>>>>,
    delivered: map<string, seq<seq<Envelope<M>>>>,
    name: string, t: Topic<M>, s: seq<seq<Envelope<M>>>, d: seq<seq<Envelope<M>>>)
    requires AllBalanced(topics, sent, delivered) && Balanced(name, t, s, d)
    ensures AllBalanced(topics[name := t], sent[name := s], delivered[name := d])
  {
  }

  lemma AllBalancedSend<M>(
    topics: map<string, Topic<M>>, sent: map<string, seq<seq<Envelope<M>>>>,
    delivered: map<string, seq<seq<Envelope<M>>>>, name: string, p: nat, value: M)
    requires AllBalanced(topics, sent, delivered) && name in topics && p < |topics[name].queues|
    ensures var t := topics[name];
            AllBalanced(topics[name := t.Put(name, p, value)],
                        sent[name := sent[name][p := sent[name][p] + [Envelope(t.offsets[p], p, name, value)]]],
                        delivered)
  {
    assert Balanced(name, topics[name], sent[name], delivered[name]);
    LedgerSend(name, topics[name], p, value, sent[name], delivered[name]);
  }

  lemma AllBalancedTake<M>(
    topics: map<string, Topic<M>>, sent: map<string, seq<seq<Envelope<M>>>>,
    delivered: map<string, seq<seq<Envelope<M>>>>, name: string, p: nat)
    requires AllBalanced(topics, sent, delivered) && name in topics && p < |topics[name].queues|
    ensures AllBalanced(topics[name := topics[name].Take(p)], sent,
                        delivered[name := delivered[name][p := delivered[name][p] + Head(topics[name].queues[p])]])
  {
    assert Balanced(name, topics[name], sent[name], delivered[name]);
    LedgerTake(name, topics[name], p, sent[name], delivered[name]);
  }

  /** Where a produce call puts a message: the offset it reports. */
  function PlacedAt<M>(t: Topic<M>, partition: Option<int>): Option<nat>
    requires t.Valid()
  {
    if |t.queues| == 0 then None else Some(t.offsets[t.Target(partition)])
  }

  function AfterProduce<M>(t: Topic<M>, name: string, value: M, partition: Option<int>): Topic<M>
    requires t.Valid()
  {
    if |t.queues| == 0 then t else t.Put(name, t.Target(partition), value)
  }

  function SentAfter<M>(
    t: Topic<M>, sent: seq<seq<Envelope<M>>>, name: string, value: M, partition: Option<int>): seq<seq<Envelope<M>>>
    requires t.Valid() && |sent| == |t.queues|
  {
    if |t.queues| == 0 then sent
    else
      var p := t.Target(partition);
      sent[p := sent[p] + [Envelope(t.offsets[p], p, name, value)]]
  }

  function Tail<T>(q: seq<T>): seq<T> { if q == [] then [] else q[1..] }

  function Tails<T>(queues: seq<seq<T>>): (r: seq<seq<T>>)
    ensures |r| == |queues| && forall p :: 0 <= p < |queues| ==> r[p] == Tail(queues[p])
  {
    seq(|queues|, p requires 0 <= p < |queues| => Tail(queues[p]))
  }

  function Wrap(k: nat, n: nat): nat { if k < n then k else k - n }

  function HeadValue<M>(q: seq<Envelope<M>>): Option<M> { if q == [] then None else Some(q[0].value) }

  /** What `i` polls of a round that begins at `start` hand out. */
  function HeadsFrom<M>(queues: seq<seq<Envelope<M>>>, start: nat, i: nat): seq<M>
    requires start < |queues| && i <= |queues|
  {
    if i == 0 then []
    else
      var head := HeadValue(queues[Wrap(start + i - 1, |queues|)]);
      HeadsFrom(queues, start, i - 1) + if head.Some? then [head.value] else []
  }

  /** The partitions after `i` polls of a round that begins at `start`. */
  function AfterPolls<T>(queues: seq<seq<T>>, start: nat, i: nat): (r: seq<seq<T>>)
    requires start < |queues| && i <= |queues|
    ensures |r| == |queues|
  {
    if i == 0 then queues
    else
      var before := AfterPolls(queues, start, i - 1);
      var p := Wrap(start + i - 1, |queues|);
      before[p := Tail(before[p])]
  }

  ghost predicate Visited(start: nat, p: nat, n: nat, i: nat) {
    (if start <= p then p - start else p - start + n) < i
  }

  /** After `i` polls of a round that began at `start`: the partitions visited have lost their heads. */
  ghost predicate Polled<T>(before: seq<seq<T>>, now: seq<seq<T>>, start: nat, i: nat) {
    && |before| == |now|
    && forall p :: 0 <= p < |before| ==>
         now[p] == if Visited(start, p, |before|, i) then Tail(before[p]) else before[p]
  }

  lemma VisitedOneMore(start: nat, i: nat, n: nat)
    requires start < n && i < n
    ensures forall q :: 0 <= q < n ==>
              (Visited(start, q, n, i + 1) <==> Visited(start, q, n, i) || q == Wrap(start + i, n))
  {
    forall q | 0 <= q < n
      ensures Visited(start, q, n, i + 1) <==> Visited(start, q, n, i) || q == Wrap(start + i, n)
    {
      assert (if start <= q then q - start else q - start + n) == i <==> q == Wrap(start + i, n);
    }
  }

  lemma PolledOneMore<T>(before: seq<seq<T>>, now: seq<seq<T>>, next: seq<seq<T>>, start: nat, i: nat, p: nat)
    requires Polled(before, now, start, i) && start < |before| && i < |before|
    requires p == if start + i < |before| then start + i else start + i - |before|
    requires next == now[p := Tail(now[p])]
    ensures Polled(before, next, start, i + 1)
    ensures now[p] == before[p]
  {
    VisitedOneMore(start, i, |before|);
  }

  lemma {:induction false} AfterPollsIsPolled<T>(queues: seq<seq<T>>, start: nat, i: nat)
    requires start < |queues| && i <= |queues|
    ensures Polled(queues, AfterPolls(queues, start, i), start, i)
  {
    if i == 0 {
    } else {
      AfterPollsIsPolled(queues, start, i - 1);
      var before := AfterPolls(queues, start, i - 1);
      PolledOneMore(queues, before, AfterPolls(queues, start, i), start, i - 1, Wrap(start + i - 1, |queues|));
    }
  }

  /** A round does not look at a partition twice. */
  lemma NextIsUntouched<T>(queues: seq<seq<T>>, start: nat, i: nat)
    requires start < |queues| && i < |queues|
    ensures AfterPolls(queues, start, i)[Wrap(start + i, |queues|)] == queues[Wrap(start + i, |queues|)]
  {
    AfterPollsIsPolled(queues, start, i);
  }

  /** A whole round visits every partition. */
  lemma FullRound<T>(queues: seq<seq<T>>, start: nat)
    requires start < |queues|
    ensures AfterPolls(queues, start, |queues|) == Tails(queues)
  {
    AfterPollsIsPolled(queues, start, |queues|);
    assert forall p :: 0 <= p < |queues| ==> Visited(start, p, |queues|, |queues|);
  }

  ghost predicate AllEmptyBefore<T>(queues: seq<seq<T>>, start: nat, i: nat) {
    forall p :: 0 <= p < |queues| && Visited(start, p, |queues|, i) ==> queues[p] == []
  }

  lemma {:induction false} NoHeadsIffEmpty<M>(queues: seq<seq<Envelope<M>>>, start: nat, i: nat)
    requires start < |queues| && i <= |queues|
    ensures HeadsFrom(queues, start, i) == [] <==> AllEmptyBefore(queues, start, i)
  {
    if i == 0 {
    } else {
      NoHeadsIffEmpty(queues, start, i - 1);
      VisitedOneMore(start, i - 1, |queues|);
      var p := Wrap(start + i - 1, |queues|);
      assert AllEmptyBefore(queues, start, i) <==> AllEmptyBefore(queues, start, i - 1) && queues[p] == [];
    }
  }

  lemma EmptyIffDepthZero<M>(t: Topic<M>)
    ensures Depth(t) == 0 <==> forall p :: 0 <= p < |t.queues| ==> t.queues[p] == []
  {
    if forall p :: 0 <= p < |t.queues| ==> t.queues[p] == [] {
      SumZero(t.queues, Length);
    } else {
      var p :| 0 <= p < |t.queues| && t.queues[p] != [];
      SumUpdate(t.queues, p, t.queues[p], Length);
    }
  }

  lemma NoHeadsIffDepthZero<M>(t: Topic<M>, start: nat)
    requires start < |t.queues|
    ensures HeadsFrom(t.queues, start, |t.queues|) == [] <==> Depth(t) == 0
  {
    NoHeadsIffEmpty(t.queues, start, |t.queues|);
    EmptyIffDepthZero(t);
  }

  class InMemoryQueue<M> {
    const defaultPartitions: nat
    var topics: map<string, Topic<M>>
    var cursors: map<(string, string), nat>
    // everything ever sent to and delivered from each partition of each topic
    ghost var sent: map<string, seq<seq<Envelope<M>>>>
    ghost var delivered: map<string, seq<seq<Envelope<M>>>>

    ghost function View(): Broker<M>
      reads this
    {
      Broker(topics, defaultPartitions)
    }

    ghost predicate Valid()
      reads this
    {
      AllBalanced(topics, sent, delivered)
    }

    function Cursor(group: string, topic: string): nat
      reads this
    {
      if (group, topic) in cursors then cursors[(group, topic)] else 0
    }

    constructor (defaultPartitions: nat)
      ensures Valid() && View() == Broker(map[], defaultPartitions) && cursors == map[]
    {
      this.defaultPartitions := defaultPartitions;
      topics, cursors, sent, delivered := map[], map[], map[], map[];
    }

    method CreateTopic(topic: string, numPartitions: nat)
      requires Valid()
      modifies this
      ensures Valid() && View() == old(View()).CreateTopic(topic, numPartitions)
      ensures cursors == old(cursors)
      ensures topic in old(topics) ==> sent == old(sent) && delivered == old(delivered)
      ensures topic !in old(topics) ==>
                && sent == old(sent)[topic := Empties(numPartitions)]
                && delivered == old(delivered)[topic := Empties(numPartitions)]
    {
      if topic !in topics {
        NewIsBalanced<M>(topic, numPartitions);
        AllBalancedUpdate(topics, sent, delivered, topic,
                          NewTopic(numPartitions), Empties(numPartitions), Empties(numPartitions));
        topics := topics[topic := NewTopic(numPartitions)];
        sent := sent[topic := Empties(numPartitions)];
        delivered := delivered[topic := Empties(numPartitions)];
      }
    }

    /** What a history holds for a topic; a topic not created yet has empty partitions. */
    ghost function Past(history: map<string, seq<seq<Envelope<M>>>>, topic: string): seq<seq<Envelope<M>>>
    {
      if topic in history then history[topic] else Empties(defaultPartitions)
    }

    /**
     Appends the message to a partition and reports its offset. A topic without
     partitions has nowhere to put it: the division by zero is reported as None.
     */
    method Produce(topic: string, value: M, partition: Option<int>) returns (offset: Option<nat>)
      requires Valid()
      modifies this
      ensures Valid() && cursors == old(cursors)
      ensures OnlyChanges(topic, old(topics), topics) && OnlyChanges(topic, old(sent), sent)
      ensures OnlyChanges(topic, old(delivered), delivered) && delivered[topic] == Past(old(delivered), topic)
      ensures offset == PlacedAt(old(View()).Named(topic), partition)
      ensures topics[topic] == AfterProduce(old(View()).Named(topic), topic, value, partition)
      ensures sent[topic] == SentAfter(old(View()).Named(topic), Past(old(sent), topic), topic, value, partition)
      ensures topic in old(topics) && |old(topics)[topic].queues| > 0 ==>
                && topic in old(sent) && topic in old(delivered) && old(TrafficOf(topic)).Valid()
                && TrafficOf(topic) == Handle(old(TrafficOf(topic)), Send(value, partition))
    {
      EnsureTopic(topic);
      if |topics[topic].queues| == 0 {
        return None;
      }
      var n := |topics[topic].queues|;
      var p := (if partition.Some? then partition.value else topics[topic].produced) % n;
      RemainderIsMod(if partition.Some? then partition.value else topics[topic].produced, n);
      var r := Append(topic, p, value);
      offset := Some(r);
    }

    method EnsureTopic(topic: string)
      requires Valid()
      modifies this
      ensures Valid() && cursors == old(cursors)
      ensures OnlyChanges(topic, old(topics), topics) && topics[topic] == old(View()).Named(topic)
      ensures OnlyChanges(topic, old(sent), sent) && sent[topic] == Past(old(sent), topic)
      ensures OnlyChanges(topic, old(delivered), delivered) && delivered[topic] == Past(old(delivered), topic)
    {
      if topic !in topics {
        CreateTopic(topic, defaultPartitions);
      }
    }

    method Append(topic: string, p: nat, value: M) returns (offset: nat)
      requires Valid() && topic in topics && p < |topics[topic].queues|
      modifies this
      ensures Valid() && cursors == old(cursors) && delivered == old(delivered)
      ensures offset == old(topics[topic].offsets[p])
      ensures OnlyChanges(topic, old(topics), topics) && OnlyChanges(topic, old(sent), sent)
      ensures topics[topic] == old(topics[topic]).Put(topic, p, value)
      ensures sent[topic] == old(sent)[topic][p := old(sent)[topic][p] + [Envelope(offset, p, topic, value)]]
    {
      AllBalancedSend(topics, sent, delivered, topic, p, value);
      var t := topics[topic];
      offset := t.offsets[p];
      var envelope := Envelope(offset, p, topic, value);
      topics := topics[topic := Topic(t.queues[p := t.queues[p] + [envelope]],
                                      t.offsets[p := offset + 1],
                                      t.produced + 1)];
      sent := sent[topic := sent[topic][p := sent[topic][p] + [envelope]]];
    }

    /** Removes the head of a partition, if it has one. */
    method TakeHead(topic: string, p: nat) returns (value: Option<M>)
      requires Valid() && topic in topics && p < |topics[topic].queues|
      modifies this`topics, this`delivered
      ensures Valid() && topics == old(topics)[topic := old(topics)[topic].Take(p)]
      ensures delivered == old(delivered)[topic :=
                old(delivered)[topic][p := old(delivered)[topic][p] + Head(old(topics)[topic].queues[p])]]
      ensures value == HeadValue(old(topics)[topic].queues[p])
    {
      AllBalancedTake(topics, sent, delivered, topic, p);
      var t := topics[topic];
      delivered := delivered[topic := delivered[topic][p := delivered[topic][p] + Head(t.queues[p])]];
      if t.queues[p] == [] {
        value := None;
        assert topics[topic := t] == topics;
      } else {
        value := Some(t.queues[p][0].value);
        topics := topics[topic := t.(queues := t.queues[p := t.queues[p][1..]])];
      }
    }

    /**
     One pass of the consumer's inner loop: look at the group's next partition,
     advance the cursor, and hand out the head if there is one.
     */
    method Poll(topic: string, group: string) returns (value: Option<M>)
      requires Valid() && topic in topics && |topics[topic].queues| > 0
      modifies this`topics, this`cursors, this`delivered
      ensures Valid()
      ensures var t := old(topics[topic]);
              var p := Remainder(old(Cursor(group, topic)), |t.queues|);
              && topics == old(topics)[topic := t.Take(p)]
              && cursors == old(cursors)[(group, topic) := p + 1]
              && value == HeadValue(t.queues[p])
              && delivered == old(delivered)[topic :=
                   old(delivered)[topic][p := old(delivered)[topic][p] + Head(t.queues[p])]]
      ensures old(TrafficOf(topic)).Valid()
      ensures TrafficOf(topic) == Handle(old(TrafficOf(topic)), TrafficEvent.Poll(group))
    {
      var n := |topics[topic].queues|;
      var p := Cursor(group, topic) % n;
      RemainderIsMod(Cursor(group, topic), n);
      cursors := cursors[(group, topic) := p + 1];
      value := TakeHead(topic, p);
    }

    /** A topic with its history and the cursors on it. */
    ghost function TrafficOf(topic: string): Traffic<M>
      requires topic in topics && topic in sent && topic in delivered
      reads this
    {
      Traffic(topic, topics[topic], cursors, sent[topic], delivered[topic])
    }

    /** The partition the group looks at next. */
    function NextPartition(group: string, topic: string, n: nat): (p: nat)
      requires n > 0
      reads this
      ensures p < n
    {
      Remainder(Cursor(group, topic), n)
    }

    /** `Poll`, with the cursor's cyclic move spelled out. */
    method PollNext(topic: string, group: string, ghost n: nat) returns (value: Option<M>)
      requires Valid() && topic in topics && |topics[topic].queues| == n > 0
      modifies this`topics, this`cursors, this`delivered
      ensures Valid()
      ensures topic in topics && topics == old(topics)[topic := topics[topic]]
      ensures var p := old(NextPartition(group, topic, n));
              && topics[topic].queues == old(topics[topic]).queues[p := Tail(old(topics[topic]).queues[p])]
              && NextPartition(group, topic, n) == Wrap(p + 1, n)
              && value == HeadValue(old(topics[topic]).queues[p])
    {
      ghost var t, p := topics[topic], NextPartition(group, topic, n);
      CursorStep(Cursor(group, topic), 0, n);
      value := Poll(topic, group);
      assert topics[topic] == t.Take(p) && Cursor(group, topic) == p + 1;
    }

    /** After `i` polls of a round that found the queue's topics as `before` and the cursor at `start`. */
    ghost predicate InRound(
      before: map<string, Topic<M>>, topic: string, group: string, start: nat, i: nat, values: seq<M>)
      reads this
    {
      && Valid() && topic in before && topic in topics && topics == before[topic := topics[topic]]
      && start < |before[topic].queues| && i <= |before[topic].queues|
      && topics[topic].queues == AfterPolls(before[topic].queues, start, i)
      && NextPartition(group, topic, |before[topic].queues|) == Wrap(start + i, |before[topic].queues|)
      && values == HeadsFrom(before[topic].queues, start, i)
    }

    /** The next poll of a round. */
    method RoundStep(
      ghost before: map<string, Topic<M>>, topic: string, group: string, ghost start: nat, ghost i: nat, values: seq<M>)
      returns (more: seq<M>)
      requires InRound(before, topic, group, start, i, values) && i < |before[topic].queues|
      modifies this`topics, this`cursors, this`delivered
      ensures InRound(before, topic, group, start, i + 1, more)
    {
      NextIsUntouched(before[topic].queues, start, i);
      var value := PollNext(topic, group, |before[topic].queues|);
      more := if value.Some? then values + [value.value] else values;
      assert topics[topic].queues == AfterPolls(before[topic].queues, start, i + 1);
      assert more == HeadsFrom(before[topic].queues, start, i + 1);
    }

    /** One round over the partitions of a topic that has some. */
    method Round(topic: string, group: string) returns (values: seq<M>)
      requires Valid() && topic in topics && |topics[topic].queues| > 0
      modifies this`topics, this`cursors, this`delivered
      ensures InRound(old(topics), topic, group, old(NextPartition(group, topic, |topics[topic].queues|)),
                      |old(topics)[topic].queues|, values)
    {
      values := [];
      ghost var before := topics;
      var n := |topics[topic].queues|;
      ghost var start := NextPartition(group, topic, n);
      for i := 0 to n
        invariant InRound(before, topic, group, start, i, values)
      {
        values := RoundStep(before, topic, group, start, i, values);
      }
    }

    /**
     One full round of a consumer with no other coroutine in between: the topic
     is created if need be, the head of every non-empty partition comes out, and
     nothing comes out exactly when the topic is empty, the one case in which
     the consumer sleeps.
     */
    method PollRound(topic: string, group: string) returns (values: seq<M>)
      requires Valid()
      modifies this
      ensures Valid() && OnlyChanges(topic, old(topics), topics)
      ensures OnlyChanges(topic, old(sent), sent) && sent[topic] == Past(old(sent), topic)
      ensures topics[topic].queues == Tails(old(View()).Named(topic).queues)
      ensures var n := |topics[topic].queues|;
              if n == 0 then values == [] && cursors == old(cursors)
              else
                && NextPartition(group, topic, n) == old(NextPartition(group, topic, n))
                && values == HeadsFrom(old(View()).Named(topic).queues, old(NextPartition(group, topic, n)), n)
      ensures values == [] <==> Depth(old(View()).Named(topic)) == 0
    {
      EnsureTopic(topic);
      ghost var t := topics[topic];
      if |topics[topic].queues| == 0 {
        EmptyIffDepthZero(t);
        return [];
      }
      ghost var start := NextPartition(group, topic, |t.queues|);
      NoHeadsIffDepthZero(t, start);
      FullRound(t.queues, start);
      values := Round(topic, group);
    }

    method GetQueueDepth(topic: string) returns (depth: nat)
      requires Valid()
      ensures topic !in topics ==> depth == 0
      ensures topic in topics ==> depth == Depth(topics[topic])
      ensures topic in topics ==> depth + Sum(delivered[topic], Length) == topics[topic].produced
    {
      depth := 0;
      if topic in topics {
        assert Balanced(topic, topics[topic], sent[topic], delivered[topic]);
        DepthIsOutstanding(topic, topics[topic], sent[topic], delivered[topic]);
        var queues := topics[topic].queues;
        for p := 0 to |queues|
          invariant depth == Sum(queues[..p], Length)
        {
          assert queues[..p + 1] == queues[..p] + [queues[p]];
          SumAppend(queues[..p], [queues[p]], Length);
          depth := depth + |queues[p]|;
        }
        assert queues[..|queues|] == queues;
      }
    }
  }
}
