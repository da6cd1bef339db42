/** The double-buffered broadcast queue of Cell, its request list, and what they deliver. */
module CellQueues {
  import opened Requests

  type EntityId = nat
  type Packet = nat

  datatype Entity = Entity(id: EntityId, isClient: bool)

  datatype Request = Request(who: EntityId, kind: RequestType)

  /** A packet written to a client. */
  datatype Delivery = Delivery(to: EntityId, packet: Packet)

  /** The spawn or despawn packet of `about`, written to the client that asked. */
  datatype Reply = Reply(to: EntityId, about: EntityId, kind: RequestType)

  function Flatten<T>(ss: seq<seq<T>>): seq<T> {
    if ss == [] then [] else ss[0] + Flatten(ss[1..])
  }

  lemma {:induction false} FlattenAppend<T>(ss: seq<seq<T>>, s: seq<T>)
    ensures Flatten(ss + [s]) == Flatten(ss) + s
    decreases |ss|
  {
    if ss == [] {
      assert ss + [s] == [s] && [s][1..] == [];
      assert Flatten([s]) == s;
    } else {
      assert (ss + [s])[1..] == ss[1..] + [s];
      FlattenAppend(ss[1..], s);
    }
  }

  // ---------- The buffer as a state machine ----------

  /** The queue broadcast writes to, the one the last update drained, and whether its cleanup is still due. */
  datatype Queues = Queues(active: seq<Packet>, drained: seq<Packet>, busy: bool)

  const EMPTY := Queues([], [], false)

  datatype Event = Broadcast(packet: Packet) | Update | Cleanup

  /** Clause (a) of the run hypothesis, for one cell. */
  predicate Legal(q: Queues, ev: Event) {
    (ev.Update? ==> !q.busy) && (ev.Cleanup? ==> q.busy)
  }

  function Step(q: Queues, ev: Event): Queues {
    match ev
    case Broadcast(p) => q.(active := q.active + [p])
    case Update => Queues(q.drained, q.active, true)
    case Cleanup => q.(drained := [], busy := false)
  }

  predicate LegalRun(q: Queues, evs: seq<Event>)
    decreases |evs|
  {
    evs == [] || (Legal(q, evs[0]) && LegalRun(Step(q, evs[0]), evs[1..]))
  }

  function Run(q: Queues, evs: seq<Event>): Queues
    decreases |evs|
  {
    if evs == [] then q else Run(Step(q, evs[0]), evs[1..])
  }

  /** What broadcast accepted, in order. */
  function Accepted(evs: seq<Event>): seq<Packet> {
    if evs == [] then [] else (if evs[0].Broadcast? then [evs[0].packet] else []) + Accepted(evs[1..])
  }

  /** What each update of the run sends. */
  function Batches(q: Queues, evs: seq<Event>): seq<seq<Packet>>
    decreases |evs|
  {
    if evs == [] then []
    else (if evs[0].Update? then [q.active] else []) + Batches(Step(q, evs[0]), evs[1..])
  }

  /** Every accepted packet is in exactly one batch, in the order of acceptance, or still waits in the active
      queue; whatever the points of the tick at which the packets arrive. */
  lemma {:induction false} BatchesConserve(q: Queues, evs: seq<Event>)
    requires LegalRun(q, evs) && (!q.busy ==> q.drained == [])
    ensures q.active + Accepted(evs) == Flatten(Batches(q, evs)) + Run(q, evs).active
    decreases |evs|
  {
    if evs != [] {
      var rest, q1 := evs[1..], Step(q, evs[0]);
      BatchesConserve(q1, rest);
      match evs[0]
      case Broadcast(p) =>
        assert q.active + ([p] + Accepted(rest)) == q1.active + Accepted(rest);
        assert Batches(q, evs) == Batches(q1, rest);
      case Update =>
        assert Batches(q, evs) == [q.active] + Batches(q1, rest) && Batches(q, evs)[1..] == Batches(q1, rest);
        assert Accepted(evs) == Accepted(rest) == q1.active + Accepted(rest);
      case Cleanup =>
        assert Accepted(evs) == Accepted(rest) && Batches(q, evs) == Batches(q1, rest);
    }
  }

  /** What a cleanup clears was in the batch of the update before it: no cleanup drops an unsent packet. */
  lemma {:induction false} CleanupClearsOnlySent(q: Queues, evs: seq<Event>)
    requires LegalRun(q, evs) && !q.busy && q.drained == []
    ensures var t := Run(q, evs);
            if t.busy then Batches(q, evs) != [] && t.drained == Batches(q, evs)[|Batches(q, evs)| - 1]
            else t.drained == []
    decreases |evs|
  {
    if evs != [] {
      var front, last := evs[..|evs| - 1], evs[|evs| - 1];
      assert evs == front + [last];
      RunSplits(q, front, [last]);
      CleanupClearsOnlySent(q, front);
      OneStep(Run(q, front), last);
    }
  }

  lemma OneStep(q: Queues, ev: Event)
    ensures Run(q, [ev]) == Step(q, ev) && Batches(q, [ev]) == if ev.Update? then [q.active] else []
    ensures LegalRun(q, [ev]) ==> Legal(q, ev)
  {
    assert [ev][1..] == [];
  }

  lemma {:induction false} RunSplits(q: Queues, a: seq<Event>, b: seq<Event>)
    ensures Run(q, a + b) == Run(Run(q, a), b)
    ensures LegalRun(q, a + b) <==> LegalRun(q, a) && LegalRun(Run(q, a), b)
    ensures Batches(q, a + b) == Batches(q, a) + Batches(Run(q, a), b)
    decreases |a|
  {
    if a == [] {
      assert a + b == b;
    } else {
      assert (a + b)[1..] == a[1..] + b;
      RunSplits(Step(q, a[0]), a[1..], b);
    }
  }

  // ---------- Who gets what ----------

  /** One client is written the whole batch. */
  function SentTo(e: Entity, batch: seq<Packet>): seq<Delivery> {
    if e.isClient then seq(|batch|, i requires 0 <= i < |batch| => Delivery(e.id, batch[i])) else []
  }

  function SentBy(entities: seq<Entity>, batch: seq<Packet>): seq<Delivery> {
    if entities == [] then []
    else SentBy(entities[..|entities| - 1], batch) + SentTo(entities[|entities| - 1], batch)
  }

  /** The packets that `id` finds in its stream. */
  function Received(sent: seq<Delivery>, id: EntityId): seq<Packet> {
    if sent == [] then []
    else
      var last := sent[|sent| - 1];
      Received(sent[..|sent| - 1], id) + (if last.to == id then [last.packet] else [])
  }

  lemma {:induction false} ReceivedSplits(a: seq<Delivery>, b: seq<Delivery>, id: EntityId)
    ensures Received(a + b, id) == Received(a, id) + Received(b, id)
    decreases |b|
  {
    if b == [] {
      assert a + b == a;
    } else {
      assert (a + b)[..|a + b| - 1] == a + b[..|b| - 1];
      ReceivedSplits(a, b[..|b| - 1], id);
    }
  }

  lemma {:induction false} ReceivedFromOne(e: Entity, batch: seq<Packet>, id: EntityId)
    ensures Received(SentTo(e, batch), id) == if e.isClient && e.id == id then batch else []
    decreases |batch|
  {
    if batch != [] && e.isClient {
      var n := |batch| - 1;
      ReceivedFromOne(e, batch[..n], id);
      assert SentTo(e, batch)[..n] == SentTo(e, batch[..n]);
      assert batch == batch[..n] + [batch[n]];
    }
  }

  /** Each client in the cell receives the batch once, in order; nobody else receives anything. */
  lemma {:induction false} EachClientReceivesTheBatch(entities: seq<Entity>, batch: seq<Packet>, id: EntityId)
    requires forall i, j :: 0 <= i < j < |entities| ==> entities[i].id != entities[j].id
    ensures Received(SentBy(entities, batch), id) == if Entity(id, true) in entities then batch else []
    decreases |entities|
  {
    if entities != [] {
      var n := |entities| - 1;
      var front, e := entities[..n], entities[n];
      EachClientReceivesTheBatch(front, batch, id);
      ReceivedSplits(SentBy(front, batch), SentTo(e, batch), id);
      ReceivedFromOne(e, batch, id);
      assert entities == front + [e];
      assert Entity(id, true) in entities <==> Entity(id, true) in front || Entity(id, true) == e;
      if Entity(id, true) == e {
        assert Entity(id, true) !in front;
      }
    }
  }

  /** An entity answers every request but its own. */
  function Replies(e: Entity, requests: seq<Request>): seq<Reply> {
    if requests == [] then []
    else
      var n := |requests| - 1;
      Replies(e, requests[..n])
      + (if requests[n].who != e.id then [Reply(requests[n].who, e.id, requests[n].kind)] else [])
  }

  function RepliesFrom(entities: seq<Entity>, requests: seq<Request>): seq<Reply> {
    if entities == [] then []
    else RepliesFrom(entities[..|entities| - 1], requests) + Replies(entities[|entities| - 1], requests)
  }

  lemma {:induction false} RepliesOfOne(e: Entity, requests: seq<Request>, r: Reply)
    ensures multiset(Replies(e, requests))[r]
         == if r.about == e.id && r.to != e.id then multiset(requests)[Request(r.to, r.kind)] else 0
    decreases |requests|
  {
    if requests != [] {
      var n := |requests| - 1;
      RepliesOfOne(e, requests[..n], r);
      assert requests == requests[..n] + [requests[n]];
    }
  }

  predicate Present(entities: seq<Entity>, id: EntityId) {
    exists i :: 0 <= i < |entities| && entities[i].id == id
  }

  lemma PresentAppend(front: seq<Entity>, e: Entity, id: EntityId)
    ensures Present(front + [e], id) <==> Present(front, id) || e.id == id
  {
    var all := front + [e];
    assert all[|front|] == e;
    if i :| 0 <= i < |front| && front[i].id == id {
      assert all[i].id == id;
    }
  }

  /** A client is answered about exactly the other entities of the cells it asked, and about each as often as it
      asked. */
  lemma {:induction false} RepliesAnswerRequests(entities: seq<Entity>, requests: seq<Request>, r: Reply)
    requires forall i, j :: 0 <= i < j < |entities| ==> entities[i].id != entities[j].id
    ensures multiset(RepliesFrom(entities, requests))[r]
         == if r.about != r.to && Present(entities, r.about) then multiset(requests)[Request(r.to, r.kind)] else 0
    decreases |entities|
  {
    if entities != [] {
      var n := |entities| - 1;
      RepliesAnswerRequests(entities[..n], requests, r);
      RepliesOfOne(entities[n], requests, r);
      assert entities == entities[..n] + [entities[n]];
      PresentAppend(entities[..n], entities[n], r.about);
    }
  }

  lemma NextEntity(entities: seq<Entity>, batch: seq<Packet>, requests: seq<Request>, during: seq<seq<Packet>>, i: int,
                   base: seq<Packet>)
    requires 0 <= i < |entities| == |during|
    ensures SentBy(entities[..i + 1], batch) == SentBy(entities[..i], batch) + SentTo(entities[i], batch)
    ensures RepliesFrom(entities[..i + 1], requests)
         == RepliesFrom(entities[..i], requests) + Replies(entities[i], requests)
    ensures base + Flatten(during[..i + 1]) == base + Flatten(during[..i]) + during[i]
  {
    assert entities[..i + 1][..i] == entities[..i];
    assert during[..i + 1] == during[..i] + [during[i]];
    FlattenAppend(during[..i], during[i]);
  }

  // ---------- The cell ----------

  class Cell {
    var broadcastQueue1: seq<Packet>
    var broadcastQueue2: seq<Packet>
    var firstIsActive: bool
    var requests: seq<Request>
    var clientsCount: int
    ghost var busy: bool

    ghost function Snapshot(): Queues
      reads this
    {
      if firstIsActive then Queues(broadcastQueue1, broadcastQueue2, busy)
      else Queues(broadcastQueue2, broadcastQueue1, busy)
    }

    constructor ()
      ensures Snapshot() == EMPTY && requests == [] && clientsCount == 0
    {
      broadcastQueue1, broadcastQueue2, firstIsActive, requests, clientsCount := [], [], true, [], 0;
      busy := false;
    }

    /** Cell::broadcast accepts a packet iff there is a client to send it to. */
    method BroadcastPacket(packet: Packet)
      modifies this`broadcastQueue1, this`broadcastQueue2
      ensures Snapshot() == if clientsCount > 0 then Step(old(Snapshot()), Broadcast(packet)) else old(Snapshot())
      ensures Snapshot().active == old(Snapshot().active) + (if clientsCount > 0 then [packet] else [])
    {
      if clientsCount > 0 {
        if firstIsActive {
          broadcastQueue1 := broadcastQueue1 + [packet];
        } else {
          broadcastQueue2 := broadcastQueue2 + [packet];
        }
      }
    }

    /** The packets that reach this cell while one of its entities updates. */
    method BroadcastAll(packets: seq<Packet>)
      modifies this`broadcastQueue1, this`broadcastQueue2
      ensures Snapshot()
           == old(Snapshot()).(active := old(Snapshot()).active + (if clientsCount > 0 then packets else []))
    {
      var i := 0;
      while i < |packets|
        invariant 0 <= i <= |packets|
        invariant Snapshot() ==
                  old(Snapshot()).(active := old(Snapshot()).active + (if clientsCount > 0 then packets[..i] else []))
      {
        BroadcastPacket(packets[i]);
        i := i + 1;
      }
    }

    /** Cell::update. `entities` is the cell's table in the order of iteration; `during[i]` are the packets
        broadcast to this cell while entity i updates. */
    method UpdateCell(entities: seq<Entity>, during: seq<seq<Packet>>)
      returns (sent: seq<Delivery>, replies: seq<Reply>)
      requires |during| == |entities| && Legal(Snapshot(), Update)
      modifies this
      ensures sent == SentBy(entities, old(Snapshot()).active)
      ensures replies == RepliesFrom(entities, requests)
      ensures var q := Step(old(Snapshot()), Update);
              Snapshot() == q.(active := q.active + (if clientsCount > 0 then Flatten(during) else []))
      ensures unchanged(`requests) && unchanged(`clientsCount)
    {
      var currentQueue := if firstIsActive then broadcastQueue1 else broadcastQueue2;
      firstIsActive := !firstIsActive;
      busy := true;
      ghost var q := Snapshot();
      sent, replies := [], [];
      var i := 0;
      assert entities[..0] == [] && during[..0] == [];
      while i < |entities|
        invariant 0 <= i <= |entities|
        invariant sent == SentBy(entities[..i], currentQueue)
        invariant replies == RepliesFrom(entities[..i], requests)
        invariant Snapshot() == q.(active := q.active + (if clientsCount > 0 then Flatten(during[..i]) else []))
        invariant unchanged(`requests) && unchanged(`clientsCount)
      {
        sent, replies := Serve(entities[i], during[i], currentQueue, sent, replies);
        NextEntity(entities, currentQueue, requests, during, i, q.active);
        i := i + 1;
      }
      assert entities[..i] == entities && during[..i] == during;
    }

    /** The body of that loop: the entity updates, then the packets, then the requests. */
    method Serve(e: Entity, packets: seq<Packet>, queue: seq<Packet>, before: seq<Delivery>, answered: seq<Reply>)
      returns (sent: seq<Delivery>, replies: seq<Reply>)
      modifies this`broadcastQueue1, this`broadcastQueue2
      ensures Snapshot()
           == old(Snapshot()).(active := old(Snapshot()).active + (if clientsCount > 0 then packets else []))
      ensures sent == before + SentTo(e, queue) && replies == answered + Replies(e, requests)
    {
      BroadcastAll(packets);
      sent := before;
      if e.isClient {
        sent := SendAll(e.id, queue, sent);
      }
      replies := ProcessRequests(e, answered);
    }

    /** client->send of every packet of the queue */
    method SendAll(id: EntityId, queue: seq<Packet>, before: seq<Delivery>) returns (sent: seq<Delivery>)
      ensures sent == before + SentTo(Entity(id, true), queue)
    {
      sent := before;
      ghost var all := SentTo(Entity(id, true), queue);
      var i := 0;
      while i < |queue|
        invariant 0 <= i <= |queue| && sent == before + all[..i]
      {
        sent := sent + [Delivery(id, queue[i])];
        i := i + 1;
      }
      assert all[..i] == all;
    }

    /** Cell::processRequests */
    method ProcessRequests(e: Entity, before: seq<Reply>) returns (replies: seq<Reply>)
      ensures replies == before + Replies(e, requests)
    {
      replies := before;
      var i := 0;
      while i < |requests|
        invariant 0 <= i <= |requests| && replies == before + Replies(e, requests[..i])
      {
        assert requests[..i + 1][..i] == requests[..i];
        if requests[i].who != e.id {
          replies := replies + [Reply(requests[i].who, e.id, requests[i].kind)];
        }
        i := i + 1;
      }
      assert requests[..i] == requests;
    }

    /** Cell::request */
    method AddRequest(who: EntityId, kind: RequestType)
      modifies this`requests
      ensures requests == old(requests) + [Request(who, kind)]
    {
      requests := requests + [Request(who, kind)];
    }

    /** Cell::cleanup: clearQueues */
    method CleanupCell()
      requires Legal(Snapshot(), Cleanup)
      modifies this
      ensures Snapshot() == Step(old(Snapshot()), Cleanup) && requests == [] && unchanged(`clientsCount)
    {
      if firstIsActive {
        broadcastQueue2 := [];
      } else {
        broadcastQueue1 := [];
      }
      requests := [];
      busy := false;
    }
  }
}
