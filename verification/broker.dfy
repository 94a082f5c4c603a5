/**
  The server's client manager and its broadcast queue, run as a sequential
  event processor: one register, unregister or broadcast at a time, exactly
  as the manager's single select loop takes them. Write failures are an input
  (the set of connections whose write errors), so broadcasting is a pure step.
 */
module Broker {

  import opened Options
  import opened Bytes
  import opened Validation

  /** An abstract connection handle. */
  type Conn = nat

  /** Capacity of the buffered broadcast channel. */
  const BroadcastCapacity := 256

  datatype Manager = Manager(
    clients: set<Conn>,
    clientCount: int,
    lastLocation: map<seq<byte>, LocationData>)

  const EmptyManager := Manager({}, 0, map[])

  predicate CountConsistent(m: Manager) {
    m.clientCount == |m.clients|
  }

  function Register(m: Manager, c: Conn): (r: Manager)
    ensures c in r.clients
    ensures forall x :: x != c ==> (x in r.clients <==> x in m.clients)
    ensures CountConsistent(r)
    ensures r.lastLocation == m.lastLocation
    ensures c in m.clients ==> r.clients == m.clients
  {
    var clients := m.clients + {c};
    m.(clients := clients, clientCount := |clients|)
  }

  function Unregister(m: Manager, c: Conn): (r: Manager)
    ensures c !in r.clients
    ensures forall x :: x != c ==> (x in r.clients <==> x in m.clients)
    ensures c !in m.clients ==> r == m
    ensures CountConsistent(m) ==> CountConsistent(r)
    ensures r.lastLocation == m.lastLocation
  {
    if c in m.clients then
      var clients := m.clients - {c};
      m.(clients := clients, clientCount := |clients|)
    else m
  }

  /** The manager after a broadcast, with the connections that got the record and those dropped. */
  datatype Delivery = Delivery(manager: Manager, delivered: set<Conn>, dropped: set<Conn>)

  /**
    Broadcast: remember the record as its sender's last location, write it to
    every client, and drop the clients whose write failed.
   */
  function Broadcast(m: Manager, msg: LocationData, failed: set<Conn>): (r: Delivery)
    ensures msg.id in r.manager.lastLocation && r.manager.lastLocation[msg.id] == msg
    ensures forall k :: k != msg.id ==>
      (k in r.manager.lastLocation <==> k in m.lastLocation)
      && (k in m.lastLocation ==> r.manager.lastLocation[k] == m.lastLocation[k])
    ensures forall x :: x in r.manager.clients <==> x in m.clients && x !in failed
    ensures forall x :: x in r.dropped <==> x in m.clients && x in failed
    ensures r.delivered == r.manager.clients
    ensures CountConsistent(r.manager)
  {
    var dead := m.clients * failed;
    var clients := m.clients - dead;
    Delivery(
      Manager(clients, |clients|, m.lastLocation[msg.id := msg]),
      clients,
      dead)
  }

  /**
    The broadcast as the manager performs it: one pass over the clients that
    collects those whose write fails, then a pass deleting them.
   */
  method BroadcastLoop(m: Manager, msg: LocationData, failed: set<Conn>) returns (r: Manager, dead: set<Conn>)
    ensures dead == m.clients * failed
    ensures r.clients == m.clients - failed
    ensures r.clientCount == |r.clients|
    ensures r.lastLocation == m.lastLocation[msg.id := msg]
  {
    var last := m.lastLocation[msg.id := msg];
    dead := {};
    var pending := m.clients;
    while pending != {}
      invariant pending <= m.clients
      invariant dead == (m.clients - pending) * failed
      decreases pending
    {
      var c :| c in pending;
      if c in failed {
        dead := dead + {c};
      }
      pending := pending - {c};

    }
    var clients := m.clients;
    var toDelete := dead;
    while toDelete != {}
      invariant toDelete <= dead
      invariant clients == m.clients - (dead - toDelete)
      decreases toDelete
    {
      var c :| c in toDelete;
      clients := clients - {c};
      toDelete := toDelete - {c};
    }
    r := Manager(clients, |clients|, last);
  }

  /** What the reader loop did with one decoded record. */
  datatype ReadOutcome = Skipped(reason: ValidationError) | Enqueued | Dropped

  datatype Ingest = Ingest(queue: seq<LocationData>, outcome: ReadOutcome)

  /**
    One iteration of a client's reader loop after a record was decoded:
    validate it, skip it if invalid, otherwise stamp it with `now` and offer
    it to the broadcast queue without blocking, dropping it when the queue is full.
   */
  function ReceiveMessage(queue: seq<LocationData>, msg: LocationData, now: Timestamp): (r: Ingest)
    ensures r.outcome.Skipped? <==> ValidateLocationData(msg).error.Some?
    ensures r.outcome.Skipped? ==> Some(r.outcome.reason) == ValidateLocationData(msg).error
    ensures r.outcome.Enqueued? <==> ValidateLocationData(msg).error == None && |queue| < BroadcastCapacity
    ensures r.outcome.Enqueued? ==> r.queue == queue + [ValidateLocationData(msg).record.(timestamp := now)]
    ensures !r.outcome.Enqueued? ==> r.queue == queue
    ensures r.outcome.Dropped? ==> |queue| >= BroadcastCapacity
    ensures |queue| <= BroadcastCapacity ==> |r.queue| <= BroadcastCapacity
    ensures r.outcome.Enqueued? ==> Accepted(r.queue[|r.queue| - 1]) && r.queue[|r.queue| - 1].id == msg.id
  {
    var checked := ValidateLocationData(msg);
    match checked.error
    case Some(e) => Ingest(queue, Skipped(e))
    case None =>
      var stamped := checked.record.(timestamp := now);
      if |queue| < BroadcastCapacity then Ingest(queue + [stamped], Enqueued)
      else Ingest(queue, Dropped)
  }

  /** The whole server core: the manager plus the records waiting in the broadcast channel. */
  datatype Server = Server(manager: Manager, queue: seq<LocationData>)

  const InitialServer := Server(EmptyManager, [])

  datatype Event =
    | Connect(conn: Conn)
    | Disconnect(conn: Conn)
    | Receive(msg: LocationData, now: Timestamp)
    | Dispatch(failed: set<Conn>)

  /**
    One event. A `Dispatch` takes the oldest queued record and broadcasts it;
    with an empty queue the manager's select cannot take that branch, so nothing happens.
   */
  function Step(s: Server, e: Event): (r: Server)
    ensures e.Connect? ==> r == Server(Register(s.manager, e.conn), s.queue)
    ensures e.Disconnect? ==> r == Server(Unregister(s.manager, e.conn), s.queue)
    ensures e.Receive? ==> r.manager == s.manager && r.queue == ReceiveMessage(s.queue, e.msg, e.now).queue
    ensures e.Dispatch? && |s.queue| == 0 ==> r == s
    ensures e.Dispatch? && |s.queue| > 0 ==>
      && s.queue == [s.queue[0]] + r.queue
      && r.manager == Broadcast(s.manager, s.queue[0], e.failed).manager
  {
    match e
    case Connect(c) => s.(manager := Register(s.manager, c))
    case Disconnect(c) => s.(manager := Unregister(s.manager, c))
    case Receive(msg, now) => s.(queue := ReceiveMessage(s.queue, msg, now).queue)
    case Dispatch(failed) =>
      if |s.queue| == 0 then s
      else Server(Broadcast(s.manager, s.queue[0], failed).manager, s.queue[1..])
  }

  function Run(s: Server, events: seq<Event>): Server
    decreases |events|
  {
    if |events| == 0 then s else Run(Step(s, events[0]), events[1..])
  }

  /** What holds of the server between events. */
  predicate Inv(s: Server) {
    && CountConsistent(s.manager)
    && |s.queue| <= BroadcastCapacity
    && (forall i :: 0 <= i < |s.queue| ==> Accepted(s.queue[i]))
    && (forall k :: k in s.manager.lastLocation ==>
          s.manager.lastLocation[k].id == k && Accepted(s.manager.lastLocation[k]))
  }

  lemma InitialServerInv()
    ensures Inv(InitialServer)
  {
  }

  lemma StepPreservesInv(s: Server, e: Event)
    requires Inv(s)
    ensures Inv(Step(s, e))
  {
  }

  /**
    Along any sequence of events, the client count equals the number of
    clients, the queue never exceeds its capacity, and only validated records
    are queued or remembered, each under its own ID.
   */
  lemma {:induction false} RunPreservesInv(s: Server, events: seq<Event>)
    requires Inv(s)
    ensures Inv(Run(s, events))
    decreases |events|
  {
    if |events| > 0 {
      StepPreservesInv(s, events[0]);
      RunPreservesInv(Step(s, events[0]), events[1..]);
    }
  }

  /** Remembered IDs are never forgotten: the last-location table only grows. */
  lemma {:induction false} RunKeepsLocations(s: Server, events: seq<Event>)
    ensures s.manager.lastLocation.Keys <= Run(s, events).manager.lastLocation.Keys
    decreases |events|
  {
    if |events| > 0 {
      var s' := Step(s, events[0]);
      assert s.manager.lastLocation.Keys <= s'.manager.lastLocation.Keys;
      RunKeepsLocations(s', events[1..]);
    }
  }
}
