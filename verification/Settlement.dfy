/**
 Settlement and redelivery of queue messages: the server's ack dispatch
 (internal/server/server.go) over Ack, Nack, Retry and DeadLetter
 (internal/provider/connectors/amqp091/amqp091.go), with the broker's queues as
 explicit state. Each dispatch is one step; every request to the broker has its
 own outcome.
 */
module Settlement {
  import opened Amqp
  import opened Counters
  import opened DeadLetters
  import opened RetryTopology
  import opened Runs
  import opened Topology
  import opened Wrappers

  /** A message in a queue: publishing once puts a copy into every queue it is routed to. */
  datatype Copy = Copy(publication: nat, queue: string)

  /** History: the x-retry-count a message arrived with, and the retry publications since. */
  datatype Trail = Trail(first: HeaderValue, hops: nat)

  datatype Held = Held(
    lid: nat,                         // which message arrived, through all of its retries
    home: string,                     // the queue it arrived in
    key: string,                      // routing key
    acquired: nat,                    // times handed to a consumer
    delivered: nat,                   // times it reached the client
    retries: HeaderValue,             // x-retry-count
    trail: Trail,
    unacked: Option<nat>)             // delivery tag, while a consumer has it

  /** An entry of activeMessages. */
  datatype Active = Active(
    copy: Copy, tag: nat, lid: nat, home: string,
    acquired: HeaderValue,            // x-acquired-count as delivered
    retries: HeaderValue,
    trail: Trail)

  /** Settling a delivery. `Moved` is the ack of a retry, after the message has been published again. */
  datatype Verb = Acked | Moved | Rejected | Requeued
  datatype Attempt = Attempt(tag: nat, verb: Verb, done: bool)

  /** A message that the broker has taken from its queue as rejected, and the queues it was dead-lettered to. */
  datatype Burial = Burial(lid: nat, home: string, key: string, queues: set<string>)

  datatype World = World(
    topo: Topology,
    content: map<Copy, Held>,
    nextPublication: nat,
    nextTag: nat,
    active: map<string, Active>,
    retryChannel: bool,
    cap: int,                         // maxAcquiredCount
    attempts: seq<Attempt>,           // history: settlements sent to the broker
    used: set<string>,                // history: uuids generated
    arrived: set<nat>,                // history: messages that arrived
    finished: set<nat>,               // history: acknowledged by the client, or rejected
    buried: seq<Burial>,              // history: the rejections
    hindered: bool,                   // history: a declaration of some retry was refused, or took effect late
    doubtful: bool)                   // history: some retry was stored unconfirmed, or could not settle its message

  datatype Publishing = Confirmed | Unconfirmed(stored: bool)

  /** Outcomes of what one dispatch asks for. */
  datatype Faults = Faults(
    client: bool,                     // getBrokerDetails
    channel: bool,                    // NewChannel for retries
    declare: DeclareFaults,
    publish: Publishing,
    settle: bool)

  datatype AckRequest = AckRequest(uuid: string, nack: bool, delay: int)

  // Settling.

  /** The broker still waits for this delivery to be settled. */
  predicate Outstanding(w: World, a: Active) {
    a.copy in w.content && w.content[a.copy].unacked == Some(a.tag)
  }

  function Settle(w: World, a: Active, verb: Verb, ok: bool): (World, bool) {
    var done := ok && Outstanding(w, a);
    var sent := w.(attempts := w.attempts + [Attempt(a.tag, verb, done)]);
    if !done then (sent, false)
    else match verb
      case Requeued => (sent.(content := w.content[a.copy := w.content[a.copy].(unacked := None)]), true)
      case Moved => (sent.(content := w.content - {a.copy}), true)
      case Acked => (sent.(content := w.content - {a.copy}, finished := w.finished + {a.lid}), true)
      case Rejected =>
        (sent.(content := w.content - {a.copy}, finished := w.finished + {a.lid}, buried := w.buried + [BurialOf(w, a)]), true)
  }

  /** Dead-lettering by the arguments of the queue; the headers of a message are not modelled. */
  function BurialOf(w: World, a: Active): Burial
    requires a.copy in w.content
  {
    var m, home := w.content[a.copy], a.copy.queue;
    Burial(m.lid, home, m.key,
           if home in w.topo.broker.queues then DeadLetterRoute(w.topo.broker, w.topo.broker.queues[home], m.key, map[]) else {})
  }

  /** Settle and delete from activeMessages, whatever came of it. */
  function Close(w: World, uuid: string, verb: Verb, ok: bool): (World, bool)
    requires uuid in w.active
  {
    var (settled, done) := Settle(w, w.active[uuid], verb, ok);
    (settled.(active := settled.active - {uuid}), done)
  }

  /** message.Nack(true): the cap turns a requeue into a rejection. */
  function RequeueVerb(w: World, a: Active): Verb {
    if MaxHit(a.acquired, w.cap) then Rejected else Requeued
  }

  // The provider's operations. The result says whether no error is returned.

  function Ack(w: World, uuid: string, f: Faults): (World, bool) {
    if !f.client || uuid !in w.active then (w, false) else Close(w, uuid, Acked, f.settle)
  }

  function Nack(w: World, uuid: string, f: Faults): (World, bool) {
    if !f.client || uuid !in w.active then (w, false) else Close(w, uuid, Rejected, f.settle)
  }

  /** The result of the nack is dropped. */
  function DeadLetter(w: World, uuid: string, f: Faults): (World, bool) {
    if !f.client || uuid !in w.active then (w, false) else (Close(w, uuid, Rejected, f.settle).0, true)
  }

  /** A copy of the message in each of the queues. */
  function Stored(w: World, queues: set<string>, m: Held): World {
    var copies := map q | q in queues :: Copy(w.nextPublication, q) := m;
    w.(content := w.content + copies, nextPublication := w.nextPublication + 1)
  }

  function Republished(a: Active, key: string): Held {
    Held(a.lid, a.home, key, 0, 0, Bumped(a.retries), Trail(a.trail.first, a.trail.hops + 1), None)
  }

  /** Publishing on the confirming channel; a missing exchange is an error, an unroutable message is not. */
  function Publish(w: World, exchange: string, key: string, a: Active, p: Publishing): (World, bool) {
    if exchange !in w.topo.broker.exchanges || p == Unconfirmed(false) then (w, false)
    else (Stored(w, Route(w.topo.broker, exchange, key, map[]), Republished(a, key)), p.Confirmed?)
  }

  /** The tail of Retry, once the topology is declared. */
  function Republish(w: World, exchange: string, key: string, uuid: string, f: Faults): World
    requires uuid in w.active
  {
    var a := w.active[uuid];
    var (w1, published) := Publish(w, exchange, key, a, f.publish);
    var (w2, done) := Close(w1, uuid, if published then Moved else RequeueVerb(w, a), f.settle);
    w2.(doubtful := w.doubtful || !done || f.publish == Unconfirmed(true))
  }

  function Retry(w: World, src: Source, uuid: string, delay: nat, f: Faults): (World, bool) {
    if !f.client || uuid !in w.active then (w, false)
    else if !w.retryChannel && !f.channel then (w, false)
    else
      var retry := RetrySource(src.address.name, delay);
      var (t, bound) := Declared(w.topo, retry, false, f.declare);
      var declared := w.(topo := t, retryChannel := true, hindered := w.hindered || !Accepting(f.declare));
      if !bound then (declared, false)
      else (Republish(declared, retry.address.name, SourceName(src), uuid, f), true)
  }

  /** The server's ack dispatch; the result is the Success field of the response. */
  function Dispatch(w: World, src: Source, req: AckRequest, f: Faults): (World, bool) {
    if req.uuid == "" then (w, false)
    else if req.nack && req.delay > 0 then
      var (w1, ok) := Retry(w, src, req.uuid, req.delay, f);
      if ok then (w1, true) else Nack(w1, req.uuid, f)
    else if req.nack then
      if "DeadLetterAddress" in src.options then
        var (w1, ok) := DeadLetter(w, req.uuid, f);
        if ok then (w1, true) else Nack(w1, req.uuid, f)
      else Nack(w, req.uuid, f)
    else Ack(w, req.uuid, f)
  }

  // Deliveries.

  /** A message as a producer publishes it to its home queue. */
  function Arrived(lid: nat, queue: string, key: string, retries: HeaderValue): Held {
    Held(lid, queue, key, 0, 0, retries, Trail(retries, 0), None)
  }

  /** What the client gets to see of a message handed to it. */
  function ActiveOf(w: World, c: Copy): Active
    requires c in w.content
  {
    var m := w.content[c];
    Active(c, w.nextTag, m.lid, m.home, Int64(m.acquired), m.retries, m.trail)
  }

  /** The broker hands a message to a consumer. */
  function HandedOut(w: World, c: Copy, uuid: string): World
    requires c in w.content
  {
    var m := w.content[c];
    var capped := MaxHit(Int64(m.acquired), w.cap);
    var m1 := m.(acquired := m.acquired + 1,
                 delivered := if capped then m.delivered else m.delivered + 1,
                 unacked := Some(w.nextTag));
    w.(content := w.content[c := m1], nextTag := w.nextTag + 1, used := w.used + {uuid})
  }

  /** The consumer's loop for one message: a message over the cap is rejected at once. */
  function Delivered(w: World, c: Copy, uuid: string, ok: bool): World
    requires c in w.content
  {
    var a, w1 := ActiveOf(w, c), HandedOut(w, c, uuid);
    if MaxHit(a.acquired, w.cap) then Settle(w1, a, Rejected, ok).0
    else w1.(active := w1.active[uuid := a])
  }

  /** Deliveries that the broker takes back. */
  function TakenBack(content: map<Copy, Held>, tags: set<nat>): map<Copy, Held> {
    map c | c in content :: if content[c].unacked.Some? && content[c].unacked.value in tags
                            then content[c].(unacked := None) else content[c]
  }

  function AllTags(content: map<Copy, Held>): set<nat> {
    set c | c in content && content[c].unacked.Some? :: content[c].unacked.value
  }

  /** connect(): the lost connection's deliveries are taken back, the client starts with empty maps and no retry channel. */
  function Reconnecting(w: World): World {
    w.(content := TakenBack(w.content, AllTags(w.content)), active := map[], retryChannel := false,
       topo := Topology(w.topo.broker, w.topo.pending, {}, {}, {}))
  }

  // The machine.

  datatype Event =
    | Arrive(queue: string, key: string, retries: HeaderValue)
    | Subscribe(src: Source, home: DeclareFaults, dead: DeclareFaults)
    | Foreign(broker: Broker)                      // other clients declare and bind
    | TakesEffect(binding: Binding)                // a bind request that was sent without waiting
    | Deliver(copy: Copy, uuid: string, ok: bool)
    | Request(src: Source, req: AckRequest, f: Faults)
    | ChannelClosed(tags: set<nat>)                // a subscription ends; activeMessages keeps its entries
    | Reconnected                                  // connect() has cleared the client's maps
    | Expire(copy: Copy)                           // the TTL of a retry queue

  ghost predicate Outsider(src: Source) {
    && !IsRetryName(src.name) && !IsRetryName(src.address.name)
    && ("DeadLetterAddress" in src.options ==>
          var dead := DeadLetterSource(src, src.options["DeadLetterAddress"]);
          !IsRetryName(dead.name) && !IsRetryName(dead.address.name))
  }

  /** Others may add, under retry names only what a retry would add, and take away no queue and no part of a retry topology. */
  ghost predicate Grows(t: Topology, b: Broker) {
    && AllShaped(t.(broker := b))
    && t.broker.queues.Keys <= b.queues.Keys
    && forall n :: IsRetryName(n) ==>
         && (n in t.broker.exchanges ==> n in b.exchanges)
         && (HashBinding(n) in t.broker.bindings ==> HashBinding(n) in b.bindings)
  }

  /** The broker acts on a pending bind request. */
  function InEffect(t: Topology, x: Binding): Topology {
    t.(broker := t.broker.(bindings := t.broker.bindings + {x}), pending := t.pending - {x})
  }

  ghost function Step(w: World, e: Event): Option<World> {
    match e
    case Arrive(q, key, retries) =>
      if q !in w.topo.broker.queues || IsRetryName(q) then None
      else
        var lid := w.nextPublication;
        Some(Stored(w, {q}, Arrived(lid, q, key, retries)).(arrived := w.arrived + {lid}))
    case Subscribe(src, home, dead) =>
      if Outsider(Subscribing(src)) then Some(w.(topo := Subscribed(w.topo, Subscribing(src), home, dead).0)) else None
    case Foreign(b) => if Grows(w.topo, b) then Some(w.(topo := w.topo.(broker := b))) else None
    case TakesEffect(x) =>
      if x in w.topo.pending && Bindable(w.topo.broker, x) then Some(w.(topo := InEffect(w.topo, x))) else None
    case Deliver(c, uuid, ok) =>
      if c in w.content && w.content[c].unacked.None? && !IsRetryName(c.queue) && uuid != "" && uuid !in w.used
      then Some(Delivered(w, c, uuid, ok)) else None
    case Request(src, req, f) =>
      if req.delay < TWO_31 && (req.uuid in w.active ==> w.active[req.uuid].copy.queue == SourceName(src))
      then Some(Dispatch(w, src, req, f).0) else None
    case ChannelClosed(tags) => Some(w.(content := TakenBack(w.content, tags)))
    case Reconnected => Some(Reconnecting(w))
    case Expire(c) =>
      if c in w.content && w.content[c].unacked.None? && IsRetryName(c.queue) && c.queue in w.topo.broker.queues
      then
        var m := w.content[c];
        var w1 := w.(content := w.content - {c});
        var queues := DeadLetterRoute(w.topo.broker, w.topo.broker.queues[c.queue], m.key, map[]);
        Some(Stored(w1, queues, m.(acquired := 0, delivered := 0)))
      else None
  }

  function Start(b: Broker, cap: int): World {
    World(Topology(b, {}, {}, {}, {}), map[], 0, 0, map[], false, cap, [], {}, {}, {}, [], false, false)
  }

  /** Runs begin with no message, a cap the configuration accepts, and retry topologies that earlier retries have left. */
  ghost predicate Initial(w: World) {
    w == Start(w.topo.broker, w.cap) && 0 < w.cap < TWO_31 && AllShaped(w.topo)
  }

  ghost predicate Reaches(w0: World, es: seq<Event>, w: World) {
    Initial(w0) && Exec(Step, w0, es) == Some(w)
  }
}
