/**
 From a committed order to its one effect: outbox table, relays, broker, consumers, effect store.

 Every action is one step of one relay, one message handler, or the environment: a database call may fail before or
 after it took effect, a publish may be accepted and still be reported as failed, a process may die at any point and
 a channel may close, which requeues what it had not settled. An action that is not possible changes nothing.
 */
module Pipeline {
  import opened Prelude

  // ----- data

  datatype Event = Event(eventId: nat, orderId: nat, userId: string, poison: bool)

  /** A message body: an order.placed event, or something `parseEvent` throws on. */
  datatype Body = Valid(event: Event) | Malformed

  datatype Row = Row(event: Event, createdAt: int)

  /**
   `orders` maps each committed order to the outbox row committed with it; `tries` lists the rows in the order their
   publishes were tried; `used` holds the tries counted in `attempts`. `returned` adds up what completed cycles
   returned, `unheard` the rows of cycles that committed without hearing of it, and so threw.
   */
  datatype Outbox = Outbox(
    orders: map<nat, nat>,
    rows: map<nat, Row>,
    published: set<nat>,
    attempts: map<nat, nat>,
    tries: seq<nat>,
    used: set<nat>,
    returned: nat,
    unheard: nat)

  /**
   `current` is the try of the row just published; `held` are the tries of the rows marked so far. An orphan's
   transaction is gone on the server, with its row locks, but it has not noticed and publishes its next row.
   */
  datatype Relay =
    | Idle
    | Publishing(rows: seq<nat>, held: seq<nat>, current: Option<nat>)
    | Orphan(next: nat)
    | Counting(row: nat, failed: nat)

  datatype Place = Queued | Unacked(tag: nat, channel: nat) | DeadLettered | Acked

  datatype Message = Message(body: Body, place: Place)

  /** Messages stay listed after they were acked. `confirmed` are the events a publish of which was accepted. */
  datatype Broker = Broker(bound: bool, messages: map<nat, Message>, confirmed: set<Event>, closed: set<nat>)

  datatype Effect = Effect(orderId: nat, acked: bool)

  /** `applies` counts what `applyEffect` reported as first; `unheard` counts inserts whose report was lost. */
  datatype Store = Store(
    effects: map<nat, Effect>,
    inbox: set<nat>,
    deliveries: seq<nat>,
    applies: nat,
    unheard: nat)

  datatype Stage =
    | Received
    | Recorded
    | Applied
    | AckSent
    | Done
    | Dead // the process is gone, or the channel was closed before the delivery was settled

  /**
   `settles` counts the acks, nacks and rejects this run sent, `sentAck` whether an ack was among them; `markFailed`
   records that `markAcked` threw.
   */
  datatype Handler = Handler(
    msg: nat, body: Body, channel: nat, stage: Stage, settles: nat, sentAck: bool, markFailed: bool)

  datatype State = State(
    outbox: Outbox,
    relays: map<nat, Relay>,
    broker: Broker,
    handlers: map<nat, Handler>,
    store: Store)

  datatype PublishOutcome = Confirmed | FailedButAccepted | FailedAndLost

  /**
   How a database call of a handler ended. A failed one may have committed; its error is transient or not. For the ack,
   `Fails` means that it was written but lost with its connection, which the handler does not hear of.
   */
  datatype Outcome = Fine | Fails(committed: bool, transient: bool)

  datatype Action =
    | PlaceOrder(row: nat, event: Event, createdAt: int)
    | AssertTopology
    | Claim(relay: nat, rows: seq<nat>, limit: nat, userId: Option<string>)
    | Publish(relay: nat, msg: nat, outcome: PublishOutcome)
    | Mark(relay: nat)
    | Finish(relay: nat, heard: bool)
    | LoseTransaction(relay: nat)
    | Drop(relay: nat) // the cycle fails, or the relay dies: its transaction rolls back
    | CountAttempt(relay: nat)
    | ForeignPublish(msg: nat, body: Body)
    | Deliver(tag: nat, msg: nat, channel: nat)
    | Handle(tag: nat, ended: Outcome)
    | CloseChannel(channel: nat, dies: bool)

  // ----- the outbox and its relays

  predicate Locks(relay: Relay, row: nat)
  {
    relay.Publishing? && row in relay.rows
  }

  ghost predicate IsLocked(relays: map<nat, Relay>, row: nat)
  {
    exists r :: r in relays && Locks(relays[r], row)
  }

  ghost predicate Eligible(outbox: Outbox, relays: map<nat, Relay>, userId: Option<string>, row: nat)
  {
    && row in outbox.rows && row !in outbox.published && !IsLocked(relays, row)
    && (userId.Some? ==> outbox.rows[row].event.userId == userId.value)
  }

  /** ORDER BY created_at, id */
  predicate Earlier(outbox: Outbox, a: nat, b: nat)
    requires a in outbox.rows && b in outbox.rows
  {
    || outbox.rows[a].createdAt < outbox.rows[b].createdAt
    || (outbox.rows[a].createdAt == outbox.rows[b].createdAt && a < b)
  }

  /** The result of the claiming SELECT: the first `limit` unpublished rows that nobody has locked. */
  ghost predicate IsClaim(outbox: Outbox, relays: map<nat, Relay>, rows: seq<nat>, limit: nat, userId: Option<string>)
  {
    && |rows| <= limit
    && (forall i :: 0 <= i < |rows| ==> Eligible(outbox, relays, userId, rows[i]))
    && (forall i, j :: 0 <= i < j < |rows| ==> Earlier(outbox, rows[i], rows[j]))
    && (forall row :: Eligible(outbox, relays, userId, row) && row !in rows ==>
          |rows| == limit && forall i :: 0 <= i < |rows| ==> Earlier(outbox, rows[i], row))
  }

  function Accept(broker: Broker, msg: nat, event: Event): Broker
  {
    var confirmed := broker.(confirmed := broker.confirmed + {event});
    if broker.bound then confirmed.(messages := broker.messages[msg := Message(Valid(event), Queued)]) else confirmed
  }

  function Bumped(attempts: map<nat, nat>, rows: seq<nat>): map<nat, nat>
  {
    map row | row in attempts :: if row in rows then attempts[row] + 1 else attempts[row]
  }

  function SetOf(xs: seq<nat>): set<nat>
  {
    set i | 0 <= i < |xs| :: xs[i]
  }

  predicate HasNext(relay: Relay)
  {
    || relay.Orphan?
    || (relay.Publishing? && relay.current.None? && |relay.held| < |relay.rows|)
  }

  /** The row a relay publishes next. */
  function NextRow(relay: Relay): nat
    requires HasNext(relay)
  {
    if relay.Orphan? then relay.next else relay.rows[|relay.held|]
  }

  /** The relay after its publish: an orphan's mark fails next, which ends its cycle. */
  function AfterPublish(relay: Relay, t: nat, outcome: PublishOutcome): Relay
    requires HasNext(relay)
  {
    if !outcome.Confirmed? then Counting(NextRow(relay), t)
    else if relay.Orphan? then Idle
    else relay.(current := Some(t))
  }

  function PublishOne(s: State, r: nat, msg: nat, outcome: PublishOutcome): State
    requires r in s.relays && HasNext(s.relays[r]) && NextRow(s.relays[r]) in s.outbox.rows
  {
    var row, t := NextRow(s.relays[r]), |s.outbox.tries|;
    var broker := if outcome.FailedAndLost? then s.broker else Accept(s.broker, msg, s.outbox.rows[row].event);
    s.(outbox := s.outbox.(tries := s.outbox.tries + [row]),
       relays := s.relays[r := AfterPublish(s.relays[r], t, outcome)],
       broker := broker)
  }

  /** The marks of a cycle, committed together. */
  function Finished(outbox: Outbox, relay: Relay, heard: bool): Outbox
    requires relay.Publishing?
  {
    outbox.(published := outbox.published + SetOf(relay.rows),
            attempts := Bumped(outbox.attempts, relay.rows),
            used := outbox.used + SetOf(relay.held),
            returned := outbox.returned + (if heard then |relay.rows| else 0),
            unheard := outbox.unheard + (if heard then 0 else |relay.rows|))
  }

  function FinishOne(s: State, r: nat, heard: bool): State
    requires r in s.relays && s.relays[r].Publishing?
  {
    s.(outbox := Finished(s.outbox, s.relays[r], heard), relays := s.relays[r := Idle])
  }

  /** The attempt of a failed publish, counted outside the rolled-back transaction. */
  function Counted(outbox: Outbox, row: nat, t: nat): Outbox
    requires row in outbox.attempts
  {
    outbox.(attempts := outbox.attempts[row := outbox.attempts[row] + 1], used := outbox.used + {t})
  }

  // ----- the consumer

  function Inserted(store: Store, event: Event): Store
  {
    if event.eventId in store.effects then store
    else store.(effects := store.effects[event.eventId := Effect(event.orderId, false)],
                inbox := store.inbox + {event.eventId})
  }

  function MarkedAcked(store: Store, eventId: nat): Store
  {
    if eventId in store.effects
    then store.(effects := store.effects[eventId := store.effects[eventId].(acked := true)]) else store
  }

  function Requeued(broker: Broker, channel: nat): Broker
  {
    broker.(messages := map m | m in broker.messages ::
              if broker.messages[m].place.Unacked? && broker.messages[m].place.channel == channel
              then broker.messages[m].(place := Queued) else broker.messages[m],
            closed := broker.closed + {channel})
  }

  /** ack, nack or reject of an open delivery; on a channel that is already closed the call throws instead. */
  function Settled(s: State, tag: nat, place: Place): State
    requires tag in s.handlers
  {
    var h := s.handlers[tag];
    if h.msg in s.broker.messages && s.broker.messages[h.msg].place == Unacked(tag, h.channel) then
      var message := s.broker.messages[h.msg].(place := place);
      s.(broker := s.broker.(messages := s.broker.messages[h.msg := message]),
         handlers := s.handlers[tag := h.(stage := if place.Acked? then AckSent else Done, settles := h.settles + 1,
                                          sentAck := h.sentAck || place.Acked?)])
    else s.(handlers := s.handlers[tag := h.(stage := Dead)])
  }

  function PastAck(h: Handler): Handler
  {
    h.(stage := AckSent, settles := h.settles + 1, sentAck := true)
  }

  /** An ack that is lost with its connection: the broker requeues what it had not settled, and the handler goes on. */
  function AckLost(s: State, tag: nat): State
    requires tag in s.handlers
  {
    s.(broker := Requeued(s.broker, s.handlers[tag].channel),
       handlers := s.handlers[tag := PastAck(s.handlers[tag])])
  }

  function WithStore(s: State, store: Store): State
  {
    s.(store := store)
  }

  function WithStage(s: State, tag: nat, stage: Stage): State
    requires tag in s.handlers
  {
    s.(handlers := s.handlers[tag := s.handlers[tag].(stage := stage)])
  }

  /** The catch block of a handler that has not settled yet. */
  function Caught(s: State, tag: nat, transient: bool): State
    requires tag in s.handlers
  {
    Settled(s, tag, if transient then Queued else DeadLettered)
  }

  function HandleReceived(s: State, tag: nat, outcome: Outcome): State
    requires tag in s.handlers
  {
    match s.handlers[tag].body
    case Malformed => Settled(s, tag, DeadLettered)
    case Valid(event) =>
      var recorded := WithStore(s, s.store.(deliveries := s.store.deliveries + [event.eventId]));
      match outcome
      case Fine => WithStage(recorded, tag, Recorded)
      case Fails(committed, transient) => Caught(if committed then recorded else s, tag, transient)
  }

  function HandleRecorded(s: State, tag: nat, outcome: Outcome): State
    requires tag in s.handlers
  {
    match s.handlers[tag].body
    case Malformed => s
    case Valid(event) =>
      if event.poison then Settled(s, tag, DeadLettered)
      else
        var first, inserted := event.eventId !in s.store.effects, Inserted(s.store, event);
        match outcome
        case Fine =>
          WithStage(WithStore(s, if first then inserted.(applies := s.store.applies + 1) else inserted), tag, Applied)
        case Fails(committed, transient) =>
          var unheard := if first then inserted.(unheard := s.store.unheard + 1) else inserted;
          Caught(if committed then WithStore(s, unheard) else s, tag, transient)
  }

  /** After the ack, a failing `markAcked` makes the catch block settle a delivery the broker no longer knows. */
  function HandleAckSent(s: State, tag: nat, outcome: Outcome): State
    requires tag in s.handlers
  {
    match s.handlers[tag].body
    case Malformed => s
    case Valid(event) =>
      var marked := WithStore(s, MarkedAcked(s.store, event.eventId));
      match outcome
      case Fine => WithStage(marked, tag, Done)
      case Fails(committed, _) =>
        var h := s.handlers[tag];
        (if committed then marked else s).(
          handlers := s.handlers[tag := h.(stage := Done, settles := h.settles + 1, markFailed := true)],
          broker := Requeued(s.broker, h.channel))
  }

  function HandleOne(s: State, tag: nat, outcome: Outcome): State
    requires tag in s.handlers
  {
    match s.handlers[tag].stage
    case Received => HandleReceived(s, tag, outcome)
    case Recorded => HandleRecorded(s, tag, outcome)
    case Applied => if outcome.Fine? then Settled(s, tag, Acked) else AckLost(s, tag)
    case AckSent => HandleAckSent(s, tag, outcome)
    case _ => s
  }

  function Killed(handlers: map<nat, Handler>, channel: nat): map<nat, Handler>
  {
    map tag | tag in handlers ::
      if handlers[tag].channel == channel && !handlers[tag].stage.Done? then handlers[tag].(stage := Dead)
      else handlers[tag]
  }

  function Close(s: State, channel: nat, dies: bool): State
  {
    s.(broker := Requeued(s.broker, channel),
       handlers := if dies then Killed(s.handlers, channel) else s.handlers)
  }

  function DeliverOne(s: State, tag: nat, msg: nat, channel: nat): State
    requires msg in s.broker.messages
  {
    var message := s.broker.messages[msg];
    s.(broker := s.broker.(messages := s.broker.messages[msg := message.(place := Unacked(tag, channel))]),
       handlers := s.handlers[tag := Handler(msg, message.body, channel, Received, 0, false, false)])
  }

  // ----- steps and runs

  ghost predicate FreshOrder(outbox: Outbox, row: nat, event: Event)
  {
    && row !in outbox.rows && !event.poison && event.orderId !in outbox.orders
    && forall r :: r in outbox.rows ==> outbox.rows[r].event.eventId != event.eventId
  }

  function Placed(outbox: Outbox, row: nat, event: Event, createdAt: int): Outbox
  {
    outbox.(orders := outbox.orders[event.orderId := row],
            rows := outbox.rows[row := Row(event, createdAt)],
            attempts := outbox.attempts[row := 0])
  }

  predicate MayPublish(s: State, r: nat, msg: nat)
  {
    && r in s.relays && HasNext(s.relays[r]) && NextRow(s.relays[r]) in s.outbox.rows
    && msg !in s.broker.messages
  }

  ghost function Next(s: State, a: Action): State
  {
    match a
    case PlaceOrder(row, event, createdAt) =>
      if FreshOrder(s.outbox, row, event) then s.(outbox := Placed(s.outbox, row, event, createdAt)) else s
    case AssertTopology => s.(broker := s.broker.(bound := true))
    case Claim(r, rows, limit, userId) =>
      if (r !in s.relays || s.relays[r].Idle?) && rows != [] && IsClaim(s.outbox, s.relays, rows, limit, userId)
      then s.(relays := s.relays[r := Publishing(rows, [], None)]) else s
    case Publish(r, msg, outcome) => if MayPublish(s, r, msg) then PublishOne(s, r, msg, outcome) else s
    case Mark(r) =>
      if r in s.relays && s.relays[r].Publishing? && s.relays[r].current.Some? then
        var relay := s.relays[r];
        s.(relays := s.relays[r := Publishing(relay.rows, relay.held + [relay.current.value], None)])
      else s
    case Finish(r, heard) =>
      if r in s.relays && s.relays[r].Publishing? && |s.relays[r].held| == |s.relays[r].rows|
      then FinishOne(s, r, heard) else s
    case LoseTransaction(r) =>
      if r in s.relays && HasNext(s.relays[r]) then s.(relays := s.relays[r := Orphan(NextRow(s.relays[r]))]) else s
    case Drop(r) => if r in s.relays then s.(relays := s.relays[r := Idle]) else s
    case CountAttempt(r) =>
      if r in s.relays && s.relays[r].Counting? && !IsLocked(s.relays, s.relays[r].row)
         && s.relays[r].row in s.outbox.attempts then
        s.(outbox := Counted(s.outbox, s.relays[r].row, s.relays[r].failed), relays := s.relays[r := Idle])
      else s
    case ForeignPublish(msg, body) =>
      if s.broker.bound && msg !in s.broker.messages && (body.Malformed? || body.event.poison)
      then s.(broker := s.broker.(messages := s.broker.messages[msg := Message(body, Queued)])) else s
    case Deliver(tag, msg, channel) =>
      if msg in s.broker.messages && s.broker.messages[msg].place.Queued? && tag !in s.handlers
         && channel !in s.broker.closed then
        DeliverOne(s, tag, msg, channel)
      else s
    case Handle(tag, ended) => if tag in s.handlers then HandleOne(s, tag, ended) else s
    case CloseChannel(channel, dies) => Close(s, channel, dies)
  }

  ghost function Exec(s: State, actions: seq<Action>): State
  {
    if actions == [] then s
    else Next(Exec(s, actions[..|actions| - 1]), actions[|actions| - 1])
  }

  /** An empty system; the queue may or may not be bound yet. */
  ghost predicate Initial(s: State)
  {
    && s.outbox == Outbox(map[], map[], {}, map[], [], {}, 0, 0)
    && s.relays == map[] && s.handlers == map[]
    && s.broker.messages == map[] && s.broker.confirmed == {}
    && s.store == Store(map[], {}, [], 0, 0)
  }
}
