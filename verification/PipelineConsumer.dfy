/**
 What the broker, the message handlers and the effect store keep, through failures, closed channels and dead processes.
 */
module PipelineConsumer {
  import opened Pipeline
  import Relays = PipelineRelays

  /** An event an order was committed with. */
  predicate Committed(outbox: Outbox, event: Event)
  {
    && event.orderId in outbox.orders && outbox.orders[event.orderId] in outbox.rows
    && outbox.rows[outbox.orders[event.orderId]].event == event
  }

  /** A body that handlers apply: a valid event that is not poison. */
  predicate Real(body: Body)
  {
    body.Valid? && !body.event.poison
  }

  predicate Open(stage: Stage)
  {
    stage.Received? || stage.Recorded? || stage.Applied?
  }

  ghost predicate MessageOk(s: State, m: nat)
    requires m in s.broker.messages
  {
    var message := s.broker.messages[m];
    && (Real(message.body) ==> Committed(s.outbox, message.body.event) && message.body.event in s.broker.confirmed)
    && match message.place
       case Acked => Real(message.body) && message.body.event.eventId in s.store.effects
       case Unacked(tag, channel) =>
         && tag in s.handlers && s.handlers[tag].msg == m && s.handlers[tag].channel == channel
         && Open(s.handlers[tag].stage)
       case _ => true
  }

  ghost predicate StageOk(store: Store, h: Handler)
  {
    match h.stage
    case Received => h.settles == 0 && !h.markFailed
    case Recorded => h.settles == 0 && !h.markFailed && h.body.Valid? && h.body.event.eventId in store.deliveries
    case Applied =>
      && h.settles == 0 && !h.markFailed && Real(h.body) && h.body.event.eventId in store.effects
    case AckSent =>
      && h.settles == 1 && !h.markFailed && Real(h.body) && h.body.event.eventId in store.effects
    case Done => h.settles == if h.markFailed then 2 else 1
    case Dead => h.settles <= 1 && !h.markFailed
  }

  ghost predicate HandlerOk(s: State, h: Handler)
  {
    h.msg in s.broker.messages && s.broker.messages[h.msg].body == h.body && StageOk(s.store, h)
  }

  /** The broker was given this event's message while the queue was bound. */
  ghost predicate Kept(messages: map<nat, Message>, event: Event)
  {
    exists m :: m in messages && messages[m].body == Valid(event)
  }

  ghost predicate EffectOk(s: State, eventId: nat)
    requires eventId in s.store.effects
  {
    var order := s.store.effects[eventId].orderId;
    && order in s.outbox.orders && s.outbox.orders[order] in s.outbox.rows
    && s.outbox.rows[s.outbox.orders[order]].event.eventId == eventId
    && s.outbox.rows[s.outbox.orders[order]].event.orderId == order
    && Kept(s.broker.messages, s.outbox.rows[s.outbox.orders[order]].event)
    && eventId in s.store.deliveries
  }

  ghost predicate StoreOk(s: State)
  {
    && s.store.inbox == s.store.effects.Keys
    && s.store.applies + s.store.unheard == |s.store.effects|
    && forall id :: id in s.store.effects ==> EffectOk(s, id)
  }

  ghost predicate Inv(s: State)
  {
    && (forall m :: m in s.broker.messages ==> MessageOk(s, m))
    && (forall tag :: tag in s.handlers ==> HandlerOk(s, s.handlers[tag]))
    && StoreOk(s)
  }

  // ----- growing tables

  /** Messages keep their bodies and orders keep their rows. */
  ghost predicate Grows(s: State, s': State)
  {
    && (forall m :: m in s.broker.messages ==>
          m in s'.broker.messages && s'.broker.messages[m].body == s.broker.messages[m].body)
    && (forall o :: o in s.outbox.orders ==> o in s'.outbox.orders && s'.outbox.orders[o] == s.outbox.orders[o])
    && (forall r :: r in s.outbox.rows ==> r in s'.outbox.rows && s'.outbox.rows[r] == s.outbox.rows[r])
    && s.broker.confirmed <= s'.broker.confirmed
    && (forall id :: id in s.store.deliveries ==> id in s'.store.deliveries)
    && (forall id :: id in s.store.effects ==>
          id in s'.store.effects && s'.store.effects[id].orderId == s.store.effects[id].orderId)
  }

  lemma KeptGrows(s: State, s': State, event: Event)
    requires Grows(s, s') && Kept(s.broker.messages, event)
    ensures Kept(s'.broker.messages, event)
  {
    var m :| m in s.broker.messages && s.broker.messages[m].body == Valid(event);
    assert s'.broker.messages[m].body == Valid(event);
  }

  lemma EffectGrows(s: State, s': State, id: nat)
    requires Grows(s, s') && id in s.store.effects && EffectOk(s, id)
    ensures EffectOk(s', id)
  {
    var order := s.store.effects[id].orderId;
    KeptGrows(s, s', s.outbox.rows[s.outbox.orders[order]].event);
  }

  lemma StageGrows(s: State, s': State, h: Handler)
    requires Grows(s, s') && HandlerOk(s, h)
    ensures HandlerOk(s', h)
  {
  }

  /** Store invariant when no effect was added. */
  lemma StoreGrows(s: State, s': State)
    requires StoreOk(s) && Grows(s, s')
    requires s'.store.effects.Keys == s.store.effects.Keys && s'.store.inbox == s.store.inbox
    requires s'.store.applies == s.store.applies && s'.store.unheard == s.store.unheard
    ensures StoreOk(s')
  {
    forall id | id in s'.store.effects ensures EffectOk(s', id) {
      EffectGrows(s, s', id);
    }
    assert |s'.store.effects| == |s'.store.effects.Keys| == |s.store.effects.Keys| == |s.store.effects|;
  }

  // ----- settling

  lemma SettledGrows(s: State, tag: nat, place: Place)
    requires tag in s.handlers
    ensures Grows(s, Settled(s, tag, place))
  {
  }

  lemma SettledKeepsMessage(s: State, tag: nat, place: Place, m: nat)
    requires tag in s.handlers && HandlerOk(s, s.handlers[tag]) && m in s.broker.messages && MessageOk(s, m)
    requires Open(s.handlers[tag].stage) && !place.Unacked? && (place.Acked? ==> s.handlers[tag].stage.Applied?)
    ensures m in Settled(s, tag, place).broker.messages && MessageOk(Settled(s, tag, place), m)
  {
  }

  lemma SettledKeepsMessages(s: State, tag: nat, place: Place)
    requires Inv(s) && tag in s.handlers && Open(s.handlers[tag].stage) && !place.Unacked?
    requires place.Acked? ==> s.handlers[tag].stage.Applied?
    ensures forall m :: m in Settled(s, tag, place).broker.messages ==> MessageOk(Settled(s, tag, place), m)
  {
    assert HandlerOk(s, s.handlers[tag]);
    forall m | m in Settled(s, tag, place).broker.messages ensures MessageOk(Settled(s, tag, place), m) {
      assert m in s.broker.messages;
      SettledKeepsMessage(s, tag, place, m);
    }
  }

  lemma SettledKeepsHandler(s: State, tag: nat, place: Place, t: nat)
    requires Inv(s) && tag in s.handlers && Open(s.handlers[tag].stage) && t in s.handlers
    requires place.Acked? ==> s.handlers[tag].stage.Applied?
    ensures HandlerOk(Settled(s, tag, place), Settled(s, tag, place).handlers[t])
  {
    assert HandlerOk(s, s.handlers[t]);
    if t != tag {
      SettledGrows(s, tag, place);
      StageGrows(s, Settled(s, tag, place), s.handlers[t]);
    }
  }

  lemma SettledKeepsInv(s: State, tag: nat, place: Place)
    requires Inv(s) && tag in s.handlers && Open(s.handlers[tag].stage) && !place.Unacked?
    requires place.Acked? ==> s.handlers[tag].stage.Applied?
    ensures Inv(Settled(s, tag, place))
  {
    SettledKeepsMessages(s, tag, place);
    SettledKeepsStore(s, tag, place);
    forall t | t in s.handlers ensures HandlerOk(Settled(s, tag, place), Settled(s, tag, place).handlers[t]) {
      SettledKeepsHandler(s, tag, place, t);
    }
  }

  lemma SettledKeepsStore(s: State, tag: nat, place: Place)
    requires StoreOk(s) && tag in s.handlers
    ensures StoreOk(Settled(s, tag, place))
    ensures Settled(s, tag, place).handlers.Keys == s.handlers.Keys
  {
    SettledGrows(s, tag, place);
    StoreGrows(s, Settled(s, tag, place));
  }

  // ----- a change of the store, and of one handler's stage

  /** A handler moved on, or only the store changed; the broker is as before. */
  lemma StoreStep(s: State, s': State, tag: nat)
    requires Inv(s) && Grows(s, s') && tag in s.handlers && tag in s'.handlers
    requires s'.outbox == s.outbox && s'.broker == s.broker
    requires s'.handlers == s.handlers[tag := s'.handlers[tag]]
    requires s'.handlers[tag].msg == s.handlers[tag].msg && s'.handlers[tag].channel == s.handlers[tag].channel
    requires Open(s.handlers[tag].stage) ==> Open(s'.handlers[tag].stage)
    requires HandlerOk(s', s'.handlers[tag]) && StoreOk(s')
    ensures Inv(s')
  {
    forall m | m in s'.broker.messages ensures MessageOk(s', m) {
      assert MessageOk(s, m);
    }
    forall t | t in s'.handlers ensures HandlerOk(s', s'.handlers[t]) {
      if t != tag {
        assert HandlerOk(s, s.handlers[t]);
        StageGrows(s, s', s.handlers[t]);
      }
    }
  }

  function WithDelivery(s: State, eventId: nat): State
  {
    WithStore(s, s.store.(deliveries := s.store.deliveries + [eventId]))
  }

  lemma DeliveryKeepsInv(s: State, tag: nat, stage: Stage)
    requires Inv(s) && tag in s.handlers && s.handlers[tag].stage.Received? && s.handlers[tag].body.Valid?
    requires stage.Received? || stage.Recorded?
    ensures Inv(WithStage(WithDelivery(s, s.handlers[tag].body.event.eventId), tag, stage))
  {
    var s' := WithStage(WithDelivery(s, s.handlers[tag].body.event.eventId), tag, stage);
    assert HandlerOk(s, s.handlers[tag]);
    StoreGrows(s, s');
    StoreStep(s, s', tag);
  }

  lemma HandleReceivedKeepsInv(s: State, tag: nat, outcome: Outcome)
    requires Inv(s) && tag in s.handlers && s.handlers[tag].stage.Received?
    ensures Inv(HandleReceived(s, tag, outcome))
  {
    var h := s.handlers[tag];
    match h.body
    case Malformed => SettledKeepsInv(s, tag, DeadLettered);
    case Valid(event) =>
      DeliveryKeepsInv(s, tag, Recorded);
      DeliveryKeepsInv(s, tag, Received);
      var recorded := WithDelivery(s, event.eventId);
      assert WithStage(recorded, tag, Received) == recorded;
      if outcome.Fails? {
        var place := if outcome.transient then Queued else DeadLettered;
        SettledKeepsInv(if outcome.committed then recorded else s, tag, place);
      }
  }

  /** An event being handled is one an order was committed with, and its message is in the broker's books. */
  lemma HandledIsKept(s: State, tag: nat, event: Event)
    requires Inv(s) && tag in s.handlers && s.handlers[tag].stage.Recorded? && s.handlers[tag].body == Valid(event)
    requires !event.poison
    ensures Committed(s.outbox, event) && Kept(s.broker.messages, event) && event.eventId in s.store.deliveries
  {
    assert HandlerOk(s, s.handlers[tag]);
    assert MessageOk(s, s.handlers[tag].msg);
  }

  /** The effect of an event goes in together with its inbox mark. */
  lemma InsertKeepsStore(s: State, s': State, event: Event)
    requires StoreOk(s) && Committed(s.outbox, event) && Kept(s.broker.messages, event)
    requires event.eventId in s.store.deliveries
    requires s'.outbox == s.outbox && s'.broker == s.broker
    requires s'.store.effects == Inserted(s.store, event).effects && s'.store.inbox == Inserted(s.store, event).inbox
    requires s'.store.deliveries == s.store.deliveries
    requires s'.store.applies + s'.store.unheard
             == s.store.applies + s.store.unheard + if event.eventId in s.store.effects then 0 else 1
    ensures Grows(s, s') && StoreOk(s')
  {
    forall id | id in s'.store.effects ensures EffectOk(s', id) {
      if id in s.store.effects {
        assert EffectOk(s, id);
      }
    }
  }

  lemma ApplyKeepsInv(s: State, s': State, tag: nat, event: Event, stage: Stage)
    requires Inv(s) && tag in s.handlers && s.handlers[tag].stage.Recorded? && s.handlers[tag].body == Valid(event)
    requires !event.poison && (stage.Recorded? || stage.Applied?)
    requires s'.outbox == s.outbox && s'.broker == s.broker
    requires s'.handlers == s.handlers[tag := s.handlers[tag].(stage := stage)]
    requires s'.store.effects == Inserted(s.store, event).effects && s'.store.inbox == Inserted(s.store, event).inbox
    requires s'.store.deliveries == s.store.deliveries
    requires s'.store.applies + s'.store.unheard
             == s.store.applies + s.store.unheard + if event.eventId in s.store.effects then 0 else 1
    ensures Inv(s')
  {
    HandledIsKept(s, tag, event);
    InsertKeepsStore(s, s', event);
    assert HandlerOk(s, s.handlers[tag]);
    StoreStep(s, s', tag);
  }

  function Unheard(s: State, event: Event): State
  {
    var inserted := Inserted(s.store, event);
    WithStore(s, if event.eventId !in s.store.effects then inserted.(unheard := s.store.unheard + 1) else inserted)
  }

  lemma UnheardKeepsInv(s: State, tag: nat, event: Event)
    requires Inv(s) && tag in s.handlers && s.handlers[tag].stage.Recorded? && s.handlers[tag].body == Valid(event)
    requires !event.poison
    ensures Inv(Unheard(s, event))
  {
    assert s.handlers[tag := s.handlers[tag].(stage := Recorded)] == s.handlers;
    ApplyKeepsInv(s, Unheard(s, event), tag, event, Recorded);
  }

  lemma HandleRecordedKeepsInv(s: State, tag: nat, outcome: Outcome)
    requires Inv(s) && tag in s.handlers && s.handlers[tag].stage.Recorded?
    ensures Inv(HandleRecorded(s, tag, outcome))
  {
    var h := s.handlers[tag];
    if h.body.Valid? {
      if h.body.event.poison {
        SettledKeepsInv(s, tag, DeadLettered);
      } else {
        match outcome
        case Fine => ApplyKeepsInv(s, HandleRecorded(s, tag, outcome), tag, h.body.event, Applied);
        case Fails(committed, transient) =>
          UnheardKeepsInv(s, tag, h.body.event);
          SettledKeepsInv(if committed then Unheard(s, h.body.event) else s, tag,
                          if transient then Queued else DeadLettered);
      }
    }
  }

  // ----- requeueing

  lemma RequeueKeepsInv(s: State, channel: nat)
    requires Inv(s)
    ensures Inv(s.(broker := Requeued(s.broker, channel)))
  {
    var s' := s.(broker := Requeued(s.broker, channel));
    StoreGrows(s, s');
    forall m | m in s'.broker.messages ensures MessageOk(s', m) {
      assert MessageOk(s, m);
    }
    forall t | t in s'.handlers ensures HandlerOk(s', s'.handlers[t]) {
      assert HandlerOk(s, s.handlers[t]);
      StageGrows(s, s', s.handlers[t]);
    }
  }

  lemma MarkGrows(s: State, s': State, tag: nat, eventId: nat)
    requires s'.outbox == s.outbox && s'.broker == s.broker
    requires s'.store == s.store || s'.store == MarkedAcked(s.store, eventId)
    ensures Grows(s, s')
    ensures s'.store.effects.Keys == s.store.effects.Keys
    ensures s'.store == s.store.(effects := s'.store.effects)
  {
  }

  lemma MarkKeepsInv(s: State, s': State, tag: nat, eventId: nat)
    requires Inv(s) && tag in s.handlers && tag in s'.handlers && s.handlers[tag].stage.AckSent?
    requires s'.outbox == s.outbox && s'.broker == s.broker
    requires s'.store == s.store || s'.store == MarkedAcked(s.store, eventId)
    requires s'.handlers == s.handlers[tag := s'.handlers[tag]]
    requires var h, h' := s.handlers[tag], s'.handlers[tag];
             h'.msg == h.msg && h'.channel == h.channel && h'.body == h.body && h'.stage.Done? && StageOk(s.store, h')
    ensures Inv(s')
  {
    assert HandlerOk(s, s.handlers[tag]);
    MarkGrows(s, s', tag, eventId);
    StoreGrows(s, s');
    StoreStep(s, s', tag);
  }

  lemma HandleAckSentKeepsInv(s: State, tag: nat, outcome: Outcome)
    requires Inv(s) && tag in s.handlers && s.handlers[tag].stage.AckSent?
    ensures Inv(HandleAckSent(s, tag, outcome))
  {
    var h := s.handlers[tag];
    assert HandlerOk(s, h);
    var marked := MarkedAcked(s.store, h.body.event.eventId);
    match outcome
    case Fine => MarkKeepsInv(s, HandleAckSent(s, tag, outcome), tag, h.body.event.eventId);
    case Fails(committed, _) =>
      var h' := h.(stage := Done, settles := h.settles + 1, markFailed := true);
      var s' := s.(store := if committed then marked else s.store, handlers := s.handlers[tag := h']);
      MarkKeepsInv(s, s', tag, h.body.event.eventId);
      RequeueKeepsInv(s', h.channel);
  }

  /** With its channel's messages requeued, a handler can move past its ack. */
  lemma LateAckMessage(s: State, s': State, tag: nat, m: nat)
    requires tag in s.handlers && s' == s.(handlers := s.handlers[tag := PastAck(s.handlers[tag])])
    requires m in s.broker.messages && MessageOk(s, m)
    requires s.broker.messages[m].place.Unacked? ==> s.broker.messages[m].place.channel != s.handlers[tag].channel
    ensures MessageOk(s', m)
  {
  }

  lemma LateAckHandler(s: State, s': State, tag: nat, t: nat)
    requires tag in s.handlers && s' == s.(handlers := s.handlers[tag := PastAck(s.handlers[tag])])
    requires t in s.handlers && HandlerOk(s, s.handlers[t]) && s.handlers[tag].stage.Applied?
    ensures HandlerOk(s', s'.handlers[t])
  {
  }

  lemma LateAckKeepsInv(s: State, s': State, tag: nat)
    requires Inv(s) && tag in s.handlers && s.handlers[tag].stage.Applied?
    requires s' == s.(handlers := s.handlers[tag := PastAck(s.handlers[tag])])
    requires forall m :: m in s.broker.messages && s.broker.messages[m].place.Unacked? ==>
               s.broker.messages[m].place.channel != s.handlers[tag].channel
    ensures Inv(s')
  {
    StoreGrows(s, s');
    forall m | m in s'.broker.messages ensures MessageOk(s', m) {
      LateAckMessage(s, s', tag, m);
    }
    forall t | t in s'.handlers ensures HandlerOk(s', s'.handlers[t]) {
      LateAckHandler(s, s', tag, t);
    }
  }

  lemma RequeuedClears(broker: Broker, channel: nat)
    ensures var messages := Requeued(broker, channel).messages;
            forall m :: m in messages && messages[m].place.Unacked? ==> messages[m].place.channel != channel
  {
  }

  lemma AckLostKeepsInv(s: State, tag: nat)
    requires Inv(s) && tag in s.handlers && s.handlers[tag].stage.Applied?
    ensures Inv(AckLost(s, tag))
  {
    var channel := s.handlers[tag].channel;
    RequeueKeepsInv(s, channel);
    RequeuedClears(s.broker, channel);
    LateAckKeepsInv(s.(broker := Requeued(s.broker, channel)), AckLost(s, tag), tag);
  }

  lemma HandleKeepsInv(s: State, tag: nat, outcome: Outcome)
    requires Inv(s) && tag in s.handlers
    ensures Inv(HandleOne(s, tag, outcome))
  {
    match s.handlers[tag].stage
    case Received => HandleReceivedKeepsInv(s, tag, outcome);
    case Recorded => HandleRecordedKeepsInv(s, tag, outcome);
    case Applied => if outcome.Fine? { SettledKeepsInv(s, tag, Acked); } else { AckLostKeepsInv(s, tag); }
    case AckSent => HandleAckSentKeepsInv(s, tag, outcome);
    case _ =>
  }

  lemma CloseKeepsInv(s: State, channel: nat, dies: bool)
    requires Inv(s)
    ensures Inv(Close(s, channel, dies))
  {
    RequeueKeepsInv(s, channel);
    if dies {
      DeathKeepsInv(s.(broker := Requeued(s.broker, channel)), channel);
    }
  }

  /** A dead process's handlers hold no delivery any more: its channel's messages are queued again. */
  lemma DeathKeepsInv(s: State, channel: nat)
    requires Inv(s)
    requires forall m :: m in s.broker.messages && s.broker.messages[m].place.Unacked? ==>
               s.broker.messages[m].place.channel != channel
    ensures Inv(s.(handlers := Killed(s.handlers, channel)))
  {
    var s' := s.(handlers := Killed(s.handlers, channel));
    StoreGrows(s, s');
    forall m | m in s'.broker.messages ensures MessageOk(s', m) {
      assert MessageOk(s, m);
    }
    forall t | t in s'.handlers ensures HandlerOk(s', s'.handlers[t]) {
      assert HandlerOk(s, s.handlers[t]);
    }
  }

  // ----- new rows, new messages, new deliveries

  lemma PlaceKeepsInv(s: State, row: nat, event: Event, createdAt: int)
    requires Inv(s) && FreshOrder(s.outbox, row, event)
    ensures Inv(s.(outbox := Placed(s.outbox, row, event, createdAt)))
  {
    var s' := s.(outbox := Placed(s.outbox, row, event, createdAt));
    StoreGrows(s, s');
    forall m | m in s'.broker.messages ensures MessageOk(s', m) {
      assert MessageOk(s, m);
    }
    forall t | t in s'.handlers ensures HandlerOk(s', s'.handlers[t]) {
      assert HandlerOk(s, s.handlers[t]);
    }
  }

  /** A step that adds at most one queued message and leaves handlers and store alone. */
  lemma QueueKeepsInv(s: State, s': State, msg: nat)
    requires Inv(s) && s'.handlers == s.handlers && s'.store == s.store
    requires s'.outbox.orders == s.outbox.orders && s'.outbox.rows == s.outbox.rows
    requires s.broker.confirmed <= s'.broker.confirmed
    requires s'.broker.messages == s.broker.messages
             || (msg !in s.broker.messages && msg in s'.broker.messages
                 && s'.broker.messages == s.broker.messages[msg := s'.broker.messages[msg]]
                 && s'.broker.messages[msg].place.Queued? && MessageOk(s', msg))
    ensures Inv(s')
  {
    StoreGrows(s, s');
    forall m | m in s'.broker.messages ensures MessageOk(s', m) {
      if m in s.broker.messages {
        assert MessageOk(s, m);
      }
    }
    forall t | t in s'.handlers ensures HandlerOk(s', s'.handlers[t]) {
      assert HandlerOk(s, s.handlers[t]);
    }
  }

  lemma PublishKeepsInv(s: State, r: nat, msg: nat, outcome: PublishOutcome)
    requires Inv(s) && Relays.Inv(s) && MayPublish(s, r, msg)
    ensures Inv(PublishOne(s, r, msg, outcome))
  {
    var s' := PublishOne(s, r, msg, outcome);
    ClaimedIsCommitted(s, r);
    if msg in s'.broker.messages {
      AcceptedIsOk(s, s', msg, s.outbox.rows[NextRow(s.relays[r])].event);
    }
    QueueKeepsInv(s, s', msg);
  }

  /** The event a relay is about to publish is that of a committed order. */
  lemma ClaimedIsCommitted(s: State, r: nat)
    requires Relays.Inv(s) && r in s.relays && HasNext(s.relays[r]) && NextRow(s.relays[r]) in s.outbox.rows
    ensures Committed(s.outbox, s.outbox.rows[NextRow(s.relays[r])].event)
  {
  }

  lemma AcceptedIsOk(s: State, s': State, msg: nat, event: Event)
    requires Committed(s.outbox, event) && s'.outbox.orders == s.outbox.orders && s'.outbox.rows == s.outbox.rows
    requires msg in s'.broker.messages && s'.broker.messages[msg] == Message(Valid(event), Queued)
    requires event in s'.broker.confirmed
    ensures MessageOk(s', msg)
  {
  }

  lemma DeliverKeepsMessage(s: State, tag: nat, msg: nat, channel: nat, m: nat)
    requires Inv(s) && msg in s.broker.messages && s.broker.messages[msg].place.Queued? && tag !in s.handlers
    requires m in s.broker.messages
    ensures MessageOk(DeliverOne(s, tag, msg, channel), m)
  {
    assert MessageOk(s, m);
  }

  lemma DeliverKeepsHandler(s: State, tag: nat, msg: nat, channel: nat, t: nat)
    requires Inv(s) && msg in s.broker.messages && (t in s.handlers || t == tag) && tag !in s.handlers
    ensures HandlerOk(DeliverOne(s, tag, msg, channel), DeliverOne(s, tag, msg, channel).handlers[t])
  {
    if t in s.handlers {
      assert HandlerOk(s, s.handlers[t]);
    }
  }

  lemma DeliverKeepsInv(s: State, tag: nat, msg: nat, channel: nat)
    requires Inv(s) && msg in s.broker.messages && s.broker.messages[msg].place.Queued? && tag !in s.handlers
    ensures Inv(DeliverOne(s, tag, msg, channel))
  {
    var s' := DeliverOne(s, tag, msg, channel);
    StoreGrows(s, s');
    forall m | m in s'.broker.messages ensures MessageOk(s', m) {
      DeliverKeepsMessage(s, tag, msg, channel, m);
    }
    forall t | t in s'.handlers ensures HandlerOk(s', s'.handlers[t]) {
      DeliverKeepsHandler(s, tag, msg, channel, t);
    }
  }

  /** What a relay does to its claims and marks does not concern broker, handlers and store. */
  lemma RelayStepFrame(s: State, a: Action)
    requires a.AssertTopology? || a.Claim? || a.Mark? || a.Finish? || a.LoseTransaction? || a.Drop?
             || a.CountAttempt?
    ensures var s' := Next(s, a);
            && s'.handlers == s.handlers && s'.store == s.store
            && s'.outbox.orders == s.outbox.orders && s'.outbox.rows == s.outbox.rows
            && s'.broker.confirmed == s.broker.confirmed && s'.broker.messages == s.broker.messages
  {
  }

  lemma RelayStepKeepsInv(s: State, a: Action)
    requires Inv(s)
    requires a.AssertTopology? || a.Claim? || a.Mark? || a.Finish? || a.LoseTransaction? || a.Drop?
             || a.CountAttempt?
    ensures Inv(Next(s, a))
  {
    RelayStepFrame(s, a);
    QueueKeepsInv(s, Next(s, a), 0);
  }

  lemma ForeignFrame(s: State, msg: nat, body: Body)
    ensures var s' := Next(s, ForeignPublish(msg, body));
            && s'.handlers == s.handlers && s'.store == s.store && s'.outbox == s.outbox
            && s'.broker.confirmed == s.broker.confirmed
            && (s'.broker.messages == s.broker.messages
                || (msg !in s.broker.messages && !Real(body)
                    && s'.broker.messages == s.broker.messages[msg := Message(body, Queued)]))
  {
  }

  lemma ForeignKeepsInv(s: State, msg: nat, body: Body)
    requires Inv(s)
    ensures Inv(Next(s, ForeignPublish(msg, body)))
  {
    ForeignFrame(s, msg, body);
    QueueKeepsInv(s, Next(s, ForeignPublish(msg, body)), msg);
  }

  lemma PlaceStep(s: State, row: nat, event: Event, createdAt: int)
    requires Inv(s)
    ensures Inv(Next(s, PlaceOrder(row, event, createdAt)))
  {
    if FreshOrder(s.outbox, row, event) {
      PlaceKeepsInv(s, row, event, createdAt);
    }
  }

  lemma PublishStep(s: State, r: nat, msg: nat, outcome: PublishOutcome)
    requires Inv(s) && Relays.Inv(s)
    ensures Inv(Next(s, Publish(r, msg, outcome)))
  {
    if MayPublish(s, r, msg) {
      PublishKeepsInv(s, r, msg, outcome);
    }
  }

  lemma DeliverStep(s: State, tag: nat, msg: nat, channel: nat)
    requires Inv(s)
    ensures Inv(Next(s, Deliver(tag, msg, channel)))
  {
    if msg in s.broker.messages && s.broker.messages[msg].place.Queued? && tag !in s.handlers {
      DeliverKeepsInv(s, tag, msg, channel);
    }
  }

  lemma HandleStep(s: State, tag: nat, outcome: Outcome)
    requires Inv(s)
    ensures Inv(Next(s, Handle(tag, outcome)))
  {
    if tag in s.handlers {
      HandleKeepsInv(s, tag, outcome);
    }
  }

  lemma StepKeepsInv(s: State, a: Action)
    requires Inv(s) && Relays.Inv(s)
    ensures Inv(Next(s, a))
  {
    match a
    case PlaceOrder(row, event, createdAt) => PlaceStep(s, row, event, createdAt);
    case Publish(r, msg, outcome) => PublishStep(s, r, msg, outcome);
    case ForeignPublish(msg, body) => ForeignKeepsInv(s, msg, body);
    case Deliver(tag, msg, channel) => DeliverStep(s, tag, msg, channel);
    case Handle(tag, outcome) => HandleStep(s, tag, outcome);
    case CloseChannel(channel, dies) => CloseKeepsInv(s, channel, dies);
    case _ => RelayStepKeepsInv(s, a);
  }

  lemma {:induction false} ExecKeepsInv(init: State, actions: seq<Action>)
    requires Initial(init)
    ensures Inv(Exec(init, actions))
  {
    if actions != [] {
      Relays.ExecKeepsInv(init, actions[..|actions| - 1]);
      ExecKeepsInv(init, actions[..|actions| - 1]);
      StepKeepsInv(Exec(init, actions[..|actions| - 1]), actions[|actions| - 1]);
    }
  }
}
