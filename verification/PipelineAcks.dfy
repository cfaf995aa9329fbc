/** The `acked` mark of an effect, against the acks that were really sent. */
module PipelineAcks {
  import opened Pipeline
  import opened PipelineConsumer

  /** Some delivery of the event was acked. */
  ghost predicate WasAcked(messages: map<nat, Message>, eventId: nat)
  {
    exists m :: m in messages && messages[m].place.Acked? && messages[m].body.Valid?
                && messages[m].body.event.eventId == eventId
  }

  /** Acked messages stay acked. */
  ghost predicate AcksStay(before: map<nat, Message>, after: map<nat, Message>)
  {
    forall m :: m in before && before[m].place.Acked? ==> m in after && after[m] == before[m]
  }

  /** Some handler of the event sent an ack. */
  ghost predicate WasSent(handlers: map<nat, Handler>, eventId: nat)
  {
    exists tag :: tag in handlers && handlers[tag].sentAck && handlers[tag].body.Valid?
                  && handlers[tag].body.event.eventId == eventId
  }

  /** Handlers keep their bodies, and what they sent stays sent. */
  ghost predicate SentStays(before: map<nat, Handler>, after: map<nat, Handler>)
  {
    forall tag :: tag in before ==>
      tag in after && after[tag].body == before[tag].body && (before[tag].sentAck ==> after[tag].sentAck)
  }

  /** `arrive`: whether every ack of the run has reached the broker. */
  ghost predicate HandlersAcked(messages: map<nat, Message>, handlers: map<nat, Handler>, arrive: bool)
  {
    forall tag :: tag in handlers && handlers[tag].stage.AckSent? ==>
      && handlers[tag].sentAck
      && (arrive ==> handlers[tag].msg in messages && messages[handlers[tag].msg].place.Acked?)
  }

  ghost predicate Evidence(messages: map<nat, Message>, handlers: map<nat, Handler>, arrive: bool, eventId: nat)
  {
    WasSent(handlers, eventId) && (arrive ==> WasAcked(messages, eventId))
  }

  ghost predicate MarksAcked(messages: map<nat, Message>, handlers: map<nat, Handler>, effects: map<nat, Effect>,
                             arrive: bool)
  {
    forall id :: id in effects && effects[id].acked ==> Evidence(messages, handlers, arrive, id)
  }

  ghost predicate AckInv(s: State, arrive: bool)
  {
    && HandlersAcked(s.broker.messages, s.handlers, arrive)
    && MarksAcked(s.broker.messages, s.handlers, s.store.effects, arrive)
  }

  lemma WasSentStays(before: map<nat, Handler>, after: map<nat, Handler>, eventId: nat)
    requires SentStays(before, after) && WasSent(before, eventId)
    ensures WasSent(after, eventId)
  {
    var tag :| tag in before && before[tag].sentAck && before[tag].body.Valid?
               && before[tag].body.event.eventId == eventId;
    assert after[tag].sentAck;
  }

  lemma WasAckedStays(before: map<nat, Message>, after: map<nat, Message>, eventId: nat)
    requires AcksStay(before, after) && WasAcked(before, eventId)
    ensures WasAcked(after, eventId)
  {
    var m :| m in before && before[m].place.Acked? && before[m].body.Valid? && before[m].body.event.eventId == eventId;
    assert after[m].place.Acked?;
  }

  lemma EvidenceStays(before: State, after: State, arrive: bool, eventId: nat)
    requires AcksStay(before.broker.messages, after.broker.messages) && SentStays(before.handlers, after.handlers)
    requires Evidence(before.broker.messages, before.handlers, arrive, eventId)
    ensures Evidence(after.broker.messages, after.handlers, arrive, eventId)
  {
    WasSentStays(before.handlers, after.handlers, eventId);
    if arrive {
      WasAckedStays(before.broker.messages, after.broker.messages, eventId);
    }
  }

  /** Nothing is marked that was not. */
  ghost predicate NoNewMarks(before: map<nat, Effect>, after: map<nat, Effect>)
  {
    forall id :: id in after && after[id].acked ==> id in before && before[id].acked
  }

  lemma MarksStay(s: State, s': State, arrive: bool)
    requires AcksStay(s.broker.messages, s'.broker.messages) && SentStays(s.handlers, s'.handlers)
    requires MarksAcked(s.broker.messages, s.handlers, s.store.effects, arrive)
    requires NoNewMarks(s.store.effects, s'.store.effects)
    ensures MarksAcked(s'.broker.messages, s'.handlers, s'.store.effects, arrive)
  {
    forall id | id in s'.store.effects && s'.store.effects[id].acked
      ensures Evidence(s'.broker.messages, s'.handlers, arrive, id)
    {
      EvidenceStays(s, s', arrive, id);
    }
  }

  /** Marks unchanged, and no handler newly past its ack. */
  ghost predicate NoNewAcks(s: State, s': State)
  {
    && AcksStay(s.broker.messages, s'.broker.messages) && SentStays(s.handlers, s'.handlers)
    && NoNewMarks(s.store.effects, s'.store.effects)
    && (forall tag :: tag in s'.handlers && s'.handlers[tag].stage.AckSent? ==>
          tag in s.handlers && s'.handlers[tag] == s.handlers[tag])
  }

  lemma NoNewAcksKeeps(s: State, s': State, arrive: bool)
    requires AckInv(s, arrive) && NoNewAcks(s, s')
    ensures AckInv(s', arrive)
  {
    MarksStay(s, s', arrive);
  }

  lemma SettledKeepsAck(s: State, tag: nat, place: Place, arrive: bool)
    requires AckInv(s, arrive) && tag in s.handlers
    ensures AckInv(Settled(s, tag, place), arrive)
  {
    MarksStay(s, Settled(s, tag, place), arrive);
  }

  lemma AckLostKeepsAck(s: State, tag: nat)
    requires AckInv(s, false) && tag in s.handlers
    ensures AckInv(AckLost(s, tag), false)
  {
    MarksStay(s, AckLost(s, tag), false);
  }

  lemma StoreKeepsAck(s: State, store: Store, arrive: bool)
    requires AckInv(s, arrive) && NoNewMarks(s.store.effects, store.effects)
    ensures AckInv(WithStore(s, store), arrive)
  {
    NoNewAcksKeeps(s, WithStore(s, store), arrive);
  }

  lemma StageKeepsAck(s: State, tag: nat, stage: Stage, arrive: bool)
    requires AckInv(s, arrive) && tag in s.handlers && !stage.AckSent?
    ensures AckInv(WithStage(s, tag, stage), arrive)
  {
    NoNewAcksKeeps(s, WithStage(s, tag, stage), arrive);
  }

  lemma HandleReceivedKeepsAck(s: State, tag: nat, outcome: Outcome, arrive: bool)
    requires AckInv(s, arrive) && tag in s.handlers
    ensures AckInv(HandleReceived(s, tag, outcome), arrive)
  {
    match s.handlers[tag].body
    case Malformed => SettledKeepsAck(s, tag, DeadLettered, arrive);
    case Valid(event) =>
      var store := s.store.(deliveries := s.store.deliveries + [event.eventId]);
      StoreKeepsAck(s, store, arrive);
      match outcome
      case Fine => StageKeepsAck(WithStore(s, store), tag, Recorded, arrive);
      case Fails(committed, transient) =>
        var kept := if committed then WithStore(s, store) else s;
        SettledKeepsAck(kept, tag, if transient then Queued else DeadLettered, arrive);
  }

  lemma HandleRecordedKeepsAck(s: State, tag: nat, outcome: Outcome, arrive: bool)
    requires AckInv(s, arrive) && tag in s.handlers
    ensures AckInv(HandleRecorded(s, tag, outcome), arrive)
  {
    match s.handlers[tag].body
    case Malformed =>
    case Valid(event) =>
      if event.poison {
        SettledKeepsAck(s, tag, DeadLettered, arrive);
      } else {
        var first, inserted := event.eventId !in s.store.effects, Inserted(s.store, event);
        match outcome
        case Fine =>
          var store := if first then inserted.(applies := s.store.applies + 1) else inserted;
          StoreKeepsAck(s, store, arrive);
          StageKeepsAck(WithStore(s, store), tag, Applied, arrive);
        case Fails(committed, transient) =>
          var store := if first then inserted.(unheard := s.store.unheard + 1) else inserted;
          StoreKeepsAck(s, store, arrive);
          var kept := if committed then WithStore(s, store) else s;
          SettledKeepsAck(kept, tag, if transient then Queued else DeadLettered, arrive);
      }
  }

  /** A handler past its ack may mark its own event. */
  lemma MarkKeepsAck(s: State, tag: nat, eventId: nat, arrive: bool)
    requires Inv(s) && AckInv(s, arrive) && tag in s.handlers && s.handlers[tag].stage.AckSent?
    requires s.handlers[tag].body.Valid? && s.handlers[tag].body.event.eventId == eventId
    ensures AckInv(WithStore(s, MarkedAcked(s.store, eventId)), arrive)
  {
    assert HandlerOk(s, s.handlers[tag]);
    assert WasSent(s.handlers, eventId);
    assert arrive ==> WasAcked(s.broker.messages, eventId);
  }

  lemma HandleAckSentKeepsAck(s: State, tag: nat, outcome: Outcome, arrive: bool)
    requires Inv(s) && AckInv(s, arrive) && tag in s.handlers && s.handlers[tag].stage.AckSent?
    ensures AckInv(HandleAckSent(s, tag, outcome), arrive)
  {
    if s.handlers[tag].body.Valid? {
      var eventId := s.handlers[tag].body.event.eventId;
      MarkKeepsAck(s, tag, eventId, arrive);
      var marked := WithStore(s, MarkedAcked(s.store, eventId));
      match outcome
      case Fine => StageKeepsAck(marked, tag, Done, arrive);
      case Fails(committed, _) =>
        NoNewAcksKeeps(if committed then marked else s, HandleAckSent(s, tag, outcome), arrive);
    }
  }

  /** A handler's ack that is written but does not reach the broker. */
  predicate LosesAck(s: State, a: Action)
  {
    a.Handle? && a.tag in s.handlers && s.handlers[a.tag].stage.Applied? && a.ended.Fails?
  }

  lemma HandleKeepsAck(s: State, tag: nat, outcome: Outcome, arrive: bool)
    requires Inv(s) && AckInv(s, arrive) && tag in s.handlers && (arrive ==> !LosesAck(s, Handle(tag, outcome)))
    ensures AckInv(HandleOne(s, tag, outcome), arrive)
  {
    match s.handlers[tag].stage
    case Received => HandleReceivedKeepsAck(s, tag, outcome, arrive);
    case Recorded => HandleRecordedKeepsAck(s, tag, outcome, arrive);
    case Applied => if outcome.Fine? { SettledKeepsAck(s, tag, Acked, arrive); } else { AckLostKeepsAck(s, tag); }
    case AckSent => HandleAckSentKeepsAck(s, tag, outcome, arrive);
    case _ =>
  }

  lemma OthersAckNothing(s: State, a: Action)
    requires !a.Handle?
    ensures NoNewAcks(s, Next(s, a))
  {
  }

  lemma StepKeepsAck(s: State, a: Action, arrive: bool)
    requires Inv(s) && AckInv(s, arrive) && (arrive ==> !LosesAck(s, a))
    ensures AckInv(Next(s, a), arrive)
  {
    if !a.Handle? {
      OthersAckNothing(s, a);
      NoNewAcksKeeps(s, Next(s, a), arrive);
    } else if a.tag in s.handlers {
      HandleKeepsAck(s, a.tag, a.ended, arrive);
    }
  }

  /** No ack of the run is lost. */
  ghost predicate AcksArrive(init: State, actions: seq<Action>)
  {
    actions != [] ==>
      var n := |actions| - 1;
      AcksArrive(init, actions[..n]) && !LosesAck(Exec(init, actions[..n]), actions[n])
  }

  lemma {:induction false} ExecKeepsAck(init: State, actions: seq<Action>, arrive: bool)
    requires Initial(init) && (arrive ==> AcksArrive(init, actions))
    ensures AckInv(Exec(init, actions), arrive)
  {
    if actions != [] {
      ExecKeepsAck(init, actions[..|actions| - 1], arrive);
      PipelineConsumer.ExecKeepsInv(init, actions[..|actions| - 1]);
      StepKeepsAck(Exec(init, actions[..|actions| - 1]), actions[|actions| - 1], arrive);
    }
  }

  /**
   An effect marked as acked had a handler that sent its ack: the mark never runs ahead of the ack. If no ack was lost
   on its way, a delivery of it is acked in the broker.
   */
  lemma MarkedMeansAcked(init: State, actions: seq<Action>, id: nat)
    requires Initial(init)
    requires var s := Exec(init, actions); id in s.store.effects && s.store.effects[id].acked
    ensures WasSent(Exec(init, actions).handlers, id)
    ensures AcksArrive(init, actions) ==> WasAcked(Exec(init, actions).broker.messages, id)
  {
    ExecKeepsAck(init, actions, false);
    if AcksArrive(init, actions) {
      ExecKeepsAck(init, actions, true);
    }
  }

  /** A lost ack: the handler goes on and marks its effect, and nothing is acked. */
  lemma LostAckIsMarked(init: State, actions: seq<Action>, tag: nat, lost: Outcome)
    requires Initial(init) && lost.Fails?
    requires var s := Exec(init, actions);
             && tag in s.handlers && s.handlers[tag].stage.Applied?
             && s.handlers[tag].body.Valid? && !WasAcked(s.broker.messages, s.handlers[tag].body.event.eventId)
    ensures var s := Exec(init, actions);
            var id := s.handlers[tag].body.event.eventId;
            var marked := Next(Next(s, Handle(tag, lost)), Handle(tag, Fine));
            id in marked.store.effects && marked.store.effects[id].acked && !WasAcked(marked.broker.messages, id)
  {
    PipelineConsumer.ExecKeepsInv(init, actions);
    var s := Exec(init, actions);
    assert HandlerOk(s, s.handlers[tag]);
    RequeueAcksNothing(s.broker, s.handlers[tag].channel, s.handlers[tag].body.event.eventId);
  }

  lemma RequeueAcksNothing(broker: Broker, channel: nat, eventId: nat)
    requires !WasAcked(broker.messages, eventId)
    ensures !WasAcked(Requeued(broker, channel).messages, eventId)
  {
  }
}
