/** The main results about delivery, for every sequence of actions from an empty system. */
module PipelineTheorems {
  import opened Prelude
  import opened Finite
  import opened Pipeline
  import opened PipelineConsumer
  import Acks = PipelineAcks

  // ----- nothing is lost once the queue is bound

  ghost predicate AllKept(broker: Broker)
  {
    broker.bound && forall event :: event in broker.confirmed ==> Kept(broker.messages, event)
  }

  ghost predicate SameBodies(before: map<nat, Message>, after: map<nat, Message>)
  {
    forall m :: m in before ==> m in after && after[m].body == before[m].body
  }

  lemma KeptStays(before: map<nat, Message>, after: map<nat, Message>, event: Event)
    requires SameBodies(before, after) && Kept(before, event)
    ensures Kept(after, event)
  {
    var m :| m in before && before[m].body == Valid(event);
    assert after[m].body == Valid(event);
  }

  lemma AcceptKeepsAll(broker: Broker, msg: nat, event: Event)
    requires AllKept(broker) && msg !in broker.messages
    ensures AllKept(Accept(broker, msg, event))
  {
    var broker' := Accept(broker, msg, event);
    forall e | e in broker'.confirmed ensures Kept(broker'.messages, e) {
      if e == event {
        assert broker'.messages[msg].body == Valid(event);
      } else {
        KeptStays(broker.messages, broker'.messages, e);
      }
    }
  }

  ghost predicate SameBooks(s: State, s': State)
  {
    && SameBodies(s.broker.messages, s'.broker.messages)
    && s'.broker.bound == s.broker.bound && s'.broker.confirmed == s.broker.confirmed
  }

  lemma HandleKeepsBodies(s: State, tag: nat, outcome: Outcome)
    requires tag in s.handlers
    ensures SameBooks(s, HandleOne(s, tag, outcome))
  {
    HandleLater(s, tag, outcome);
    Relays.HandlersLeaveOutbox(s, tag, outcome);
  }

  lemma StepKeepsBodies(s: State, a: Action)
    ensures SameBodies(s.broker.messages, Next(s, a).broker.messages)
    ensures s.broker.bound ==> Next(s, a).broker.bound
    ensures !a.Publish? ==> Next(s, a).broker.confirmed == s.broker.confirmed
  {
    if a.Handle? && a.tag in s.handlers {
      HandleKeepsBodies(s, a.tag, a.ended);
    }
  }

  lemma StepKeepsAll(s: State, a: Action)
    requires AllKept(s.broker)
    ensures AllKept(Next(s, a).broker)
  {
    if a.Publish? {
      if MayPublish(s, a.relay, a.msg) {
        AcceptKeepsAll(s.broker, a.msg, s.outbox.rows[NextRow(s.relays[a.relay])].event);
      }
    } else {
      StepKeepsBodies(s, a);
      var before, after := s.broker.messages, Next(s, a).broker.messages;
      forall e | e in s.broker.confirmed ensures Kept(after, e) {
        KeptStays(before, after, e);
      }
    }
  }

  lemma {:induction false} ExecKeepsAll(init: State, actions: seq<Action>)
    requires Initial(init) && init.broker.bound
    ensures AllKept(Exec(init, actions).broker)
  {
    if actions != [] {
      ExecKeepsAll(init, actions[..|actions| - 1]);
      StepKeepsAll(Exec(init, actions[..|actions| - 1]), actions[|actions| - 1]);
    }
  }

  /** In the work queue, out for delivery, or in the dead-letter queue. */
  ghost predicate InBroker(s: State, event: Event)
  {
    exists m :: m in s.broker.messages && IsOut(s.broker.messages[m], event)
  }

  predicate IsOut(message: Message, event: Event)
  {
    message.body == Valid(event) && !message.place.Acked?
  }

  lemma KeptIsSomewhere(s: State, event: Event)
    requires Inv(s) && Kept(s.broker.messages, event)
    ensures InBroker(s, event) || event.eventId in s.store.effects
  {
    var m :| m in s.broker.messages && s.broker.messages[m].body == Valid(event);
    assert MessageOk(s, m);
  }

  /**
   End to end, with the queue bound first: in every reachable state, each committed order has its event in an
   unpublished outbox row, in the broker, or applied.
   */
  lemma NoOrderIsLost(init: State, actions: seq<Action>, order: nat)
    requires Initial(init) && init.broker.bound && order in Exec(init, actions).outbox.orders
    ensures var s := Exec(init, actions);
            var row := s.outbox.orders[order];
            && row in s.outbox.rows
            && var event := s.outbox.rows[row].event;
               && event.orderId == order
               && (row !in s.outbox.published || InBroker(s, event) || event.eventId in s.store.effects)
  {
    var s := Exec(init, actions);
    Relays.ExecKeepsInv(init, actions);
    ExecKeepsInv(init, actions);
    ExecKeepsAll(init, actions);
    var event := s.outbox.rows[s.outbox.orders[order]].event;
    if s.outbox.orders[order] in s.outbox.published {
      KeptIsSomewhere(s, event);
    }
  }

  /** This step is a publish of the event that the broker accepts while the queue is bound. */
  ghost predicate AcceptedWhileBound(s: State, a: Action, event: Event)
  {
    && a.Publish? && MayPublish(s, a.relay, a.msg) && !a.outcome.FailedAndLost? && s.broker.bound
    && s.outbox.rows[NextRow(s.relays[a.relay])].event == event
  }

  ghost predicate SameMessages(s: State, s': State)
  {
    s'.broker.messages.Keys == s.broker.messages.Keys && SameBodies(s.broker.messages, s'.broker.messages)
  }

  lemma HandleAddsNoMessage(s: State, tag: nat, outcome: Outcome)
    requires Inv(s) && tag in s.handlers
    ensures SameMessages(s, HandleOne(s, tag, outcome))
  {
    HandleKeepsBodies(s, tag, outcome);
    assert HandlerOk(s, s.handlers[tag]);
  }

  lemma KeptBySame(s: State, s': State, event: Event)
    requires SameMessages(s, s')
    ensures Kept(s'.broker.messages, event) <==> Kept(s.broker.messages, event)
  {
    if Kept(s.broker.messages, event) {
      KeptStays(s.broker.messages, s'.broker.messages, event);
    }
    if Kept(s'.broker.messages, event) {
      var m :| m in s'.broker.messages && s'.broker.messages[m].body == Valid(event);
      assert s.broker.messages[m].body == Valid(event);
    }
  }

  lemma KeptByPublish(s: State, a: Action, event: Event)
    requires a.Publish?
    ensures Kept(Next(s, a).broker.messages, event)
            <==> Kept(s.broker.messages, event) || AcceptedWhileBound(s, a, event)
  {
    var before, after := s.broker.messages, Next(s, a).broker.messages;
    if Kept(before, event) {
      KeptStays(before, after, event);
    } else if AcceptedWhileBound(s, a, event) {
      assert after[a.msg].body == Valid(event);
    }
  }

  lemma KeptByForeign(s: State, msg: nat, body: Body, event: Event)
    requires !event.poison
    ensures Kept(Next(s, ForeignPublish(msg, body)).broker.messages, event) <==> Kept(s.broker.messages, event)
  {
    var before, after := s.broker.messages, Next(s, ForeignPublish(msg, body)).broker.messages;
    if Kept(before, event) {
      KeptStays(before, after, event);
    }
    if Kept(after, event) {
      var m :| m in after && after[m].body == Valid(event);
      assert m in before && before[m].body == Valid(event);
    }
  }

  lemma OthersAddNoMessage(s: State, a: Action)
    requires !a.Publish? && !a.ForeignPublish? && !a.Handle?
    ensures SameMessages(s, Next(s, a))
  {
  }

  lemma KeptStep(s: State, a: Action, event: Event)
    requires Inv(s) && !event.poison
    ensures Kept(Next(s, a).broker.messages, event)
            <==> Kept(s.broker.messages, event) || AcceptedWhileBound(s, a, event)
  {
    if a.Publish? {
      KeptByPublish(s, a, event);
    } else if a.ForeignPublish? {
      KeptByForeign(s, a.msg, a.body, event);
    } else {
      if a.Handle? {
        if a.tag in s.handlers {
          HandleAddsNoMessage(s, a.tag, a.ended);
        }
      } else {
        OthersAddNoMessage(s, a);
      }
      KeptBySame(s, Next(s, a), event);
    }
  }

  /** Some step of the run was a publish of the event that the broker accepted while the queue was bound. */
  ghost predicate EverAccepted(init: State, actions: seq<Action>, event: Event)
  {
    actions != [] &&
    var n := |actions| - 1;
    EverAccepted(init, actions[..n], event) || AcceptedWhileBound(Exec(init, actions[..n]), actions[n], event)
  }

  lemma {:induction false} KeptHistory(init: State, actions: seq<Action>, event: Event)
    requires Initial(init) && !event.poison
    ensures Kept(Exec(init, actions).broker.messages, event) <==> EverAccepted(init, actions, event)
  {
    if actions != [] {
      var n := |actions| - 1;
      KeptHistory(init, actions[..n], event);
      ExecKeepsInv(init, actions[..n]);
      KeptStep(Exec(init, actions[..n]), actions[n], event);
    }
  }

  /**
   Without that assumption, the exact condition: an order's event is in the broker or applied if and only if some
   publish of it was accepted after the queue was bound.
   */
  lemma SafeExactlyIfBoundInTime(init: State, actions: seq<Action>, row: nat)
    requires Initial(init) && row in Exec(init, actions).outbox.rows
    ensures var s := Exec(init, actions);
            var event := s.outbox.rows[row].event;
            (InBroker(s, event) || event.eventId in s.store.effects) <==> EverAccepted(init, actions, event)
  {
    var s := Exec(init, actions);
    var event := s.outbox.rows[row].event;
    Relays.ExecKeepsInv(init, actions);
    ExecKeepsInv(init, actions);
    KeptHistory(init, actions, event);
    SomewhereIsKept(s, row);
    if Kept(s.broker.messages, event) {
      KeptIsSomewhere(s, event);
    }
  }

  lemma SomewhereIsKept(s: State, row: nat)
    requires Relays.Inv(s) && Inv(s) && row in s.outbox.rows
    ensures var event := s.outbox.rows[row].event;
            InBroker(s, event) || event.eventId in s.store.effects ==> Kept(s.broker.messages, event)
  {
    var event := s.outbox.rows[row].event;
    if event.eventId in s.store.effects {
      assert EffectOk(s, event.eventId);
    } else if InBroker(s, event) {
      var m :| m in s.broker.messages && IsOut(s.broker.messages[m], event);
    }
  }

  // A relay that runs before the topology is declared.

  const PLACED := Event(7, 1, "u", false)
  const TABLE := Outbox(map[1 := 0], map[0 := Row(PLACED, 0)], {}, map[0 := 0], [], {}, 0, 0)
  const NO_STORE := Store(map[], {}, [], 0, 0)
  const NO_BROKER := Broker(false, map[], {}, {})
  const LOST_0 := State(Outbox(map[], map[], {}, map[], [], {}, 0, 0), map[], NO_BROKER, map[], NO_STORE)
  const LOST_1 := LOST_0.(outbox := TABLE)
  const LOST_2 := LOST_1.(relays := map[0 := Publishing([0], [], None)])
  const LOST_3 := LOST_2.(outbox := TABLE.(tries := [0]), relays := map[0 := Publishing([0], [], Some(0))],
                          broker := NO_BROKER.(confirmed := {PLACED}))
  const LOST_4 := LOST_3.(relays := map[0 := Publishing([0], [0], None)])
  const LOST_5 := LOST_4.(outbox := Outbox(map[1 := 0], map[0 := Row(PLACED, 0)], {0}, map[0 := 1], [0], {0}, 1, 0),
                          relays := map[0 := Idle])

  lemma LosingClaim()
    ensures Next(LOST_1, Claim(0, [0], 20, None)) == LOST_2
  {
    assert Eligible(LOST_1.outbox, LOST_1.relays, None, 0);
    assert IsClaim(LOST_1.outbox, LOST_1.relays, [0], 20, None);
  }

  lemma LosingFinish()
    ensures Next(LOST_4, Finish(0, true)) == LOST_5
  {
    assert SetOf([0]) == {0} by {
      assert [0][0] in SetOf([0]);
    }
    assert Bumped(map[0 := 0], [0]) == map[0 := 1];
  }

  lemma ExecSnoc(s: State, actions: seq<Action>, a: Action)
    ensures Exec(s, actions + [a]) == Next(Exec(s, actions), a)
  {
    assert (actions + [a])[..|actions|] == actions;
  }

  /** Published before the topology exists, an event is confirmed, marked published, and nowhere. */
  lemma PublishBeforeTopologyLoses(actions: seq<Action>)
    requires actions == [PlaceOrder(0, PLACED, 0)] + [Claim(0, [0], 20, None)] + [Publish(0, 0, Confirmed)]
                        + [Mark(0)] + [Finish(0, true)]
    ensures var s := Exec(LOST_0, actions);
            && Initial(LOST_0) && 0 in s.outbox.rows && s.outbox.rows[0].event == PLACED
            && 0 in s.outbox.published && !InBroker(s, PLACED) && PLACED.eventId !in s.store.effects
  {
    var a0: seq<Action> := [];
    var a1 := a0 + [PlaceOrder(0, PLACED, 0)];
    var a2 := a1 + [Claim(0, [0], 20, None)];
    var a3 := a2 + [Publish(0, 0, Confirmed)];
    var a4 := a3 + [Mark(0)];
    ExecSnoc(LOST_0, a0, PlaceOrder(0, PLACED, 0));
    assert Next(LOST_0, PlaceOrder(0, PLACED, 0)) == LOST_1;
    ExecSnoc(LOST_0, a1, Claim(0, [0], 20, None));
    LosingClaim();
    ExecSnoc(LOST_0, a2, Publish(0, 0, Confirmed));
    assert Next(LOST_2, Publish(0, 0, Confirmed)) == LOST_3;
    ExecSnoc(LOST_0, a3, Mark(0));
    assert Next(LOST_3, Mark(0)) == LOST_4;
    ExecSnoc(LOST_0, a4, Finish(0, true));
    LosingFinish();
    assert actions == a4 + [Finish(0, true)];
  }

  // ----- one effect per order

  /** Every effect belongs to a committed order, under that order's event id, and no order has two. */
  lemma OneEffectPerOrder(init: State, actions: seq<Action>)
    requires Initial(init)
    ensures var s := Exec(init, actions);
            && (forall id :: id in s.store.effects ==>
                  var order := s.store.effects[id].orderId;
                  && order in s.outbox.orders && s.outbox.orders[order] in s.outbox.rows
                  && s.outbox.rows[s.outbox.orders[order]].event.eventId == id)
            && (forall a, b :: a in s.store.effects && b in s.store.effects && a != b ==>
                  s.store.effects[a].orderId != s.store.effects[b].orderId)
  {
    var s := Exec(init, actions);
    ExecKeepsInv(init, actions);
    forall id | id in s.store.effects
      ensures var order := s.store.effects[id].orderId;
              && order in s.outbox.orders && s.outbox.orders[order] in s.outbox.rows
              && s.outbox.rows[s.outbox.orders[order]].event.eventId == id
    {
      assert EffectOk(s, id);
    }
  }

  // ----- bookkeeping

  /**
   In every reachable state: an event is in the inbox exactly when it is in effects; effects never outnumber
   recorded deliveries; and the first-delivery reports, plus those lost with a connection, are the effects.
   */
  lemma Bookkeeping(init: State, actions: seq<Action>)
    requires Initial(init)
    ensures var store := Exec(init, actions).store;
            && store.inbox == store.effects.Keys
            && |store.effects| <= |store.deliveries|
            && store.applies + store.unheard == |store.effects|
            && forall id :: id in store.effects ==> id in store.deliveries
  {
    var s := Exec(init, actions);
    ExecKeepsInv(init, actions);
    forall id | id in s.store.effects ensures id in s.store.deliveries {
      assert EffectOk(s, id);
    }
    ElementsFit(s.store.effects.Keys, s.store.deliveries);
  }

  /** A message is acked only after its effect committed, whichever handler acked it. */
  lemma AckedMeansApplied(init: State, actions: seq<Action>, m: nat)
    requires Initial(init) && m in Exec(init, actions).broker.messages
    ensures var s := Exec(init, actions);
            s.broker.messages[m].place.Acked? ==>
              s.broker.messages[m].body.Valid? && s.broker.messages[m].body.event.eventId in s.store.effects
  {
    ExecKeepsInv(init, actions);
    assert MessageOk(Exec(init, actions), m);
  }

  /** A handler run that came to its end settled its delivery once; twice exactly if `markAcked` threw. */
  lemma SettlesOnce(init: State, actions: seq<Action>, tag: nat)
    requires Initial(init) && tag in Exec(init, actions).handlers
    ensures var h := Exec(init, actions).handlers[tag];
            && (h.stage.Done? ==> h.settles == if h.markFailed then 2 else 1)
            && (Open(h.stage) ==> h.settles == 0)
            && h.settles <= 2
  {
    ExecKeepsInv(init, actions);
    assert HandlerOk(Exec(init, actions), Exec(init, actions).handlers[tag]);
  }

  // ----- settling twice

  /** Messages keep their bodies, acked ones stay acked, and effects keep their orders. */
  ghost predicate Later(s: State, s': State)
  {
    && SameBodies(s.broker.messages, s'.broker.messages)
    && Acks.AcksStay(s.broker.messages, s'.broker.messages)
    && forall id :: id in s.store.effects ==>
         id in s'.store.effects && s'.store.effects[id].orderId == s.store.effects[id].orderId
  }

  lemma SettledLater(s: State, tag: nat, place: Place)
    requires tag in s.handlers
    ensures Later(s, Settled(s, tag, place))
  {
  }

  lemma StoreLater(s: State, store: Store)
    requires forall id :: id in s.store.effects ==>
               id in store.effects && store.effects[id].orderId == s.store.effects[id].orderId
    ensures Later(s, WithStore(s, store))
  {
  }

  lemma LaterTransitive(s: State, mid: State, s': State)
    requires Later(s, mid) && Later(mid, s')
    ensures Later(s, s')
  {
  }

  lemma StoreThenSettled(s: State, store: Store, tag: nat, place: Place)
    requires tag in s.handlers
    requires forall id :: id in s.store.effects ==>
               id in store.effects && store.effects[id].orderId == s.store.effects[id].orderId
    ensures Later(s, Settled(WithStore(s, store), tag, place))
  {
    StoreLater(s, store);
    SettledLater(WithStore(s, store), tag, place);
    LaterTransitive(s, WithStore(s, store), Settled(WithStore(s, store), tag, place));
  }

  lemma ReceivedLater(s: State, tag: nat, outcome: Outcome)
    requires tag in s.handlers
    ensures Later(s, HandleReceived(s, tag, outcome))
  {
    match s.handlers[tag].body
    case Malformed => SettledLater(s, tag, DeadLettered);
    case Valid(event) =>
      var store := s.store.(deliveries := s.store.deliveries + [event.eventId]);
      if outcome.Fails? {
        StoreThenSettled(s, if outcome.committed then store else s.store, tag,
                         if outcome.transient then Queued else DeadLettered);
        assert WithStore(s, s.store) == s;
      }
  }

  lemma RecordedLater(s: State, tag: nat, outcome: Outcome)
    requires tag in s.handlers
    ensures Later(s, HandleRecorded(s, tag, outcome))
  {
    match s.handlers[tag].body
    case Malformed =>
    case Valid(event) =>
      SettledLater(s, tag, DeadLettered);
      if outcome.Fails? {
        var first, inserted := event.eventId !in s.store.effects, Inserted(s.store, event);
        var unheard := if first then inserted.(unheard := s.store.unheard + 1) else inserted;
        StoreThenSettled(s, if outcome.committed then unheard else s.store, tag,
                         if outcome.transient then Queued else DeadLettered);
        assert WithStore(s, s.store) == s;
      }
  }

  lemma AckSentLater(s: State, tag: nat, outcome: Outcome)
    requires tag in s.handlers
    ensures Later(s, HandleAckSent(s, tag, outcome))
  {
  }

  lemma AckLostLater(s: State, tag: nat)
    requires tag in s.handlers
    ensures Later(s, AckLost(s, tag))
  {
  }

  lemma HandleLater(s: State, tag: nat, outcome: Outcome)
    requires tag in s.handlers
    ensures Later(s, HandleOne(s, tag, outcome))
  {
    match s.handlers[tag].stage
    case Received => ReceivedLater(s, tag, outcome);
    case Recorded => RecordedLater(s, tag, outcome);
    case Applied => if outcome.Fine? { SettledLater(s, tag, Acked); } else { AckLostLater(s, tag); }
    case AckSent => AckSentLater(s, tag, outcome);
    case _ =>
  }

  lemma OthersLeaveStore(s: State, a: Action)
    requires !a.Handle?
    ensures Next(s, a).store == s.store
  {
  }

  lemma StepLater(s: State, a: Action)
    ensures Later(s, Next(s, a))
  {
    if a.Handle? {
      if a.tag in s.handlers {
        HandleLater(s, a.tag, a.ended);
      }
    } else {
      StepKeepsBodies(s, a);
      Acks.OthersAckNothing(s, a);
      OthersLeaveStore(s, a);
    }
  }

  lemma {:induction false} ExecLater(init: State, actions: seq<Action>, more: seq<Action>)
    ensures Later(Exec(init, actions), Exec(init, actions + more))
  {
    if more == [] {
      assert actions + more == actions;
      LaterSame(Exec(init, actions));
    } else {
      var n := |more| - 1;
      var run := actions + more[..n];
      ExecLater(init, actions, more[..n]);
      assert actions + more == run + [more[n]];
      ExecSnoc(init, run, more[n]);
      StepLater(Exec(init, run), more[n]);
      LaterTransitive(Exec(init, actions), Exec(init, run), Next(Exec(init, run), more[n]));
    }
  }

  lemma LaterSame(s: State)
    ensures Later(s, s)
  {
  }

  predicate OutOn(message: Message, channel: nat)
  {
    message.place.Unacked? && message.place.channel == channel
  }

  /** What the broker does when a handler past its ack settles again. */
  lemma SecondSettle(s: State, tag: nat, outcome: Outcome, m: nat)
    requires Inv(s) && tag in s.handlers && s.handlers[tag].stage.AckSent? && outcome.Fails? && m in s.broker.messages
    ensures var after := Next(s, Handle(tag, outcome)).broker.messages;
            && m in after
            && after[m] == (if OutOn(s.broker.messages[m], s.handlers[tag].channel)
                            then s.broker.messages[m].(place := Queued) else s.broker.messages[m])
  {
    assert HandlerOk(s, s.handlers[tag]);
  }

  /** A message of a run, however the run goes on: still there, and if it has been acked by then, applied. */
  lemma StaysOrIsApplied(init: State, actions: seq<Action>, more: seq<Action>, m: nat)
    requires Initial(init) && m in Exec(init, actions).broker.messages
    ensures var before, after := Exec(init, actions), Exec(init, actions + more);
            && m in after.broker.messages && after.broker.messages[m].body == before.broker.messages[m].body
            && (before.broker.messages[m].place.Acked? ==> after.broker.messages[m].place.Acked?)
            && (after.broker.messages[m].place.Acked? ==>
                  && after.broker.messages[m].body.Valid?
                  && after.broker.messages[m].body.event.eventId in after.store.effects)
  {
    ExecLater(init, actions, more);
    AckedMeansApplied(init, actions + more, m);
  }

  /**
   The path on which `markAcked` fails after the ack, and then any continuation. The second settle requeues its
   channel's open deliveries and moves no other message; each of them is still in the broker or applied however the run
   goes on. The handler's own message, if its ack arrived, stays acked; its effect stays with its order, and the order
   gets no second one.
   */
  lemma DoubleSettleLosesNothing(init: State, actions: seq<Action>, tag: nat, outcome: Outcome, more: seq<Action>)
    requires Initial(init) && outcome.Fails?
    requires tag in Exec(init, actions).handlers && Exec(init, actions).handlers[tag].stage.AckSent?
    ensures var s, h := Exec(init, actions), Exec(init, actions).handlers[tag];
            var settled, later := Exec(init, actions + [Handle(tag, outcome)]),
                                  Exec(init, actions + [Handle(tag, outcome)] + more);
            && (forall m :: m in s.broker.messages ==>
                  && m in settled.broker.messages && m in later.broker.messages
                  && settled.broker.messages[m].place == (if OutOn(s.broker.messages[m], h.channel) then Queued
                                                          else s.broker.messages[m].place)
                  && later.broker.messages[m].body == s.broker.messages[m].body
                  && (later.broker.messages[m].place.Acked? ==>
                        later.broker.messages[m].body.Valid?
                        && later.broker.messages[m].body.event.eventId in later.store.effects))
            && h.msg in s.broker.messages
            && (s.broker.messages[h.msg].place.Acked? ==> later.broker.messages[h.msg].place.Acked?)
            && (Acks.AcksArrive(init, actions) ==> s.broker.messages[h.msg].place.Acked?)
            && h.body.Valid? && h.body.event.eventId in s.store.effects
            && var id := h.body.event.eventId;
               && id in later.store.effects && later.store.effects[id].orderId == s.store.effects[id].orderId
               && forall other :: other in later.store.effects && other != id ==>
                    later.store.effects[other].orderId != s.store.effects[id].orderId
  {
    var s, h, step := Exec(init, actions), Exec(init, actions).handlers[tag], [Handle(tag, outcome)];
    ExecKeepsInv(init, actions);
    if Acks.AcksArrive(init, actions) {
      Acks.ExecKeepsAck(init, actions, true);
    }
    assert HandlerOk(s, h);
    ExecSnoc(init, actions, Handle(tag, outcome));
    assert actions + step + more == actions + (step + more);
    ExecLater(init, actions, step + more);
    OneEffectPerOrder(init, actions + step + more);
    var settled, later := Exec(init, actions + step), Exec(init, actions + step + more);
    forall m | m in s.broker.messages
      ensures m in settled.broker.messages && m in later.broker.messages
      ensures settled.broker.messages[m].place == (if OutOn(s.broker.messages[m], h.channel) then Queued
                                                   else s.broker.messages[m].place)
      ensures later.broker.messages[m].body == s.broker.messages[m].body
      ensures later.broker.messages[m].place.Acked? ==>
                later.broker.messages[m].body.Valid?
                && later.broker.messages[m].body.event.eventId in later.store.effects
    {
      SecondSettle(s, tag, outcome, m);
      StaysOrIsApplied(init, actions, step + more, m);
    }
    StaysOrIsApplied(init, actions, step + more, h.msg);
  }
}
