/** The message handler as the sequence of calls it is, on the effect store's tables. */
module OrderPlacedConsumer {
  import opened Pipeline
  import EffectStore

  datatype Settle = Ack | Requeue | Reject

  /** A handler's database calls, as they end: recording the delivery, applying the effect, marking it acked. */
  datatype Calls = Calls(record: Outcome, apply: Outcome, mark: Outcome)

  /** What the catch block sends. */
  function OnFailure(outcome: Outcome): Settle
    requires outcome.Fails?
  {
    if outcome.transient then Requeue else Reject
  }

  predicate TookEffect(outcome: Outcome)
  {
    outcome.Fine? || outcome.committed
  }

  /** What is sent for one delivery; `first` says whether its event had no effect before. */
  function Settlements(body: Body, calls: Calls, crashBeforeAck: bool, first: bool): seq<Settle>
  {
    match body
    case Malformed => [Reject]
    case Valid(event) =>
      if calls.record.Fails? then [OnFailure(calls.record)]
      else if event.poison then [Reject]
      else if calls.apply.Fails? then [OnFailure(calls.apply)]
      else if crashBeforeAck && first then []
      else if calls.mark.Fails? then [Ack, OnFailure(calls.mark)]
      else [Ack]
  }

  /** A delivery is settled once, unless the process was killed or the mark after the ack failed. */
  lemma SentOnce(body: Body, calls: Calls, crashBeforeAck: bool, first: bool)
    ensures var sent := Settlements(body, calls, crashBeforeAck, first);
            && |sent| <= 2
            && (sent == [] ==> crashBeforeAck && first)
            && (|sent| == 2 <==> Ack in sent && calls.mark.Fails?)
            && (Ack in sent ==> sent[0] == Ack && body.Valid? && !body.event.poison)
  {
  }

  class Consumer {
    const store: EffectStore.Tables
    var sent: seq<Settle>
    var rejected: nat

    constructor (store: EffectStore.Tables)
      ensures this.store == store && sent == [] && rejected == 0
    {
      this.store, sent, rejected := store, [], 0;
    }

    method RejectPermanent()
      modifies this
      ensures sent == old(sent) + [Reject] && rejected == old(rejected) + 1
    {
      sent, rejected := sent + [Reject], rejected + 1;
    }

    method Catch(outcome: Outcome)
      requires outcome.Fails?
      modifies this
      ensures sent == old(sent) + [OnFailure(outcome)]
      ensures rejected == old(rejected) + if outcome.transient then 0 else 1
    {
      if outcome.transient {
        sent := sent + [Requeue];
      } else {
        RejectPermanent();
      }
    }

    /** From the effect to the ack and its mark. */
    method ApplyAndAck(event: Event, calls: Calls, crashBeforeAck: bool) returns (killed: bool)
      requires store.Valid() && event.eventId in store.deliveries && calls.record.Fine? && !event.poison
      modifies this, store`effects, store`inbox, store`successfulApplies
      ensures store.Valid()
      ensures var settled := Settlements(Valid(event), calls, crashBeforeAck, event.eventId !in old(store.effects));
              && sent == old(sent) + settled
              && rejected == old(rejected) + (if Reject in settled then 1 else 0)
              && (killed <==> settled == [])
              && (Ack in settled ==> event.eventId in store.effects)
      ensures store.effects.Keys == old(store.effects.Keys) + if TookEffect(calls.apply) then {event.eventId} else {}
    {
      killed := false;
      var applied := false;
      if calls.apply.Fine? {
        applied := store.ApplyEffect(event);
        assert store.View(0).effects == store.effects;
      } else {
        if calls.apply.committed {
          var _ := store.InsertEffect(event);
          assert store.View(0).effects == store.effects;
        }
        Catch(calls.apply);
        return;
      }
      if crashBeforeAck && applied {
        killed := true;
        return;
      }
      sent := sent + [Ack];
      if TookEffect(calls.mark) {
        store.MarkAcked(event.eventId);
        assert store.View(0).effects == store.effects;
      }
      if calls.mark.Fails? {
        Catch(calls.mark);
      }
    }

    /**
     One message. The delivery is recorded before anything else, the effect is committed before the ack is sent, and the
     effect row is there afterwards exactly when it was before or the apply call took effect, for an event that is not
     poison.
     */
    method Handle(body: Body, calls: Calls, crashBeforeAck: bool) returns (killed: bool)
      requires store.Valid()
      modifies this, store
      ensures store.Valid()
      ensures var first := body.Valid? && body.event.eventId !in old(store.effects);
              var settled := Settlements(body, calls, crashBeforeAck, first);
              && sent == old(sent) + settled
              && rejected == old(rejected) + (if Reject in settled then 1 else 0)
              && (killed <==> settled == [])
              && |settled| <= 2 && (|settled| == 2 <==> Ack in settled && calls.mark.Fails?)
              && (Ack in settled ==> body.Valid? && body.event.eventId in store.effects)
      ensures body.Malformed? ==> store.effects == old(store.effects) && store.deliveries == old(store.deliveries)
      ensures body.Valid? ==>
                store.deliveries ==
                old(store.deliveries) + if TookEffect(calls.record) then [body.event.eventId] else []
      ensures body.Valid? ==>
                store.effects.Keys ==
                old(store.effects.Keys)
                + if calls.record.Fine? && !body.event.poison && TookEffect(calls.apply) then {body.event.eventId}
                  else {}
    {
      SentOnce(body, calls, crashBeforeAck, body.Valid? && body.event.eventId !in store.effects);
      killed := false;
      if body.Malformed? {
        RejectPermanent();
        return;
      }
      var event := body.event;
      if TookEffect(calls.record) {
        store.RecordDelivery(event.eventId);
      }
      if calls.record.Fails? {
        Catch(calls.record);
      } else if event.poison {
        RejectPermanent();
      } else {
        killed := ApplyAndAck(event, calls, crashBeforeAck);
      }
    }
  }
}
