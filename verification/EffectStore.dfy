/** The effect store's statements on mutable tables. */
module EffectStore {
  import opened Finite
  import opened Pipeline

  datatype EffectCounts = EffectCounts(deliveries: nat, effect: nat, acked: nat, skipped: nat)

  ghost function AckedIds(effects: map<nat, Effect>): set<nat>
  {
    set id | id in effects && effects[id].acked
  }

  /** A statement of a handler on these tables. */
  datatype Call = Record(eventId: nat) | Apply(event: Event) | Mark(markedId: nat)

  function Records(calls: seq<Call>): nat
  {
    if calls == [] then 0
    else Records(calls[..|calls| - 1]) + if calls[|calls| - 1].Record? then 1 else 0
  }

  function Applies(calls: seq<Call>): nat
  {
    if calls == [] then 0
    else Applies(calls[..|calls| - 1]) + if calls[|calls| - 1].Apply? then 1 else 0
  }

  class Tables {
    var effects: map<nat, Effect>
    var inbox: set<nat>
    var deliveries: seq<nat>
    var successfulApplies: nat

    /** Inbox mark and effect are always there together, and each effect has a recorded delivery. */
    ghost predicate Valid()
      reads this
    {
      inbox == effects.Keys && forall id :: id in effects ==> id in deliveries
    }

    ghost function View(unheard: nat): Store
      reads this
    {
      Store(effects, inbox, deliveries, successfulApplies, unheard)
    }

    constructor ()
      ensures Valid() && View(0) == Store(map[], {}, [], 0, 0)
    {
      effects, inbox, deliveries, successfulApplies := map[], {}, [], 0;
    }

    method RecordDelivery(eventId: nat)
      requires Valid()
      modifies this`deliveries
      ensures Valid() && deliveries == old(deliveries) + [eventId]
    {
      deliveries := deliveries + [eventId];
    }

    /** One transaction: inbox mark and effect row, each ON CONFLICT DO NOTHING. */
    method InsertEffect(event: Event) returns (applied: bool)
      requires Valid() && event.eventId in deliveries
      modifies this`effects, this`inbox
      ensures Valid()
      ensures applied <==> event.eventId !in old(effects)
      ensures forall unheard :: View(unheard) == Inserted(old(View(unheard)), event)
    {
      if event.eventId !in inbox {
        inbox := inbox + {event.eventId};
      }
      applied := event.eventId !in effects;
      if applied {
        effects := effects[event.eventId := Effect(event.orderId, false)];
      }
    }

    /** The transaction, and then the count of first deliveries. */
    method ApplyEffect(event: Event) returns (applied: bool)
      requires Valid() && event.eventId in deliveries
      modifies this`effects, this`inbox, this`successfulApplies
      ensures Valid()
      ensures applied <==> event.eventId !in old(effects)
      ensures forall unheard ::
        var inserted := Inserted(old(View(unheard)), event);
        View(unheard) == inserted.(applies := old(successfulApplies) + if applied then 1 else 0)
    {
      applied := InsertEffect(event);
      if applied {
        successfulApplies := successfulApplies + 1;
      }
    }

    method MarkAcked(eventId: nat)
      requires Valid()
      modifies this`effects
      ensures Valid()
      ensures forall unheard :: View(unheard) == MarkedAcked(old(View(unheard)), eventId)
    {
      if eventId in effects && !effects[eventId].acked {
        effects := effects[eventId := effects[eventId].(acked := true)];
      }
    }

    /** SELECT count(*) of the marked effects. */
    method CountAcked() returns (acked: nat)
      ensures acked == |AckedIds(effects)| && acked <= |effects|
    {
      var ids := effects.Keys;
      acked := 0;
      while ids != {}
        invariant ids <= effects.Keys
        invariant acked == |AckedIds(effects) - ids|
        decreases |ids|
      {
        var id :| id in ids;
        assert AckedIds(effects) - (ids - {id})
            == if effects[id].acked then (AckedIds(effects) - ids) + {id} else AckedIds(effects) - ids;
        if effects[id].acked {
          acked := acked + 1;
        }
        ids := ids - {id};
      }
      assert AckedIds(effects) - {} == AckedIds(effects);
      SubsetFits(AckedIds(effects), effects.Keys);
    }

    /** One call of another handler; an effect is only applied for a delivery that has been recorded. */
    method OtherCall(call: Call)
      requires Valid()
      modifies this`effects, this`inbox, this`deliveries
      ensures Valid()
      ensures |deliveries| == |old(deliveries)| + if call.Record? then 1 else 0
      ensures old(effects.Keys) <= effects.Keys
      ensures |effects| <= |old(effects)| + if call.Apply? then 1 else 0
      ensures call.Record? ==> deliveries == old(deliveries) + [call.eventId]
      ensures call.Apply? && call.event.eventId in old(deliveries) ==> call.event.eventId in effects
      ensures forall id :: id in old(deliveries) ==> id in deliveries
    {
      match call
      case Record(eventId) => RecordDelivery(eventId);
      case Apply(event) =>
        if event.eventId in deliveries {
          ghost var before := effects;
          var _ := InsertEffect(event);
          assert View(0).effects == effects;
          InsertGrows(View(0).(effects := before), event);
        }
      case Mark(eventId) =>
        MarkAcked(eventId);
        assert View(0).effects == effects;
        assert |effects| == |effects.Keys|;
    }

    /** Any calls of any other handlers. */
    method OtherCalls(calls: seq<Call>)
      requires Valid()
      modifies this`effects, this`inbox, this`deliveries
      ensures Valid() && |deliveries| == |old(deliveries)| + Records(calls)
      ensures old(effects.Keys) <= effects.Keys && |effects| <= |old(effects)| + Applies(calls)
      ensures forall id :: id in old(deliveries) ==> id in deliveries
      ensures forall i, k :: 0 <= i < k < |calls| && calls[k].Apply? && calls[i] == Record(calls[k].event.eventId) ==>
                calls[k].event.eventId in effects
    {
      for i := 0 to |calls|
        invariant Valid() && |deliveries| == |old(deliveries)| + Records(calls[..i])
        invariant old(effects.Keys) <= effects.Keys && |effects| <= |old(effects)| + Applies(calls[..i])
        invariant forall id :: id in old(deliveries) ==> id in deliveries
        invariant forall j :: 0 <= j < i && calls[j].Record? ==> calls[j].eventId in deliveries
        invariant forall j, k :: 0 <= j < k < i && calls[k].Apply? && calls[j] == Record(calls[k].event.eventId) ==>
                    calls[k].event.eventId in effects
      {
        assert calls[..i + 1][..i] == calls[..i];
        OtherCall(calls[i]);
      }
      assert calls[..|calls|] == calls;
    }

    /**
     Three statements, between which other handlers make any calls: `second` after the first statement, `third` after
     the second. The effects read exceed the deliveries read by at most the deliveries recorded in between, so with none
     in between the clamp of `skipped` never acts; and the marks read exceed the effects read by at most the effects
     applied in between.
     */
    method Counts(second: seq<Call>, third: seq<Call>) returns (c: EffectCounts)
      requires Valid()
      modifies this`effects, this`inbox, this`deliveries
      ensures Valid() && |deliveries| == |old(deliveries)| + Records(second) + Records(third)
      ensures c.deliveries == |old(deliveries)| && c.acked == |AckedIds(effects)|
      ensures |old(effects)| <= c.effect <= |effects|
      ensures c.effect <= c.deliveries + Records(second) && c.effect <= |old(effects)| + Applies(second)
      ensures c.acked <= c.effect + Applies(third)
      ensures c.skipped == if c.deliveries >= c.effect then c.deliveries - c.effect else 0
      ensures forall i, k ::
                0 <= i < k < |second| && second[k].Apply? && second[i] == Record(second[k].event.eventId) ==>
                  c.effect > 0
    {
      var deliveryRows := |deliveries|;
      OtherCalls(second);
      ElementsFit(effects.Keys, deliveries);
      SubsetFits(old(effects.Keys), effects.Keys);
      var effectRows := |effects|;
      if exists i, k :: 0 <= i < k < |second| && second[k].Apply? && second[i] == Record(second[k].event.eventId) {
        var i, k :| 0 <= i < k < |second| && second[k].Apply? && second[i] == Record(second[k].event.eventId);
        assert second[k].event.eventId in effects.Keys;
      }
      ghost var between := effects.Keys;
      OtherCalls(third);
      SubsetFits(between, effects.Keys);
      var ackedRows := CountAcked();
      var gap := deliveryRows - effectRows;
      c := EffectCounts(deliveryRows, effectRows, ackedRows, if gap < 0 then 0 else gap);
    }
  }

  /** The clamp is needed: one delivery between the first two statements, and effects outnumber deliveries. */
  method CountsMayCross(event: Event) returns (c: EffectCounts)
    ensures c.deliveries == 0 && c.effect == 1 && c.skipped == 0
  {
    var store := new Tables();
    assert store.View(0).effects == store.effects && store.View(0).deliveries == store.deliveries;
    c := store.Counts([Record(event.eventId), Apply(event)], []);
  }

  lemma InsertGrows(store: Store, event: Event)
    ensures |Inserted(store, event).effects| <= |store.effects| + 1
    ensures store.effects.Keys <= Inserted(store, event).effects.Keys
    ensures event.eventId in Inserted(store, event).effects
  {
    assert Inserted(store, event).effects.Keys == store.effects.Keys + {event.eventId};
    assert |Inserted(store, event).effects.Keys| == |Inserted(store, event).effects|;
  }
}
