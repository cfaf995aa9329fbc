/** Checkout and delivery together: the orders the delivery system places are the checkouts that committed. */
module EndToEnd {
  import Tables = CheckoutTables
  import Laws = CheckoutLaws
  import Runs = CheckoutRuns
  import Theorems = CheckoutTheorems
  import opened Pipeline
  import Relays = PipelineRelays
  import Delivery = PipelineTheorems

  /** The commit of a checkout, as the delivery system sees it: an order and its outbox row appear together. */
  function Placing(e: Laws.Entry, createdAt: int): Action
  {
    PlaceOrder(e.ids.outbox, Event(e.ids.event, e.ids.order, e.req.userId, false), createdAt)
  }

  /** Among any other actions, the orders placed are the commits of a history, in commit order. */
  ghost predicate Feeds(actions: seq<Action>, log: seq<Laws.Entry>)
  {
    if actions == [] then log == []
    else
      var n := |actions| - 1;
      if actions[n].PlaceOrder? then
        && log != [] && actions[n] == Placing(log[|log| - 1], actions[n].createdAt)
        && Feeds(actions[..n], log[..|log| - 1])
      else Feeds(actions[..n], log)
  }

  function EventOf(e: Laws.Entry): Event
  {
    Event(e.ids.event, e.ids.order, e.req.userId, false)
  }

  /** Which outbox row each order of a history has. */
  function RowOf(log: seq<Laws.Entry>): map<nat, nat>
  {
    if log == [] then map[]
    else RowOf(log[..|log| - 1])[log[|log| - 1].ids.order := log[|log| - 1].ids.outbox]
  }

  function EventsOf(log: seq<Laws.Entry>): map<nat, Event>
  {
    if log == [] then map[]
    else EventsOf(log[..|log| - 1])[log[|log| - 1].ids.outbox := EventOf(log[|log| - 1])]
  }

  /** The outbox table holds exactly the rows of a history. */
  ghost predicate HoldsExactly(outbox: Outbox, log: seq<Laws.Entry>)
  {
    && outbox.orders == RowOf(log)
    && outbox.rows.Keys == EventsOf(log).Keys
    && forall r :: r in outbox.rows ==> outbox.rows[r].event == EventsOf(log)[r]
  }

  /** No two checkouts drew the same ids. */
  ghost predicate IdsDistinct(log: seq<Laws.Entry>)
  {
    forall i, j :: 0 <= i < j < |log| ==> Tables.IdsDiffer(log[i].ids, log[j].ids)
  }

  lemma {:induction false} RowOfHas(log: seq<Laws.Entry>, i: nat)
    requires IdsDistinct(log) && i < |log|
    ensures log[i].ids.order in RowOf(log) && RowOf(log)[log[i].ids.order] == log[i].ids.outbox
    ensures log[i].ids.outbox in EventsOf(log) && EventsOf(log)[log[i].ids.outbox] == EventOf(log[i])
  {
    var n := |log| - 1;
    if i < n {
      assert Tables.IdsDiffer(log[i].ids, log[n].ids);
      RowOfHas(log[..n], i);
    }
  }

  lemma {:induction false} RowOfOnly(log: seq<Laws.Entry>, order: nat) returns (i: nat)
    requires order in RowOf(log)
    ensures i < |log| && log[i].ids.order == order
  {
    i := |log| - 1;
    if log[i].ids.order != order {
      i := RowOfOnly(log[..i], order);
    }
  }

  /** An entry with other ids than all of a history is fresh for its table. */
  lemma {:induction false} FreshFor(log: seq<Laws.Entry>, e: Laws.Entry)
    requires forall i :: 0 <= i < |log| ==> Tables.IdsDiffer(log[i].ids, e.ids)
    ensures e.ids.order !in RowOf(log) && e.ids.outbox !in EventsOf(log)
    ensures forall r :: r in EventsOf(log) ==> EventsOf(log)[r].eventId != e.ids.event
  {
    if log != [] {
      FreshFor(log[..|log| - 1], e);
    }
  }

  lemma OnlyPlacingAddsRows(s: State, a: Action)
    requires !a.PlaceOrder?
    ensures Next(s, a).outbox.orders == s.outbox.orders && Next(s, a).outbox.rows == s.outbox.rows
  {
    if a.Handle? && a.tag in s.handlers {
      Relays.HandlersLeaveOutbox(s, a.tag, a.ended);
    }
  }

  lemma HistoryIdsDistinct(db: Tables.Database, log: seq<Laws.Entry>)
    requires Laws.Legal(db, log)
    ensures IdsDistinct(log)
  {
    forall i, j | 0 <= i < j < |log| ensures Tables.IdsDiffer(log[i].ids, log[j].ids) {
      Laws.SerialKeysUnique(db, log, i, j);
    }
  }

  lemma PlaceExtends(s: State, log: seq<Laws.Entry>, createdAt: int)
    requires log != [] && IdsDistinct(log) && HoldsExactly(s.outbox, log[..|log| - 1])
    ensures HoldsExactly(Next(s, Placing(log[|log| - 1], createdAt)).outbox, log)
  {
    var n := |log| - 1;
    forall i | 0 <= i < n ensures Tables.IdsDiffer(log[..n][i].ids, log[n].ids) {
      assert Tables.IdsDiffer(log[i].ids, log[n].ids);
    }
    FreshFor(log[..n], log[n]);
    assert FreshOrder(s.outbox, log[n].ids.outbox, EventOf(log[n]));
  }

  /** Every placing step is possible, so the outbox holds the history's rows and no others. */
  lemma {:induction false} FeedFills(log: seq<Laws.Entry>, init: State, actions: seq<Action>)
    requires IdsDistinct(log) && Initial(init) && Feeds(actions, log)
    ensures HoldsExactly(Exec(init, actions).outbox, log)
    decreases |actions|
  {
    if actions != [] {
      var n := |actions| - 1;
      var before := Exec(init, actions[..n]);
      if actions[n].PlaceOrder? {
        FeedFills(log[..|log| - 1], init, actions[..n]);
        PlaceExtends(before, log, actions[n].createdAt);
      } else {
        FeedFills(log, init, actions[..n]);
        OnlyPlacingAddsRows(before, actions[n]);
      }
    }
  }

  /** Both systems' tables at once: the history of the checkouts, and the outbox the delivery system works on. */
  lemma TablesAgree(checkout: Runs.State, steps: seq<Runs.Action>, init: State, actions: seq<Action>)
    requires Runs.Initial(checkout) && checkout.db.orders == [] && checkout.db.outbox == []
    requires Initial(init) && Feeds(actions, Runs.Exec(checkout, steps).log)
    ensures var log, db := Runs.Exec(checkout, steps).log, Runs.Exec(checkout, steps).db;
            && IdsDistinct(log) && HoldsExactly(Exec(init, actions).outbox, log)
            && |db.orders| == |db.outbox| == |log|
            && forall i :: 0 <= i < |log| ==>
                 && db.orders[i].id == log[i].ids.order
                 && db.outbox[i].id == log[i].ids.outbox && db.outbox[i].event.eventId == log[i].ids.event
                 && db.outbox[i].event.orderId == log[i].ids.order
  {
    var log := Runs.Exec(checkout, steps).log;
    Theorems.RunsSerialize(checkout, steps);
    Laws.SerialAddsRows(checkout.db, log);
    HistoryIdsDistinct(checkout.db, log);
    FeedFills(log, init, actions);
  }

  /**
   From request to effect. Take any interleaving of checkouts on tables without orders yet, and any interleaving of
   relays, handlers and failures fed by its commits, with the queue bound. Every order row in the tables has its
   event in an unpublished outbox row, in the broker, or applied; and every applied effect is of such an order.
   */
  lemma CommittedOrdersAreDelivered(checkout: Runs.State, steps: seq<Runs.Action>,
                                    init: State, actions: seq<Action>, i: nat)
    requires Runs.Initial(checkout) && checkout.db.orders == [] && checkout.db.outbox == []
    requires Initial(init) && init.broker.bound
    requires Feeds(actions, Runs.Exec(checkout, steps).log)
    requires i < |Runs.Exec(checkout, steps).db.orders|
    ensures var db, s := Runs.Exec(checkout, steps).db, Exec(init, actions);
            && i < |db.outbox| && db.outbox[i].event.orderId == db.orders[i].id
            && db.outbox[i].id in s.outbox.rows
            && var event := s.outbox.rows[db.outbox[i].id].event;
               && event.orderId == db.orders[i].id && event.eventId == db.outbox[i].event.eventId
               && (db.outbox[i].id !in s.outbox.published || Delivery.InBroker(s, event)
                   || event.eventId in s.store.effects)
  {
    var log := Runs.Exec(checkout, steps).log;
    TablesAgree(checkout, steps, init, actions);
    RowOfHas(log, i);
    Delivery.NoOrderIsLost(init, actions, log[i].ids.order);
  }

  lemma EffectsAreOfCommittedOrders(checkout: Runs.State, steps: seq<Runs.Action>,
                                    init: State, actions: seq<Action>, id: nat)
    returns (i: nat)
    requires Runs.Initial(checkout) && checkout.db.orders == [] && checkout.db.outbox == []
    requires Initial(init) && Feeds(actions, Runs.Exec(checkout, steps).log)
    requires id in Exec(init, actions).store.effects
    ensures var db, s := Runs.Exec(checkout, steps).db, Exec(init, actions);
            && i < |db.orders| && i < |db.outbox|
            && db.orders[i].id == s.store.effects[id].orderId && db.outbox[i].event.eventId == id
  {
    TablesAgree(checkout, steps, init, actions);
    Delivery.OneEffectPerOrder(init, actions);
    i := RowOfOnly(Runs.Exec(checkout, steps).log, Exec(init, actions).store.effects[id].orderId);
    RowOfHas(Runs.Exec(checkout, steps).log, i);
  }
}
