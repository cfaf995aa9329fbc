/** The checkout transaction as the service runs it: statement by statement on mutable tables. */
module CheckoutService {
  import opened Prelude
  import opened LockOrder
  import opened CheckoutTables
  import opened CheckoutLaws

  datatype PricedItem = PricedItem(productId: string, quantity: int, unitPriceCents: int)

  /** The first refusal decides a product loop. */
  lemma {:induction false} ReserveStops(products: map<string, Product>, locked: seq<Indexed>, k: nat)
    requires k <= |locked| && ReserveAll(products, locked[..k]).Err?
    ensures ReserveAll(products, locked) == ReserveAll(products, locked[..k])
  {
    if k == |locked| {
      assert locked[..k] == locked;
    } else {
      var n := |locked| - 1;
      assert locked[..n][..k] == locked[..k];
      ReserveStops(products, locked[..n], k);
    }
  }

  class Tables {
    var products: map<string, Product>
    var balances: map<string, int>
    var orders: seq<OrderRow>
    var items: seq<ItemRow>
    var jobs: seq<JobRow>
    var outbox: seq<OutboxRow>
    var keys: map<(string, string), KeyRow>

    function Snapshot(): Database
      reads this
    {
      Database(products, balances, orders, items, jobs, outbox, keys)
    }

    constructor (db: Database)
      ensures Snapshot() == db
    {
      products, balances, orders, items := db.products, db.balances, db.orders, db.items;
      jobs, outbox, keys := db.jobs, db.outbox, db.keys;
    }

    method Rollback(saved: Database)
      modifies this
      ensures Snapshot() == saved
    {
      products, balances, orders, items := saved.products, saved.balances, saved.orders, saved.items;
      jobs, outbox, keys := saved.jobs, saved.outbox, saved.keys;
    }

    /** The product loop. It leaves its updates in place; undoing them is the transaction's business. */
    method ReserveItems(locked: seq<Indexed>, length: nat)
      returns (failure: Option<Failure>, totalCents: int, unitPrices: seq<int>, pricedItems: seq<PricedItem>)
      modifies this`products
      ensures match ReserveAll(old(products), locked)
              case Err(f) => failure == Some(f)
              case Ok(reserved) =>
                && failure == None
                && products == reserved.products
                && totalCents == Total(locked, reserved.prices)
                && unitPrices == InRequestOrder(locked, reserved.prices, length)
                && |pricedItems| == |locked|
                && forall j :: 0 <= j < |locked| ==>
                     pricedItems[j] == PricedItem(locked[j].item.productId, locked[j].item.quantity, reserved.prices[j])
    {
      failure, totalCents, unitPrices, pricedItems := None, 0, seq(length, _ => 0), [];
      ghost var prices: seq<int> := [];
      for i := 0 to |locked|
        invariant ReserveAll(old(products), locked[..i]) == Ok(Reservation(products, prices))
        invariant totalCents == Total(locked[..i], prices)
        invariant unitPrices == InRequestOrder(locked[..i], prices, length)
        invariant |pricedItems| == i
        invariant forall j :: 0 <= j < i ==>
          pricedItems[j] == PricedItem(locked[j].item.productId, locked[j].item.quantity, prices[j])
      {
        var Indexed(item, index) := locked[i];
        assert locked[..i + 1][..i] == locked[..i];
        if item.quantity > MAX_INT {
          ReserveStops(old(products), locked, i + 1);
          return Some(OutOfRange), totalCents, unitPrices, pricedItems;
        }
        if !Matches(products, item) {
          ReserveStops(old(products), locked, i + 1);
          return Some(OutOfStock(i)), totalCents, unitPrices, pricedItems;
        }
        var row := products[item.productId];
        products := products[item.productId := row.(stock := row.stock - item.quantity)];
        if index < length {
          unitPrices := unitPrices[index := row.priceCents];
        }
        totalCents := totalCents + row.priceCents * item.quantity;
        pricedItems := pricedItems + [PricedItem(item.productId, item.quantity, row.priceCents)];
        assert (prices + [row.priceCents])[..i] == prices;
        prices := prices + [row.priceCents];
      }
      assert locked[..|locked|] == locked;
    }

    /** The item loop, under the unique constraint on (order, product). */
    method InsertItems(orderId: nat, pricedItems: seq<PricedItem>, ghost locked: seq<Indexed>, ghost prices: seq<int>)
      returns (inserted: bool)
      requires |pricedItems| == |locked| == |prices|
      requires forall j :: 0 <= j < |locked| ==>
        pricedItems[j] == PricedItem(locked[j].item.productId, locked[j].item.quantity, prices[j])
      requires forall i :: 0 <= i < |items| ==> items[i].orderId != orderId
      modifies this`items
      ensures inserted <==> DistinctProducts(locked)
      ensures inserted ==> items == old(items) + ItemRows(orderId, locked, prices)
    {
      for k := 0 to |pricedItems|
        invariant items == old(items) + ItemRows(orderId, locked, prices)[..k]
        invariant DistinctProducts(locked[..k])
      {
        var p := pricedItems[k];
        if exists i :: 0 <= i < |items| && items[i].orderId == orderId && items[i].productId == p.productId {
          var i :| 0 <= i < |items| && items[i].orderId == orderId && items[i].productId == p.productId;
          var j := i - |old(items)|;
          assert items[i] == ItemRows(orderId, locked, prices)[j];
          assert locked[j].item.productId == locked[k].item.productId;
          return false;
        }
        forall j | 0 <= j < k ensures locked[j].item.productId != locked[k].item.productId {
          assert items[|old(items)| + j] == ItemRows(orderId, locked, prices)[j];
        }
        items := items + [ItemRow(orderId, p.productId, p.quantity, p.unitPriceCents)];
      }
      assert locked[..|locked|] == locked;
      inserted := true;
    }

    /** The inserts that follow the debit: order, items, job, outbox row, intent key. */
    method InsertRows(input: Request, ids: Ids, totalCents: int, pricedItems: seq<PricedItem>,
                      ghost locked: seq<Indexed>, ghost prices: seq<int>)
      returns (failure: Option<Failure>)
      requires |pricedItems| == |locked| == |prices|
      requires forall j :: 0 <= j < |locked| ==>
        pricedItems[j] == PricedItem(locked[j].item.productId, locked[j].item.quantity, prices[j])
      requires forall i :: 0 <= i < |items| ==> items[i].orderId != ids.order
      modifies this`orders, this`items, this`jobs, this`outbox, this`keys
      ensures failure ==
              if !DistinctProducts(locked) then Some(DuplicateItem)
              else if input.failAfterOutbox then Some(WriteAborted)
              else if KeyOf(input).Some? && KeyOf(input).value in old(keys) then Some(KeyTaken)
              else None
      ensures failure == None ==>
        && orders == old(orders) + [OrderRow(ids.order, input.userId, totalCents)]
        && items == old(items) + ItemRows(ids.order, locked, prices)
        && jobs == old(jobs) + [JobRow(ids.job, ids.order)]
        && outbox == old(outbox) + [OutboxRow(ids.outbox, Event(ids.event, ids.order, input.userId, totalCents))]
        && keys == old(keys) + KeyRows(input, ids.order)
    {
      orders := orders + [OrderRow(ids.order, input.userId, totalCents)];
      var inserted := InsertItems(ids.order, pricedItems, locked, prices);
      if !inserted {
        return Some(DuplicateItem);
      }
      jobs := jobs + [JobRow(ids.job, ids.order)];
      outbox := outbox + [OutboxRow(ids.outbox, Event(ids.event, ids.order, input.userId, totalCents))];
      if input.failAfterOutbox {
        return Some(WriteAborted);
      }
      var key := KeyOf(input);
      if key.Some? {
        if key.value in keys {
          return Some(KeyTaken);
        }
        keys := keys[key.value := KeyRow(ids.order, StoredHash(input))];
      }
      assert keys == old(keys) + KeyRows(input, ids.order);
      return None;
    }

    /** The statements of the transaction, up to the first that refuses. */
    method RunStatements(input: Request, locked: seq<Indexed>, ids: Ids)
      returns (r: Result<CheckoutResult, Failure>)
      requires locked == ItemsInLockOrder(input.items)
      requires forall i :: 0 <= i < |items| ==> items[i].orderId != ids.order
      modifies this
      ensures match Apply(old(Snapshot()), input, ids)
              case Ok(receipt) => r == Ok(receipt.result) && Snapshot() == receipt.db
              case Err(f) => r == Err(f)
    {
      ghost var before := products;
      var failure, totalCents, unitPrices, pricedItems := ReserveItems(locked, |input.items|);
      if failure.Some? {
        return Err(failure.value);
      }
      ghost var prices := ReserveAll(before, locked).value.prices;
      if totalCents > MAX_INT {
        return Err(OutOfRange);
      }
      if input.userId !in balances || balances[input.userId] < totalCents {
        return Err(InsufficientFunds);
      }
      balances := balances[input.userId := balances[input.userId] - totalCents];
      failure := InsertRows(input, ids, totalCents, pricedItems, locked, prices);
      if failure.Some? {
        return Err(failure.value);
      }
      return Ok(CheckoutResult(ids.order, Some(ids.job), totalCents, unitPrices, false));
    }

    /**
     `insertCheckout`: every statement in order, rolled back as a whole on the first refusal. Run alone it is
     exactly the atomic checkout: same decision, same result, same tables.
     */
    method InsertCheckout(input: Request, locked: seq<Indexed>, ids: Ids)
      returns (r: Result<CheckoutResult, Failure>)
      requires locked == ItemsInLockOrder(input.items)
      requires FreshIds(Snapshot(), ids)
      modifies this
      ensures match Apply(old(Snapshot()), input, ids)
              case Ok(receipt) => r == Ok(receipt.result) && Snapshot() == receipt.db
              case Err(f) => r == Err(f) && Snapshot() == old(Snapshot())
    {
      var saved := Snapshot();
      r := RunStatements(input, locked, ids);
      if r.Err? {
        Rollback(saved);
      }
    }
  }
}
