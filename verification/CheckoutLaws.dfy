/** What one atomic checkout does to stock, money and intent keys, and what any history of them does. */
module CheckoutLaws {
  import opened Prelude
  import opened LockOrder
  import opened CheckoutTables

  // ----- quantities and sums

  function QuantityOf(locked: seq<Indexed>, productId: string): int
  {
    if locked == [] then 0
    else
      var n := |locked| - 1;
      QuantityOf(locked[..n], productId)
      + if locked[n].item.productId == productId then locked[n].item.quantity else 0
  }

  /** Units of a product in a set of order items. */
  function Sold(items: seq<ItemRow>, productId: string): int
  {
    if items == [] then 0
    else
      var n := |items| - 1;
      Sold(items[..n], productId) + if items[n].productId == productId then items[n].quantity else 0
  }

  /** Cents charged to a user. */
  function Spent(orders: seq<OrderRow>, userId: string): int
  {
    if orders == [] then 0
    else
      var n := |orders| - 1;
      Spent(orders[..n], userId) + if orders[n].userId == userId then orders[n].totalCents else 0
  }

  function LineSum(items: seq<ItemRow>): int
  {
    if items == [] then 0
    else
      var n := |items| - 1;
      LineSum(items[..n]) + items[n].unitPriceCents * items[n].quantity
  }

  // ----- the product loop

  /** What a completed product loop did: each price is the row's price, each stock fell by the quantity asked. */
  lemma {:induction false} ReserveEffect(products: map<string, Product>, locked: seq<Indexed>)
    requires ReserveAll(products, locked).Ok?
    ensures var r := ReserveAll(products, locked).value;
            && r.products.Keys == products.Keys
            && (forall p :: p in products ==>
                  r.products[p] == products[p].(stock := products[p].stock - QuantityOf(locked, p)))
            && (forall i :: 0 <= i < |locked| ==>
                  && locked[i].item.productId in products
                  && r.prices[i] == products[locked[i].item.productId].priceCents)
  {
    if locked != [] {
      var n := |locked| - 1;
      ReserveEffect(products, locked[..n]);
      assert forall i :: 0 <= i < n ==> locked[..n][i] == locked[i];
    }
  }

  lemma {:induction false} ReserveNonNegative(products: map<string, Product>, locked: seq<Indexed>)
    requires ReserveAll(products, locked).Ok?
    requires forall p :: p in products ==> products[p].stock >= 0
    ensures var r := ReserveAll(products, locked).value.products;
            forall p :: p in r ==> r[p].stock >= 0
  {
    if locked != [] {
      ReserveNonNegative(products, locked[..|locked| - 1]);
    }
  }

  /**
   A product loop refuses for stock exactly at the first item whose row is missing, inactive, or holds,
   less this request's own earlier decrements, fewer units than asked.
   */
  lemma {:induction false} ReserveRefusal(products: map<string, Product>, locked: seq<Indexed>, position: nat)
    ensures ReserveAll(products, locked) == Err(OutOfStock(position)) <==>
            && position < |locked|
            && ReserveAll(products, locked[..position]).Ok?
            && locked[position].item.quantity <= MAX_INT
            && Lacking(products, locked[..position], locked[position].item)
  {
    if locked != [] {
      var n := |locked| - 1;
      ReserveRefusal(products, locked[..n], position);
      if position < n {
        assert locked[..n][..position] == locked[..position];
        if ReserveAll(products, locked[..position]).Ok? {
          ReserveEffect(products, locked[..position]);
        }
      }
      if ReserveAll(products, locked[..n]).Ok? {
        ReserveEffect(products, locked[..n]);
        if position < n {
          ReservePrefix(products, locked[..n], position + 1);
          assert locked[..n][..position + 1][..position] == locked[..position];
        }
      }
    }
  }

  ghost predicate Lacking(products: map<string, Product>, earlier: seq<Indexed>, item: Item)
  {
    || item.productId !in products
    || !products[item.productId].active
    || products[item.productId].stock - QuantityOf(earlier, item.productId) < item.quantity
  }

  lemma {:induction false} ReservePrefix(products: map<string, Product>, locked: seq<Indexed>, k: nat)
    requires k <= |locked| && ReserveAll(products, locked).Ok?
    ensures ReserveAll(products, locked[..k]).Ok?
    ensures ReserveAll(products, locked[..k]).value.prices == ReserveAll(products, locked).value.prices[..k]
  {
    if k == |locked| {
      assert locked[..k] == locked;
    } else {
      var n := |locked| - 1;
      ReservePrefix(products, locked[..n], k);
      assert locked[..n][..k] == locked[..k];
    }
  }

  // ----- prices and totals

  /** Each request position gets the price of its own product, whatever order the rows were locked in. */
  lemma FirstPricesInRequestOrder(db: Database, req: Request, ids: Ids)
    requires Apply(db, req, ids).Ok?
    ensures var prices := Apply(db, req, ids).value.result.unitPrices;
            && |prices| == |req.items|
            && forall i :: 0 <= i < |req.items| ==>
                 && req.items[i].productId in db.products
                 && prices[i] == db.products[req.items[i].productId].priceCents
  {
    var locked := ItemsInLockOrder(req.items);
    var reserved := ReserveAll(db.products, locked).value;
    ReserveEffect(db.products, locked);
    LockOrderCarriesIndexes(req.items);
    InRequestOrderAligned(locked, reserved.prices, |req.items|);
    forall i | 0 <= i < |req.items|
      ensures req.items[i].productId in db.products
      ensures InRequestOrder(locked, reserved.prices, |req.items|)[i] == db.products[req.items[i].productId].priceCents
    {
      var j :| 0 <= j < |locked| && locked[j] == Indexed(req.items[i], i);
    }
  }

  lemma {:induction false} InRequestOrderAligned(locked: seq<Indexed>, prices: seq<int>, length: nat)
    requires |locked| == |prices| && DistinctIndexes(locked)
    requires forall e :: e in locked ==> e.index < length
    ensures forall j :: 0 <= j < |locked| ==> InRequestOrder(locked, prices, length)[locked[j].index] == prices[j]
  {
    if locked != [] {
      var n := |locked| - 1;
      assert forall j :: 0 <= j < n ==> locked[..n][j] == locked[j] && prices[..n][j] == prices[j];
      InRequestOrderAligned(locked[..n], prices[..n], length);
      assert locked[n] in locked;
    }
  }

  /** The same prices, in request order and in lock order. */
  lemma InRequestOrderPermutes(items: seq<Item>, prices: seq<int>)
    requires |prices| == |items| == |ItemsInLockOrder(items)|
    ensures multiset(InRequestOrder(ItemsInLockOrder(items), prices, |items|)) == multiset(prices)
  {
    var locked := ItemsInLockOrder(items);
    LockOrderCarriesIndexes(items);
    var placed := InRequestOrder(locked, prices, |items|);
    InRequestOrderAligned(locked, prices, |items|);
    var at := seq(|items|, j requires 0 <= j < |items| => locked[j].index);
    forall j | 0 <= j < |items| ensures 0 <= at[j] < |items| && prices[j] == placed[at[j]] {
      assert locked[j] in locked;
    }
    RearrangedBy(placed, prices, at);
  }

  /** A sequence read through a list of distinct in-range positions is a permutation of it. */
  lemma {:induction false} RearrangedBy(source: seq<int>, target: seq<int>, at: seq<int>)
    requires |source| == |target| == |at|
    requires forall j :: 0 <= j < |at| ==> 0 <= at[j] < |source| && target[j] == source[at[j]]
    requires forall i, j :: 0 <= i < j < |at| ==> at[i] != at[j]
    ensures multiset(source) == multiset(target)
  {
    if source != [] {
      var n := |source| - 1;
      var hole := at[n];
      var source' := source[..hole] + source[hole + 1..];
      var at' := seq(n, j requires 0 <= j < n => if at[j] < hole then at[j] else at[j] - 1);
      RearrangedBy(source', target[..n], at');
      assert source == source[..hole] + [source[hole]] + source[hole + 1..];
      assert target == target[..n] + [source[hole]];
    }
  }

  lemma {:induction false} TotalBounds(locked: seq<Indexed>, prices: seq<int>, k: nat)
    requires |locked| == |prices| && k <= |locked|
    requires forall i :: 0 <= i < |locked| ==> locked[i].item.quantity >= 1 && prices[i] > 0
    ensures 0 <= Total(locked[..k], prices[..k]) <= Total(locked, prices)
  {
    var n := |locked|;
    if k < n {
      TotalBounds(locked[..n - 1], prices[..n - 1], k);
      assert locked[..n - 1][..k] == locked[..k] && prices[..n - 1][..k] == prices[..k];
    } else if n > 0 {
      assert locked[..n] == locked && prices[..n] == prices;
      TotalBounds(locked[..n - 1], prices[..n - 1], n - 1);
      assert locked[..n - 1][..n - 1] == locked[..n - 1] && prices[..n - 1][..n - 1] == prices[..n - 1];
    }
  }

  // ----- the JavaScript sum

  const MAX_SAFE := 0x20_0000_0000_0000

  /** A rounding of integers to doubles: exact up to 2^53, and never from above 2^53 to below it. */
  ghost predicate Rounds(round: int -> int)
  {
    forall n :: if n <= MAX_SAFE then round(n) == n else round(n) >= MAX_SAFE
  }

  /** `totalCents += unitPriceCents * quantity` with a rounding after each operation. */
  function JsTotal(round: int -> int, locked: seq<Indexed>, prices: seq<int>): int
    requires |locked| == |prices|
  {
    if locked == [] then 0
    else
      var n := |locked| - 1;
      round(JsTotal(round, locked[..n], prices[..n]) + round(prices[n] * locked[n].item.quantity))
  }

  /**
   The accumulated number passes the integer-column check exactly when the true sum does, and is then the true
   sum. So rounding can neither let an oversized order through nor change the total of one that commits.
   */
  lemma {:induction false} JsTotalExact(round: int -> int, locked: seq<Indexed>, prices: seq<int>)
    requires Rounds(round) && |locked| == |prices|
    requires forall i :: 0 <= i < |locked| ==> locked[i].item.quantity >= 1 && prices[i] > 0
    ensures 0 <= JsTotal(round, locked, prices)
    ensures JsTotal(round, locked, prices) <= MAX_INT <==> Total(locked, prices) <= MAX_INT
    ensures Total(locked, prices) <= MAX_INT ==> JsTotal(round, locked, prices) == Total(locked, prices)
  {
    if locked != [] {
      var n := |locked| - 1;
      JsTotalExact(round, locked[..n], prices[..n]);
      TotalBounds(locked[..n], prices[..n], n);
      assert locked[..n][..n] == locked[..n] && prices[..n][..n] == prices[..n];
      var line := prices[n] * locked[n].item.quantity;
      assert line > 0;
      assert round(line) >= 0 && (round(line) == line || round(line) >= MAX_SAFE);
    }
  }

  // ----- one checkout

  /** Checks, integer columns, and the foreign key from an intent key to its order. */
  ghost predicate Constraints(db: Database)
  {
    && (forall p :: p in db.products ==> 0 <= db.products[p].stock && 0 < db.products[p].priceCents <= MAX_INT)
    && (forall u :: u in db.balances ==> 0 <= db.balances[u])
    && KeysHaveOrders(db)
  }

  ghost predicate KeysHaveOrders(db: Database)
  {
    forall k :: k in db.keys ==> FindOrder(db.orders, db.keys[k].orderId).Some?
  }

  /** The identity sequences and the UUID source gave values no row has yet. */
  ghost predicate FreshIds(db: Database, ids: Ids)
  {
    && (forall i :: 0 <= i < |db.orders| ==> db.orders[i].id != ids.order)
    && (forall i :: 0 <= i < |db.items| ==> db.items[i].orderId != ids.order)
    && (forall i :: 0 <= i < |db.jobs| ==> db.jobs[i].id != ids.job && db.jobs[i].orderId != ids.order)
    && (forall i :: 0 <= i < |db.outbox| ==> db.outbox[i].id != ids.outbox && db.outbox[i].event.eventId != ids.event
                                             && db.outbox[i].event.orderId != ids.order)
    && (forall k :: k in db.keys ==> db.keys[k].orderId != ids.order)
  }

  /** Stock and money that left the tables is accounted for by order items and orders. */
  ghost predicate Conserves(before: Database, after: Database)
  {
    && after.products.Keys == before.products.Keys
    && after.balances.Keys == before.balances.Keys
    && (forall p :: p in before.products ==>
          && after.products[p].priceCents == before.products[p].priceCents
          && after.products[p].active == before.products[p].active
          && before.products[p].stock - after.products[p].stock == Sold(after.items, p) - Sold(before.items, p))
    && (forall u :: u in before.balances ==>
          before.balances[u] - after.balances[u] == Spent(after.orders, u) - Spent(before.orders, u))
  }

  ghost predicate TotalsAddUp(db: Database)
  {
    forall i :: 0 <= i < |db.orders| ==> db.orders[i].totalCents == LineSum(ItemsOf(db.items, db.orders[i].id))
  }

  lemma {:induction false} ItemRowsSums(orderId: nat, locked: seq<Indexed>, prices: seq<int>, productId: string)
    requires |locked| == |prices|
    ensures Sold(ItemRows(orderId, locked, prices), productId) == QuantityOf(locked, productId)
    ensures LineSum(ItemRows(orderId, locked, prices)) == Total(locked, prices)
  {
    if locked != [] {
      var n := |locked| - 1;
      ItemRowsSums(orderId, locked[..n], prices[..n], productId);
      assert ItemRows(orderId, locked, prices)[..n] == ItemRows(orderId, locked[..n], prices[..n]);
    }
  }

  lemma {:induction false} SoldAppend(a: seq<ItemRow>, b: seq<ItemRow>, productId: string)
    ensures Sold(a + b, productId) == Sold(a, productId) + Sold(b, productId)
  {
    if b == [] {
      assert a + b == a;
    } else {
      var n := |b| - 1;
      SoldAppend(a, b[..n], productId);
      assert (a + b)[..|a| + n] == a + b[..n];
    }
  }

  lemma ApplySells(db: Database, req: Request, ids: Ids, productId: string)
    requires Apply(db, req, ids).Ok?
    ensures Sold(Apply(db, req, ids).value.db.items, productId)
            == Sold(db.items, productId) + QuantityOf(ItemsInLockOrder(req.items), productId)
  {
    var locked := ItemsInLockOrder(req.items);
    var prices := ReserveAll(db.products, locked).value.prices;
    ItemRowsSums(ids.order, locked, prices, productId);
    SoldAppend(db.items, ItemRows(ids.order, locked, prices), productId);
  }

  lemma ApplyConserves(db: Database, req: Request, ids: Ids)
    requires Apply(db, req, ids).Ok?
    ensures Conserves(db, Apply(db, req, ids).value.db)
  {
    var after := Apply(db, req, ids).value.db;
    ReserveEffect(db.products, ItemsInLockOrder(req.items));
    forall p ensures Sold(after.items, p) == Sold(db.items, p) + QuantityOf(ItemsInLockOrder(req.items), p) {
      ApplySells(db, req, ids, p);
    }
    assert after.orders[..|db.orders|] == db.orders;
  }

  lemma ApplyKeepsConstraints(db: Database, req: Request, ids: Ids)
    requires Constraints(db) && Apply(db, req, ids).Ok?
    ensures Constraints(Apply(db, req, ids).value.db)
  {
    var locked := ItemsInLockOrder(req.items);
    ReserveNonNegative(db.products, locked);
    ReserveEffect(db.products, locked);
    ApplyKeepsKeys(db, req, ids);
  }

  lemma FindOrderSnoc(orders: seq<OrderRow>, row: OrderRow, id: nat)
    ensures FindOrder(orders + [row], id) == if row.id == id then Some(row) else FindOrder(orders, id)
  {
    assert (orders + [row])[..|orders|] == orders;
  }

  lemma ApplyKeepsKeys(db: Database, req: Request, ids: Ids)
    requires KeysHaveOrders(db) && Apply(db, req, ids).Ok?
    ensures KeysHaveOrders(Apply(db, req, ids).value.db)
  {
    var after := Apply(db, req, ids).value.db;
    var row := after.orders[|db.orders|];
    forall k | k in after.keys ensures FindOrder(after.orders, after.keys[k].orderId).Some? {
      FindOrderSnoc(db.orders, row, after.keys[k].orderId);
    }
  }

  // ----- reading back

  lemma {:induction false} ItemsOfAppend(a: seq<ItemRow>, b: seq<ItemRow>, orderId: nat)
    ensures ItemsOf(a + b, orderId) == ItemsOf(a, orderId) + ItemsOf(b, orderId)
  {
    if b == [] {
      assert a + b == a;
    } else {
      var n := |b| - 1;
      ItemsOfAppend(a, b[..n], orderId);
      assert (a + b)[..|a| + n] == a + b[..n];
    }
  }

  lemma {:induction false} ItemsOfUniform(items: seq<ItemRow>, owner: nat, orderId: nat)
    requires forall i :: 0 <= i < |items| ==> items[i].orderId == owner
    ensures ItemsOf(items, orderId) == if owner == orderId then items else []
  {
    if items != [] {
      ItemsOfUniform(items[..|items| - 1], owner, orderId);
    }
  }

  lemma {:induction false} ItemsOfNone(items: seq<ItemRow>, orderId: nat)
    requires forall i :: 0 <= i < |items| ==> items[i].orderId != orderId
    ensures ItemsOf(items, orderId) == []
  {
    if items != [] {
      ItemsOfNone(items[..|items| - 1], orderId);
    }
  }

  lemma {:induction false} LatestJobNone(jobs: seq<JobRow>, orderId: nat)
    requires forall i :: 0 <= i < |jobs| ==> jobs[i].orderId != orderId
    ensures LatestJob(jobs, orderId) == None
  {
    if jobs != [] {
      LatestJobNone(jobs[..|jobs| - 1], orderId);
    }
  }

  /** What the rows of any order other than the new one say is unchanged by a checkout. */
  lemma OrderRowsStable(db: Database, req: Request, ids: Ids, orderId: nat)
    requires Apply(db, req, ids).Ok? && orderId != ids.order
    ensures var after := Apply(db, req, ids).value.db;
            && FindOrder(after.orders, orderId) == FindOrder(db.orders, orderId)
            && LatestJob(after.jobs, orderId) == LatestJob(db.jobs, orderId)
            && ItemsOf(after.items, orderId) == ItemsOf(db.items, orderId)
  {
    var after := Apply(db, req, ids).value.db;
    var locked := ItemsInLockOrder(req.items);
    var rows := ItemRows(ids.order, locked, ReserveAll(db.products, locked).value.prices);
    assert after.orders[..|db.orders|] == db.orders && after.jobs[..|db.jobs|] == db.jobs;
    ItemsOfAppend(db.items, rows, orderId);
    ItemsOfUniform(rows, ids.order, orderId);
  }

  /** The rows a checkout inserted, read back by order id. */
  lemma NewOrderRows(db: Database, req: Request, ids: Ids)
    requires Apply(db, req, ids).Ok? && FreshIds(db, ids)
    ensures var after := Apply(db, req, ids).value.db;
            var locked := ItemsInLockOrder(req.items);
            var prices := ReserveAll(db.products, locked).value.prices;
            && FindOrder(after.orders, ids.order) == Some(OrderRow(ids.order, req.userId, Total(locked, prices)))
            && LatestJob(after.jobs, ids.order) == Some(ids.job)
            && ItemsOf(after.items, ids.order) == ItemRows(ids.order, locked, prices)
  {
    var after := Apply(db, req, ids).value.db;
    var locked := ItemsInLockOrder(req.items);
    var rows := ItemRows(ids.order, locked, ReserveAll(db.products, locked).value.prices);
    assert after.jobs[..|db.jobs|] == db.jobs;
    LatestJobNone(db.jobs, ids.order);
    ItemsOfAppend(db.items, rows, ids.order);
    ItemsOfUniform(rows, ids.order, ids.order);
    ItemsOfNone(db.items, ids.order);
  }

  lemma ApplyKeepsTotals(db: Database, req: Request, ids: Ids)
    requires Apply(db, req, ids).Ok? && FreshIds(db, ids) && TotalsAddUp(db)
    ensures TotalsAddUp(Apply(db, req, ids).value.db)
  {
    var after := Apply(db, req, ids).value.db;
    var locked := ItemsInLockOrder(req.items);
    NewOrderRows(db, req, ids);
    ItemRowsSums(ids.order, locked, ReserveAll(db.products, locked).value.prices, "");
    forall i | 0 <= i < |after.orders|
      ensures after.orders[i].totalCents == LineSum(ItemsOf(after.items, after.orders[i].id))
    {
      if i < |db.orders| {
        assert after.orders[i] == db.orders[i];
        OrderRowsStable(db, req, ids, db.orders[i].id);
      }
    }
  }

  /**
   Round trip of an intent: what `findCommitted` reads after a keyed checkout committed is that checkout's
   order id, job id and total, marked as a replay, with the same prices in lock order.
   */
  lemma ReadBack(db: Database, req: Request, ids: Ids)
    requires Apply(db, req, ids).Ok? && FreshIds(db, ids) && KeyOf(req).Some?
    ensures var receipt := Apply(db, req, ids).value;
            var read := FindCommitted(receipt.db, KeyOf(req).value);
            && read.Some?
            && read.value.requestHash == StoredHash(req)
            && SameResult(read.value.result, receipt.result)
            && read.value.result.replay
            && LockOrderPrices(db, req, read.value.result.unitPrices)
  {
    var locked := ItemsInLockOrder(req.items);
    var prices := ReserveAll(db.products, locked).value.prices;
    NewOrderRows(db, req, ids);
    assert Prices(ItemRows(ids.order, locked, prices)) == prices;
    LockOrderSorts(req.items);
    InRequestOrderPermutes(req.items, prices);
    ReserveEffect(db.products, locked);
  }

  ghost predicate SameResult(a: CheckoutResult, b: CheckoutResult)
  {
    && a.orderId == b.orderId && a.jobId == b.jobId && a.totalCents == b.totalCents
    && multiset(a.unitPrices) == multiset(b.unitPrices)
  }

  ghost predicate LockOrderPrices(db: Database, req: Request, prices: seq<int>)
  {
    var locked := ItemsInLockOrder(req.items);
    && |prices| == |locked|
    && forall j :: 0 <= j < |locked| ==>
         && locked[j].item.productId in db.products
         && prices[j] == db.products[locked[j].item.productId].priceCents
  }

  /** An intent, once readable, reads the same after every later checkout. */
  lemma FindCommittedStable(db: Database, req: Request, ids: Ids, key: (string, string))
    requires Apply(db, req, ids).Ok? && FreshIds(db, ids) && FindCommitted(db, key).Some?
    ensures FindCommitted(Apply(db, req, ids).value.db, key) == FindCommitted(db, key)
  {
    OrderRowsStable(db, req, ids, db.keys[key].orderId);
    assert KeyOf(req).Some? ==> KeyOf(req).value != key;
  }

  // ----- histories

  datatype Entry = Entry(client: nat, req: Request, ids: Ids)

  /** Run checkouts atomically, one after another. */
  function Serial(db: Database, log: seq<Entry>): Result<Database, Failure>
  {
    if log == [] then Ok(db)
    else
      var n := |log| - 1;
      match Serial(db, log[..n])
      case Err(f) => Err(f)
      case Ok(mid) =>
        match Apply(mid, log[n].req, log[n].ids)
        case Err(f) => Err(f)
        case Ok(receipt) => Ok(receipt.db)
  }

  /** Every checkout of the history commits, with fresh ids. */
  ghost predicate Legal(db: Database, log: seq<Entry>)
  {
    log != [] ==>
      var n := |log| - 1;
      && Legal(db, log[..n])
      && Serial(db, log[..n]).Ok?
      && ValidRequest(log[n].req)
      && FreshIds(Serial(db, log[..n]).value, log[n].ids)
      && Apply(Serial(db, log[..n]).value, log[n].req, log[n].ids).Ok?
  }

  lemma SerialUnfolds(db: Database, log: seq<Entry>)
    requires Legal(db, log) && log != []
    ensures var n := |log| - 1;
            Serial(db, log) == Ok(Apply(Serial(db, log[..n]).value, log[n].req, log[n].ids).value.db)
  {
  }

  /** Conservation over every serial history. */
  lemma {:induction false} SerialConserves(db: Database, log: seq<Entry>)
    requires Legal(db, log)
    ensures Serial(db, log).Ok?
    ensures Conserves(db, Serial(db, log).value)
    ensures Constraints(db) ==> Constraints(Serial(db, log).value)
    ensures TotalsAddUp(db) ==> TotalsAddUp(Serial(db, log).value)
  {
    if log != [] {
      var n := |log| - 1;
      SerialConserves(db, log[..n]);
      var mid := Serial(db, log[..n]).value;
      ApplyConserves(mid, log[n].req, log[n].ids);
      if Constraints(db) {
        ApplyKeepsConstraints(mid, log[n].req, log[n].ids);
      }
      if TotalsAddUp(db) {
        ApplyKeepsTotals(mid, log[n].req, log[n].ids);
      }
    }
  }

  /** Each committed order's running total never passes the integer column's maximum. */
  lemma PartialTotalsFit(db: Database, req: Request, ids: Ids, k: nat)
    requires Constraints(db) && ValidRequest(req) && Apply(db, req, ids).Ok? && k <= |req.items|
    ensures var locked := ItemsInLockOrder(req.items);
            var prices := ReserveAll(db.products, locked).value.prices;
            && |locked| == |req.items|
            && 0 <= Total(locked[..k], prices[..k]) <= MAX_INT
  {
    var locked := ItemsInLockOrder(req.items);
    LockOrderSorts(req.items);
    LockOrderCarriesIndexes(req.items);
    ReserveEffect(db.products, locked);
    forall i | 0 <= i < |locked| ensures locked[i].item.quantity >= 1 {
      assert locked[i] in locked;
    }
    TotalBounds(locked, ReserveAll(db.products, locked).value.prices, k);
  }

  // ----- histories, table by table

  /** The rows one committed checkout adds, all of them new. */
  ghost predicate Extends(before: Database, e: Entry, after: Database)
  {
    && FreshIds(before, e.ids)
    && |after.orders| == |before.orders| + 1 && after.orders[..|before.orders|] == before.orders
    && |after.jobs| == |before.jobs| + 1 && after.jobs[..|before.jobs|] == before.jobs
    && |after.outbox| == |before.outbox| + 1 && after.outbox[..|before.outbox|] == before.outbox
    && AreRowsOf(after.orders[|before.orders|], after.jobs[|before.jobs|], after.outbox[|before.outbox|], e)
    && after.keys == before.keys + KeyRows(e.req, e.ids.order)
    && (KeyOf(e.req).Some? ==> KeyOf(e.req).value !in before.keys)
  }

  predicate AreRowsOf(order: OrderRow, job: JobRow, outbox: OutboxRow, e: Entry)
  {
    && order.id == e.ids.order && order.userId == e.req.userId
    && job == JobRow(e.ids.job, e.ids.order)
    && outbox == OutboxRow(e.ids.outbox, Event(e.ids.event, e.ids.order, e.req.userId, order.totalCents))
  }

  lemma ApplyExtends(db: Database, e: Entry)
    requires FreshIds(db, e.ids) && Apply(db, e.req, e.ids).Ok?
    ensures Extends(db, e, Apply(db, e.req, e.ids).value.db)
  {
  }

  /** The tables before each checkout of a history, and after the last one. */
  ghost predicate Trail(states: seq<Database>, log: seq<Entry>)
  {
    && |states| == |log| + 1
    && forall i :: 0 <= i < |log| ==> Extends(states[i], log[i], states[i + 1])
  }

  /** One checkout commits. */
  ghost predicate Commits(before: Database, e: Entry, after: Database)
  {
    && ValidRequest(e.req) && FreshIds(before, e.ids)
    && Apply(before, e.req, e.ids).Ok? && Apply(before, e.req, e.ids).value.db == after
  }

  ghost predicate Chain(states: seq<Database>, log: seq<Entry>)
  {
    && |states| == |log| + 1
    && forall i :: 0 <= i < |log| ==> Commits(states[i], log[i], states[i + 1])
  }

  lemma ChainSnoc(states: seq<Database>, log: seq<Entry>, e: Entry, after: Database)
    requires Chain(states, log) && Commits(states[|log|], e, after)
    ensures Chain(states + [after], log + [e])
  {
  }

  /** A legal history is a chain of commits. */
  lemma {:induction false} ChainOf(db: Database, log: seq<Entry>) returns (states: seq<Database>)
    requires Legal(db, log)
    ensures Chain(states, log) && states[0] == db
    ensures Serial(db, log).Ok? && Serial(db, log).value == states[|log|]
  {
    states := [db];
    if log != [] {
      var n := |log| - 1;
      states := ChainOf(db, log[..n]);
      var after := Apply(states[n], log[n].req, log[n].ids).value.db;
      ChainSnoc(states, log[..n], log[n], after);
      assert log[..n] + [log[n]] == log;
      states := states + [after];
    }
  }

  lemma ChainIsTrail(states: seq<Database>, log: seq<Entry>)
    requires Chain(states, log)
    ensures Trail(states, log)
  {
    forall i | 0 <= i < |log| ensures Extends(states[i], log[i], states[i + 1]) {
      assert Commits(states[i], log[i], states[i + 1]);
      ApplyExtends(states[i], log[i]);
    }
  }

  lemma TrailOf(db: Database, log: seq<Entry>) returns (states: seq<Database>)
    requires Legal(db, log)
    ensures Trail(states, log) && states[0] == db
    ensures Serial(db, log).Ok? && Serial(db, log).value == states[|log|]
  {
    states := ChainOf(db, log);
    ChainIsTrail(states, log);
  }

  lemma ConservesTransitive(a: Database, b: Database, c: Database)
    requires Conserves(a, b) && Conserves(b, c)
    ensures Conserves(a, c)
  {
  }

  lemma CommitConserves(before: Database, e: Entry, after: Database)
    requires Commits(before, e, after)
    ensures Conserves(before, after) && (Constraints(before) ==> Constraints(after))
  {
    ApplyConserves(before, e.req, e.ids);
    if Constraints(before) {
      ApplyKeepsConstraints(before, e.req, e.ids);
    }
  }

  lemma {:induction false} ChainConserves(states: seq<Database>, log: seq<Entry>, j: nat)
    requires Chain(states, log) && j <= |log|
    ensures Conserves(states[0], states[j]) && (Constraints(states[0]) ==> Constraints(states[j]))
  {
    if j > 0 {
      ChainConserves(states, log, j - 1);
      CommitConserves(states[j - 1], log[j - 1], states[j - 1 + 1]);
      ConservesTransitive(states[0], states[j - 1], states[j]);
    }
  }

  /** The rows that the `i`-th checkout of a history added to tables which held `before`. */
  ghost predicate HoldsRowsOf(before: Database, after: Database, i: nat, e: Entry)
  {
    && |before.orders| + i < |after.orders| && |before.jobs| + i < |after.jobs| && |before.outbox| + i < |after.outbox|
    && AreRowsOf(after.orders[|before.orders| + i], after.jobs[|before.jobs| + i], after.outbox[|before.outbox| + i], e)
    && (KeyOf(e.req).Some? ==>
          && KeyOf(e.req).value in after.keys
          && after.keys[KeyOf(e.req).value] == KeyRow(e.ids.order, StoredHash(e.req)))
  }

  ghost predicate Longer(before: Database, after: Database, n: nat)
  {
    && |after.orders| == |before.orders| + n && |after.jobs| == |before.jobs| + n
    && |after.outbox| == |before.outbox| + n
  }

  lemma {:induction false} TrailLengths(states: seq<Database>, log: seq<Entry>, j: nat)
    requires Trail(states, log) && j <= |log|
    ensures Longer(states[0], states[j], j)
  {
    if j > 0 {
      TrailLengths(states, log, j - 1);
      assert Extends(states[j - 1], log[j - 1], states[j - 1 + 1]);
    }
  }

  lemma ExtendsKeepsRows(before: Database, mid: Database, e: Entry, after: Database, i: nat, earlier: Entry)
    requires Extends(mid, e, after) && HoldsRowsOf(before, mid, i, earlier)
    ensures HoldsRowsOf(before, after, i, earlier)
  {
    var o, j, x := |before.orders| + i, |before.jobs| + i, |before.outbox| + i;
    assert after.orders[o] == after.orders[..|mid.orders|][o];
    assert after.jobs[j] == after.jobs[..|mid.jobs|][j];
    assert after.outbox[x] == after.outbox[..|mid.outbox|][x];
  }

  lemma {:induction false} TrailRows(states: seq<Database>, log: seq<Entry>, i: nat, j: nat)
    requires Trail(states, log) && i < j <= |log|
    ensures HoldsRowsOf(states[0], states[j], i, log[i])
  {
    assert Extends(states[j - 1], log[j - 1], states[j - 1 + 1]);
    if i < j - 1 {
      TrailRows(states, log, i, j - 1);
      ExtendsKeepsRows(states[0], states[j - 1], log[j - 1], states[j], i, log[i]);
    } else {
      TrailLengths(states, log, i);
    }
  }

  /** A checkout is new to tables that hold an earlier one's rows. */
  lemma RowsDiffer(before: Database, mid: Database, i: nat, earlier: Entry, e: Entry, after: Database)
    requires HoldsRowsOf(before, mid, i, earlier) && Extends(mid, e, after)
    ensures IdsDiffer(earlier.ids, e.ids)
    ensures KeyOf(earlier.req).Some? ==> KeyOf(earlier.req) != KeyOf(e.req)
  {
    assert mid.orders[|before.orders| + i].id == earlier.ids.order;
  }

  /** The rows a history adds: one order, one job and one outbox row per checkout, in commit order. */
  ghost predicate AddsRows(before: Database, after: Database, log: seq<Entry>)
  {
    && Longer(before, after, |log|)
    && forall i :: 0 <= i < |log| ==>
         AreRowsOf(after.orders[|before.orders| + i], after.jobs[|before.jobs| + i], after.outbox[|before.outbox| + i],
                   log[i])
  }

  lemma TrailAddsRows(states: seq<Database>, log: seq<Entry>)
    requires Trail(states, log)
    ensures AddsRows(states[0], states[|log|], log)
  {
    TrailLengths(states, log, |log|);
    var before, after := states[0], states[|log|];
    forall i | 0 <= i < |log|
      ensures AreRowsOf(after.orders[|before.orders| + i], after.jobs[|before.jobs| + i],
                        after.outbox[|before.outbox| + i], log[i])
    {
      TrailRows(states, log, i, |log|);
    }
  }

  lemma SerialAddsRows(db: Database, log: seq<Entry>)
    requires Legal(db, log)
    ensures Serial(db, log).Ok? && AddsRows(db, Serial(db, log).value, log)
  {
    var states := TrailOf(db, log);
    TrailAddsRows(states, log);
  }

  /** Order rows stay where they were put. */
  lemma {:induction false} TrailOrders(states: seq<Database>, log: seq<Entry>, i: nat, j: nat)
    requires Trail(states, log) && i < j <= |log|
    ensures |states[i + 1].orders| == |states[i].orders| + 1 == |states[0].orders| + i + 1 <= |states[j].orders|
    ensures states[j].orders[|states[0].orders| + i] == states[i + 1].orders[|states[i].orders|]
  {
    assert Extends(states[j - 1], log[j - 1], states[j - 1 + 1]);
    TrailLengths(states, log, i);
    if i < j - 1 {
      TrailOrders(states, log, i, j - 1);
      var at := |states[0].orders| + i;
      assert states[j].orders[at] == states[j].orders[..|states[j - 1].orders|][at];
    }
  }

  /** No two checkouts of a history share an id of any kind, or an intent key. */
  lemma SerialKeysUnique(db: Database, log: seq<Entry>, i: nat, j: nat)
    requires Legal(db, log) && i < j < |log|
    ensures IdsDiffer(log[i].ids, log[j].ids)
    ensures KeyOf(log[i].req).Some? ==> KeyOf(log[i].req) != KeyOf(log[j].req)
  {
    var states := TrailOf(db, log);
    TrailRows(states, log, i, j);
    RowsDiffer(states[0], states[j], i, log[i], log[j], states[j + 1]);
  }

  lemma {:induction false} TrailKeys(states: seq<Database>, log: seq<Entry>, j: nat, key: (string, string))
    returns (i: nat)
    requires Trail(states, log) && j <= |log| && key in states[j].keys && key !in states[0].keys
    ensures i < j && KeyOf(log[i].req) == Some(key)
  {
    assert j > 0;
    i := j - 1;
    assert Extends(states[i], log[i], states[i + 1]);
    if KeyOf(log[i].req) != Some(key) {
      i := TrailKeys(states, log, i, key);
    }
  }

  /** An intent key in the tables was there at first, or a checkout of the history claimed it. */
  lemma SerialKeys(db: Database, log: seq<Entry>, key: (string, string)) returns (i: nat)
    requires Legal(db, log) && Serial(db, log).Ok? && key in Serial(db, log).value.keys && key !in db.keys
    ensures i < |log| && KeyOf(log[i].req) == Some(key)
  {
    var states := TrailOf(db, log);
    i := TrailKeys(states, log, |log|, key);
  }
}
