/**
 The tables a checkout transaction touches, and the transaction itself as one atomic
 function of the committed tables: `Apply`.

 Integer columns hold at most MAX_INT. Ids come from identity sequences and a UUID source,
 so they are arguments (`Ids`), not results.
 */
module CheckoutTables {
  import opened Prelude
  import opened LockOrder

  const MAX_INT := 0x7fff_ffff

  datatype Product = Product(priceCents: int, stock: int, active: bool)

  datatype OrderRow = OrderRow(id: nat, userId: string, totalCents: int)

  datatype ItemRow = ItemRow(orderId: nat, productId: string, quantity: int, unitPriceCents: int)

  datatype JobRow = JobRow(id: nat, orderId: nat)

  datatype Event = Event(eventId: nat, orderId: nat, userId: string, totalCents: int)

  datatype OutboxRow = OutboxRow(id: nat, event: Event)

  datatype KeyRow = KeyRow(orderId: nat, requestHash: string)

  /** Tables that only grow are sequences in insertion order; keyed tables that are updated are maps. */
  datatype Database = Database(
    products: map<string, Product>,
    balances: map<string, int>,
    orders: seq<OrderRow>,
    items: seq<ItemRow>,
    jobs: seq<JobRow>,
    outbox: seq<OutboxRow>,
    keys: map<(string, string), KeyRow>)

  datatype Ids = Ids(order: nat, job: nat, outbox: nat, event: nat)

  predicate IdsDiffer(a: Ids, b: Ids)
  {
    a.order != b.order && a.job != b.job && a.outbox != b.outbox && a.event != b.event
  }

  datatype Request = Request(
    userId: string,
    items: seq<Item>,
    idempotencyKey: Option<string>,
    requestHash: Option<string>,
    failAfterOutbox: bool)

  datatype CheckoutResult = CheckoutResult(
    orderId: nat, jobId: Option<nat>, totalCents: int, unitPrices: seq<int>, replay: bool)

  datatype Failure =
    | OutOfStock(position: nat) // the position, in lock order, of the item that was refused
    | InsufficientFunds
    | OutOfRange // SQLSTATE 22003: a parameter does not fit an integer column
    | DuplicateItem // SQLSTATE 23505 on order_items_uniq
    | WriteAborted
    | KeyTaken

  /** The checks `checkout` makes before it opens a transaction. */
  predicate ValidRequest(req: Request)
  {
    req.items != [] && forall i :: 0 <= i < |req.items| ==> req.items[i].quantity >= 1
  }

  /** An empty key is falsy, hence no key. */
  function KeyOf(req: Request): Option<(string, string)>
  {
    match req.idempotencyKey
    case Some(k) => if k != "" then Some((req.userId, k)) else None
    case None => None
  }

  function StoredHash(req: Request): string
  {
    match req.requestHash
    case Some(h) => h
    case None => ""
  }

  // ----- the product loop

  datatype Reservation = Reservation(products: map<string, Product>, prices: seq<int>)

  /** The WHERE clause of the stock update. */
  predicate Matches(products: map<string, Product>, item: Item)
  {
    && item.productId in products
    && products[item.productId].active
    && products[item.productId].stock >= item.quantity
  }

  function Decremented(p: Product, quantity: int): Product
  {
    p.(stock := p.stock - quantity)
  }

  function ReserveAll(products: map<string, Product>, locked: seq<Indexed>): (r: Result<Reservation, Failure>)
    ensures r.Ok? ==> |r.value.prices| == |locked|
  {
    if locked == [] then Ok(Reservation(products, []))
    else
      var n := |locked| - 1;
      match ReserveAll(products, locked[..n])
      case Err(f) => Err(f)
      case Ok(done) =>
        var item := locked[n].item;
        if item.quantity > MAX_INT then Err(OutOfRange)
        else if !Matches(done.products, item) then Err(OutOfStock(n))
        else
          var p := done.products[item.productId];
          Ok(Reservation(done.products[item.productId := Decremented(p, item.quantity)],
                         done.prices + [p.priceCents]))
  }

  function Total(locked: seq<Indexed>, prices: seq<int>): int
    requires |locked| == |prices|
  {
    if locked == [] then 0
    else
      var n := |locked| - 1;
      Total(locked[..n], prices[..n]) + prices[n] * locked[n].item.quantity
  }

  /** `unitPrices[index] = price`, entry by entry, in an array of `length` slots. */
  function InRequestOrder(locked: seq<Indexed>, prices: seq<int>, length: nat): (r: seq<int>)
    requires |locked| == |prices|
    ensures |r| == length
  {
    if locked == [] then seq(length, _ => 0)
    else
      var n := |locked| - 1;
      var before := InRequestOrder(locked[..n], prices[..n], length);
      if locked[n].index < length then before[locked[n].index := prices[n]] else before
  }

  // ----- the rows inserted

  function ItemRows(orderId: nat, locked: seq<Indexed>, prices: seq<int>): seq<ItemRow>
    requires |locked| == |prices|
  {
    seq(|locked|, i requires 0 <= i < |locked| =>
      ItemRow(orderId, locked[i].item.productId, locked[i].item.quantity, prices[i]))
  }

  predicate DistinctProducts(locked: seq<Indexed>)
  {
    forall i, j :: 0 <= i < j < |locked| ==> locked[i].item.productId != locked[j].item.productId
  }

  function KeyRows(req: Request, orderId: nat): map<(string, string), KeyRow>
  {
    match KeyOf(req)
    case Some(k) => map[k := KeyRow(orderId, StoredHash(req))]
    case None => map[]
  }

  function FirstResult(req: Request, ids: Ids, prices: seq<int>): CheckoutResult
    requires |prices| == |ItemsInLockOrder(req.items)|
  {
    var locked := ItemsInLockOrder(req.items);
    CheckoutResult(ids.order, Some(ids.job), Total(locked, prices),
                   InRequestOrder(locked, prices, |req.items|), false)
  }

  // ----- the whole transaction, run alone

  datatype Receipt = Receipt(db: Database, result: CheckoutResult)

  function Committed(db: Database, req: Request, ids: Ids, products: map<string, Product>, prices: seq<int>): Database
    requires |prices| == |ItemsInLockOrder(req.items)|
    requires req.userId in db.balances
  {
    var locked := ItemsInLockOrder(req.items);
    var total := Total(locked, prices);
    Database(
      products,
      db.balances[req.userId := db.balances[req.userId] - total],
      db.orders + [OrderRow(ids.order, req.userId, total)],
      db.items + ItemRows(ids.order, locked, prices),
      db.jobs + [JobRow(ids.job, ids.order)],
      db.outbox + [OutboxRow(ids.outbox, Event(ids.event, ids.order, req.userId, total))],
      db.keys + KeyRows(req, ids.order))
  }

  function Apply(db: Database, req: Request, ids: Ids): Result<Receipt, Failure>
  {
    var locked := ItemsInLockOrder(req.items);
    match ReserveAll(db.products, locked)
    case Err(f) => Err(f)
    case Ok(reserved) =>
      var total := Total(locked, reserved.prices);
      if total > MAX_INT then Err(OutOfRange)
      else if req.userId !in db.balances || db.balances[req.userId] < total then Err(InsufficientFunds)
      else if !DistinctProducts(locked) then Err(DuplicateItem)
      else if req.failAfterOutbox then Err(WriteAborted)
      else if KeyOf(req).Some? && KeyOf(req).value in db.keys then Err(KeyTaken)
      else Ok(Receipt(Committed(db, req, ids, reserved.products, reserved.prices),
                      FirstResult(req, ids, reserved.prices)))
  }

  // ----- reading an intent back

  function FindOrder(orders: seq<OrderRow>, id: nat): Option<OrderRow>
  {
    if orders == [] then None
    else if orders[|orders| - 1].id == id then Some(orders[|orders| - 1])
    else FindOrder(orders[..|orders| - 1], id)
  }

  /** `ORDER BY j.id DESC LIMIT 1` over the jobs of one order. */
  function LatestJob(jobs: seq<JobRow>, orderId: nat): Option<nat>
  {
    if jobs == [] then None
    else
      var job, rest := jobs[|jobs| - 1], LatestJob(jobs[..|jobs| - 1], orderId);
      if job.orderId == orderId && (rest.None? || rest.value < job.id) then Some(job.id) else rest
  }

  function ItemsOf(items: seq<ItemRow>, orderId: nat): seq<ItemRow>
  {
    if items == [] then []
    else
      var item, rest := items[|items| - 1], ItemsOf(items[..|items| - 1], orderId);
      if item.orderId == orderId then rest + [item] else rest
  }

  function Prices(items: seq<ItemRow>): seq<int>
  {
    seq(|items|, i requires 0 <= i < |items| => items[i].unitPriceCents)
  }

  datatype Intent = Intent(requestHash: string, result: CheckoutResult)

  function FindCommitted(db: Database, key: (string, string)): Option<Intent>
  {
    if key !in db.keys then None
    else
      var row := db.keys[key];
      match FindOrder(db.orders, row.orderId)
      case None => None
      case Some(order) =>
        Some(Intent(row.requestHash,
                    CheckoutResult(row.orderId, LatestJob(db.jobs, row.orderId), order.totalCents,
                                   Prices(ItemsOf(db.items, row.orderId)), true)))
  }

  predicate SameIntent(stored: string, incoming: Option<string>)
  {
    incoming.Some? ==> incoming.value == stored
  }
}
