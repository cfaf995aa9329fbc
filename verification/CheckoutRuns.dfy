/**
 Any number of checkouts running at once.

 Every action is one statement of one client, or an abort, a crash or a commit of it. A client's own updates stay
 in its `delta` (private row versions) until it commits. An updated row, the debited user row and the inserted
 intent key stay locked until then. A statement whose WHERE clause does not match the committed row refuses at
 once; one that matches waits while another client holds the row, so it is evaluated again on the committed row
 once that client is gone.
 */
module CheckoutRuns {
  import opened Prelude
  import opened LockOrder
  import opened CheckoutTables
  import opened CheckoutLaws
  import WithRetry

  datatype Reply =
    | Accepted(result: CheckoutResult)
    | Refused(failure: Failure)
    | Conflict // same key, different request hash
    | Invalid
    | Broken(code: string) // a database error that is not retried, or a lost connection
    | Crashed

  datatype Phase =
    | Arrived // about to look its intent up
    | Reserving(n: nat) // n product rows updated; after the last one the next statement is the debit
    | InsertingOrder
    | InsertingItems(k: nat) // k items inserted; after the last one the next statement is the job
    | InsertingOutbox
    | ClaimingKey
    | Committing
    | Backoff
    | Rechecking // lost the key race, about to read the winner
    | Finished(reply: Reply)

  /**
   `locked` is the request in lock order; `prices`, `totalCents` and `unitPrices` are the locals of the product loop.
   */
  datatype Client = Client(
    req: Request, locked: seq<Indexed>, attempt: nat, phase: Phase,
    prices: seq<int>, totalCents: int, unitPrices: seq<int>, ids: Ids, delta: Database)

  datatype State = State(db: Database, next: Ids, clients: map<nat, Client>, log: seq<Entry>)

  datatype Action =
    | Arrive(id: nat, req: Request)
    | Run(id: nat)
    | Abort(id: nat, code: string)
    | Crash(id: nat)
    | Commit(id: nat, heard: bool) // heard: the client got the confirmation

  const MAX_ATTEMPTS := 5
  const EMPTY := Database(map[], map[], [], [], [], [], map[])
  const NO_IDS := Ids(0, 0, 0, 0)

  // ----- locks

  datatype Resource = ProductRow(productId: string) | UserRow(userId: string) | IntentKey(key: (string, string))

  predicate Holds(c: Client, r: Resource)
  {
    match r
    case ProductRow(p) => p in c.delta.products
    case UserRow(u) => u in c.delta.balances
    case IntentKey(k) => k in c.delta.keys
  }

  /** The row the next statement locks. */
  function Wants(c: Client): Option<Resource>
  {
    match c.phase
    case Reserving(n) =>
      if n < |c.locked| then Some(ProductRow(c.locked[n].item.productId)) else Some(UserRow(c.req.userId))
    case ClaimingKey => if KeyOf(c.req).Some? then Some(IntentKey(KeyOf(c.req).value)) else None
    case _ => None
  }

  ghost predicate HeldByOther(s: State, id: nat, r: Resource)
  {
    exists other :: other in s.clients && other != id && Holds(s.clients[other], r)
  }

  // ----- one statement

  datatype Verdict = Proceed(client: Client) | Refuse(failure: Failure)

  /** The client after one more turn of the product loop, in which it got `row`. */
  function Reserved(c: Client, n: nat, row: Product): Client
    requires n < |c.locked|
  {
    var Indexed(item, index) := c.locked[n];
    c.(phase := Reserving(n + 1),
       prices := c.prices + [row.priceCents],
       totalCents := c.totalCents + row.priceCents * item.quantity,
       unitPrices := if index < |c.unitPrices| then c.unitPrices[index := row.priceCents] else c.unitPrices,
       delta := c.delta.(products := c.delta.products[item.productId := Decremented(row, item.quantity)]))
  }

  function ReserveStatement(db: Database, c: Client): Verdict
    requires c.phase.Reserving? && c.phase.n < |c.locked|
  {
    var n, view := c.phase.n, db.products + c.delta.products;
    var item := c.locked[n].item;
    if item.quantity > MAX_INT then Refuse(OutOfRange)
    else if !Matches(view, item) then Refuse(OutOfStock(n))
    else Proceed(Reserved(c, n, view[item.productId]))
  }

  function DebitStatement(db: Database, c: Client): Verdict
  {
    var u := c.req.userId;
    if c.totalCents > MAX_INT then Refuse(OutOfRange)
    else if u !in db.balances || db.balances[u] < c.totalCents then Refuse(InsufficientFunds)
    else Proceed(c.(phase := InsertingOrder, delta := c.delta.(balances := map[u := db.balances[u] - c.totalCents])))
  }

  function OrderStatement(next: Ids, c: Client): Verdict
  {
    var order := OrderRow(next.order, c.req.userId, c.totalCents);
    Proceed(c.(phase := InsertingItems(0), ids := next, delta := c.delta.(orders := [order])))
  }

  function ItemStatement(c: Client): Verdict
    requires c.phase.InsertingItems? && c.phase.k < |c.locked| && c.phase.k < |c.prices|
  {
    var k := c.phase.k;
    var item := c.locked[k].item;
    if exists j :: 0 <= j < |c.delta.items| && c.delta.items[j].productId == item.productId then Refuse(DuplicateItem)
    else
      var row := ItemRow(c.ids.order, item.productId, item.quantity, c.prices[k]);
      Proceed(c.(phase := InsertingItems(k + 1), delta := c.delta.(items := c.delta.items + [row])))
  }

  function JobStatement(c: Client): Verdict
  {
    Proceed(c.(phase := InsertingOutbox, delta := c.delta.(jobs := [JobRow(c.ids.job, c.ids.order)])))
  }

  function OutboxStatement(c: Client): Verdict
  {
    if c.req.failAfterOutbox then Refuse(WriteAborted)
    else
      var event := Event(c.ids.event, c.ids.order, c.req.userId, c.totalCents);
      Proceed(c.(phase := ClaimingKey, delta := c.delta.(outbox := [OutboxRow(c.ids.outbox, event)])))
  }

  function KeyStatement(db: Database, c: Client): Verdict
  {
    if KeyOf(c.req).Some? && KeyOf(c.req).value in db.keys then Refuse(KeyTaken)
    else Proceed(c.(phase := Committing, delta := c.delta.(keys := KeyRows(c.req, c.ids.order))))
  }

  /** Inside the transaction, with a statement left to run. */
  predicate Running(c: Client)
  {
    match c.phase
    case Reserving(_) => true
    case InsertingOrder => true
    case InsertingItems(_) => true
    case InsertingOutbox => true
    case ClaimingKey => true
    case _ => false
  }

  predicate InTx(c: Client)
  {
    Running(c) || c.phase.Committing?
  }

  /** The outcome of the next statement, if it does not have to wait. */
  function Advance(db: Database, next: Ids, c: Client): Verdict
    requires Running(c)
  {
    match c.phase
    case Reserving(n) => if n < |c.locked| then ReserveStatement(db, c) else DebitStatement(db, c)
    case InsertingOrder => OrderStatement(next, c)
    case InsertingItems(k) => if k < |c.locked| && k < |c.prices| then ItemStatement(c) else JobStatement(c)
    case InsertingOutbox => OutboxStatement(c)
    case ClaimingKey => KeyStatement(db, c)
  }

  /** The next statement matches a row that another client has locked. */
  ghost predicate Waits(s: State, id: nat)
  {
    && id in s.clients
    && Running(s.clients[id])
    && Advance(s.db, s.next, s.clients[id]).Proceed?
    && Wants(s.clients[id]).Some?
    && HeldByOther(s, id, Wants(s.clients[id]).value)
  }

  // ----- one action

  function Begun(c: Client): Client
  {
    Client(c.req, c.locked, c.attempt + 1, Reserving(0), [], 0, seq(|c.req.items|, _ => 0), NO_IDS, EMPTY)
  }

  function RolledBack(c: Client, phase: Phase): Client
  {
    Client(c.req, c.locked, c.attempt, phase, [], 0, [], NO_IDS, EMPTY)
  }

  function ReplyFrom(c: Client, intent: Intent): Reply
  {
    if SameIntent(intent.requestHash, c.req.requestHash) then Accepted(intent.result) else Conflict
  }

  function Looked(db: Database, c: Client): Option<Intent>
  {
    if KeyOf(c.req).Some? then FindCommitted(db, KeyOf(c.req).value) else None
  }

  function Drawn(next: Ids): Ids
  {
    Ids(next.order + 1, next.job + 1, next.outbox + 1, next.event + 1)
  }

  function Merge(db: Database, delta: Database): Database
  {
    Database(db.products + delta.products, db.balances + delta.balances, db.orders + delta.orders,
             db.items + delta.items, db.jobs + delta.jobs, db.outbox + delta.outbox, db.keys + delta.keys)
  }

  function Put(s: State, id: nat, c: Client): State
  {
    s.(clients := s.clients[id := c])
  }

  /** The sequences move on even if the order is rolled back later. */
  function NextAfter(next: Ids, c: Client): Ids
  {
    if c.phase.InsertingOrder? then Drawn(next) else next
  }

  /** Only a lost key race leads to another read; every other refusal is the answer. */
  function AfterRefusal(f: Failure): Phase
  {
    if f == KeyTaken then Rechecking else Finished(Refused(f))
  }

  /** Run the next statement of a transaction, unless it has to wait. */
  ghost function StatementOne(s: State, id: nat): State
    requires id in s.clients && Running(s.clients[id])
  {
    var c := s.clients[id];
    if Waits(s, id) then s
    else
      match Advance(s.db, s.next, c)
      case Proceed(c') => Put(s, id, c').(next := NextAfter(s.next, c))
      case Refuse(f) => Put(s, id, RolledBack(c, AfterRefusal(f)))
  }

  function Answered(c: Client, reply: Reply): Client
  {
    c.(phase := Finished(reply))
  }

  /** The first look at the intent, and the second one after a lost key race. */
  function LookOne(db: Database, c: Client): Client
  {
    match Looked(db, c)
    case Some(intent) => Answered(c, ReplyFrom(c, intent))
    case None => if c.phase.Arrived? then Begun(c) else Answered(c, Refused(KeyTaken))
  }

  ghost function RunOne(s: State, id: nat): State
    requires id in s.clients
  {
    var c := s.clients[id];
    if Running(c) then StatementOne(s, id)
    else if c.phase.Arrived? || c.phase.Rechecking? then Put(s, id, LookOne(s.db, c))
    else if c.phase.Backoff? then Put(s, id, Begun(c))
    else s
  }

  /** In the middle of a database call, which may fail. */
  predicate Interruptible(c: Client)
  {
    !c.phase.Finished? && !c.phase.Backoff?
  }

  /** The retry rule: only a serialization failure or a deadlock of the transaction itself, five attempts in all. */
  function AfterAbort(c: Client, code: string): Phase
  {
    if InTx(c) && WithRetry.Retryable(code) && c.attempt < MAX_ATTEMPTS then Backoff else Finished(Broken(code))
  }

  function ResultOf(c: Client): CheckoutResult
  {
    CheckoutResult(c.ids.order, Some(c.ids.job), c.totalCents, c.unitPrices, false)
  }

  ghost function CommitOne(s: State, id: nat, heard: bool): State
    requires id in s.clients
  {
    var c := s.clients[id];
    var reply := if heard then Accepted(ResultOf(c)) else Broken("08006");
    State(Merge(s.db, c.delta), s.next, s.clients[id := RolledBack(c, Finished(reply))],
          s.log + [Entry(id, c.req, c.ids)])
  }

  /** An action that is not possible in a state changes nothing. */
  ghost function Next(s: State, a: Action): State
  {
    match a
    case Arrive(id, req) =>
      if id in s.clients then s
      else
        var phase := if ValidRequest(req) then Arrived else Finished(Invalid);
        Put(s, id, Client(req, ItemsInLockOrder(req.items), 0, phase, [], 0, [], NO_IDS, EMPTY))
    case Run(id) => if id in s.clients then RunOne(s, id) else s
    case Abort(id, code) =>
      if id in s.clients && Interruptible(s.clients[id])
      then Put(s, id, RolledBack(s.clients[id], AfterAbort(s.clients[id], code))) else s
    case Crash(id) =>
      if id in s.clients && !s.clients[id].phase.Finished?
      then Put(s, id, RolledBack(s.clients[id], Finished(Crashed))) else s
    case Commit(id, heard) =>
      if id in s.clients && s.clients[id].phase.Committing? then CommitOne(s, id, heard) else s
  }

  /** The state after a sequence of actions. */
  ghost function Exec(s: State, actions: seq<Action>): State
  {
    if actions == [] then s
    else Next(Exec(s, actions[..|actions| - 1]), actions[|actions| - 1])
  }

  // ----- the invariant

  ghost predicate IdsBelow(ids: Ids, next: Ids)
  {
    ids.order < next.order && ids.job < next.job && ids.outbox < next.outbox && ids.event < next.event
  }

  /** No row has an id the sequences could still give out. */
  ghost predicate RowsBelow(db: Database, next: Ids)
  {
    && (forall i :: 0 <= i < |db.orders| ==> db.orders[i].id < next.order)
    && (forall i :: 0 <= i < |db.items| ==> db.items[i].orderId < next.order)
    && (forall i :: 0 <= i < |db.jobs| ==> db.jobs[i].id < next.job && db.jobs[i].orderId < next.order)
    && (forall i :: 0 <= i < |db.outbox| ==> db.outbox[i].id < next.outbox && db.outbox[i].event.eventId < next.event
                                             && db.outbox[i].event.orderId < next.order)
    && (forall k :: k in db.keys ==> db.keys[k].orderId < next.order)
  }

  predicate HasDrawn(c: Client)
  {
    c.phase.InsertingItems? || c.phase.InsertingOutbox? || c.phase.ClaimingKey? || c.phase.Committing?
  }

  function ReservedCount(c: Client): nat
  {
    match c.phase
    case Reserving(n) => n
    case _ => |c.locked|
  }

  function ProductIds(locked: seq<Indexed>): set<string>
  {
    set i | 0 <= i < |locked| :: locked[i].item.productId
  }

  /** The product loop over `locked`, run alone, takes `products` to `products + overlay` with these locals. */
  ghost predicate LoopDid(products: map<string, Product>, locked: seq<Indexed>, length: nat,
                          overlay: map<string, Product>, prices: seq<int>, totalCents: int, unitPrices: seq<int>)
  {
    && |prices| == |locked|
    && overlay.Keys == ProductIds(locked)
    && ReserveAll(products, locked) == Ok(Reservation(products + overlay, prices))
    && totalCents == Total(locked, prices)
    && unitPrices == InRequestOrder(locked, prices, length)
  }

  /** Run alone on the tables as they are now, the product loop would have done what this client has done. */
  ghost predicate ReservedInv(db: Database, c: Client)
  {
    && ReservedCount(c) <= |c.locked|
    && LoopDid(db.products, c.locked[..ReservedCount(c)], |c.req.items|,
               c.delta.products, c.prices, c.totalCents, c.unitPrices)
  }

  ghost predicate DebitedInv(db: Database, c: Client)
  {
    && c.req.userId in db.balances
    && c.totalCents <= MAX_INT && c.totalCents <= db.balances[c.req.userId]
    && c.delta.balances == map[c.req.userId := db.balances[c.req.userId] - c.totalCents]
  }

  ghost predicate DrawnInv(db: Database, next: Ids, c: Client)
  {
    if HasDrawn(c) then
      && FreshIds(db, c.ids) && IdsBelow(c.ids, next)
      && c.delta.orders == [OrderRow(c.ids.order, c.req.userId, c.totalCents)]
    else c.delta.orders == []
  }

  ghost predicate ItemsInv(c: Client)
  {
    var locked := c.locked;
    if !HasDrawn(c) then c.delta.items == []
    else
      && |locked| == |c.prices|
      && (if c.phase.InsertingItems? then
            && c.phase.k <= |locked|
            && c.delta.items == ItemRows(c.ids.order, locked, c.prices)[..c.phase.k]
            && DistinctProducts(locked[..c.phase.k])
          else c.delta.items == ItemRows(c.ids.order, locked, c.prices) && DistinctProducts(locked))
  }

  ghost predicate TailInv(db: Database, c: Client)
  {
    var published := c.phase.ClaimingKey? || c.phase.Committing?;
    && c.delta.jobs == (if c.phase.InsertingOutbox? || published then [JobRow(c.ids.job, c.ids.order)] else [])
    && (published ==> !c.req.failAfterOutbox)
    && c.delta.outbox == (if published
                          then [OutboxRow(c.ids.outbox, Event(c.ids.event, c.ids.order, c.req.userId, c.totalCents))]
                          else [])
    && c.delta.keys == (if c.phase.Committing? then KeyRows(c.req, c.ids.order) else map[])
    && (c.phase.Committing? && KeyOf(c.req).Some? ==> KeyOf(c.req).value !in db.keys)
  }

  ghost predicate TxInv(db: Database, next: Ids, c: Client)
  {
    && ReservedInv(db, c)
    && (if c.phase.Reserving? then c.delta == EMPTY.(products := c.delta.products)
        else DebitedInv(db, c) && DrawnInv(db, next, c) && ItemsInv(c) && TailInv(db, c))
  }

  ghost predicate ControlInv(c: Client)
  {
    && c.locked == ItemsInLockOrder(c.req.items)
    && (!c.phase.Finished? ==> ValidRequest(c.req))
    && (c.phase.Rechecking? ==> KeyOf(c.req).Some?)
    && c.attempt <= MAX_ATTEMPTS
    && (c.phase.Backoff? ==> c.attempt < MAX_ATTEMPTS)
    && (c.phase.Arrived? ==> c.attempt == 0)
  }

  ghost predicate ClientInv(db: Database, next: Ids, c: Client)
  {
    ControlInv(c) && if InTx(c) then TxInv(db, next, c) else c.delta == EMPTY
  }

  /** Two clients never hold the same row, and never drew the same id. */
  ghost predicate Apart(a: Client, b: Client)
  {
    && (forall r :: !(Holds(a, r) && Holds(b, r)))
    && (HasDrawn(a) && HasDrawn(b) ==> IdsDiffer(a.ids, b.ids))
  }

  ghost predicate AllApart(clients: map<nat, Client>)
  {
    forall a, b :: a in clients && b in clients && a != b ==> Apart(clients[a], clients[b])
  }

  ghost predicate Inv(s: State)
  {
    && RowsBelow(s.db, s.next)
    && (forall id :: id in s.clients ==> ClientInv(s.db, s.next, s.clients[id]))
    && AllApart(s.clients)
  }

  /** The committed tables are what the committed checkouts make of the initial ones, one after another. */
  ghost predicate Serialized(init: State, s: State)
  {
    Legal(init.db, s.log) && Serial(init.db, s.log) == Ok(s.db)
  }

  /** No client yet, and ids not given out yet. */
  ghost predicate Initial(s: State)
  {
    s.clients == map[] && s.log == [] && RowsBelow(s.db, s.next)
  }

  // ----- statements keep the invariant

  lemma ReserveExtends(products: map<string, Product>, locked: seq<Indexed>, n: nat, r: Reservation, length: nat)
    requires n < |locked| && ReserveAll(products, locked[..n]) == Ok(r)
    requires locked[n].item.quantity <= MAX_INT && Matches(r.products, locked[n].item)
    ensures var Indexed(item, index) := locked[n];
            var row := r.products[item.productId];
            var prices, before := r.prices + [row.priceCents], InRequestOrder(locked[..n], r.prices, length);
            && ReserveAll(products, locked[..n + 1])
               == Ok(Reservation(r.products[item.productId := Decremented(row, item.quantity)], prices))
            && Total(locked[..n + 1], prices) == Total(locked[..n], r.prices) + row.priceCents * item.quantity
            && InRequestOrder(locked[..n + 1], prices, length)
               == if index < length then before[index := row.priceCents] else before
  {
    assert locked[..n + 1][..n] == locked[..n];
    assert (r.prices + [r.products[locked[n].item.productId].priceCents])[..n] == r.prices;
  }

  /** One more turn of the product loop. */
  lemma LoopExtends(products: map<string, Product>, locked: seq<Indexed>, n: nat, length: nat,
                    overlay: map<string, Product>, prices: seq<int>, totalCents: int, unitPrices: seq<int>)
    requires n < |locked| && LoopDid(products, locked[..n], length, overlay, prices, totalCents, unitPrices)
    requires locked[n].item.quantity <= MAX_INT && Matches(products + overlay, locked[n].item)
    ensures var Indexed(item, index) := locked[n];
            var row := (products + overlay)[item.productId];
            LoopDid(products, locked[..n + 1], length,
                    overlay[item.productId := Decremented(row, item.quantity)], prices + [row.priceCents],
                    totalCents + row.priceCents * item.quantity,
                    if index < length then unitPrices[index := row.priceCents] else unitPrices)
  {
    var pid := locked[n].item.productId;
    var row := Decremented((products + overlay)[pid], locked[n].item.quantity);
    ReserveExtends(products, locked, n, Reservation(products + overlay, prices), length);
    assert overlay[pid := row].Keys == ProductIds(locked[..n + 1]) by {
      ProductIdsGrow(locked, n);
    }
    MergeUpdate(products, overlay, pid, row);
  }

  lemma MergeUpdate(products: map<string, Product>, overlay: map<string, Product>, pid: string, row: Product)
    ensures products + overlay[pid := row] == (products + overlay)[pid := row]
  {
  }

  lemma LoopIsReserved(db: Database, c: Client)
    requires c.phase.Reserving? && c.phase.n <= |c.locked|
    requires LoopDid(db.products, c.locked[..c.phase.n], |c.req.items|,
                     c.delta.products, c.prices, c.totalCents, c.unitPrices)
    ensures ReservedInv(db, c)
  {
  }

  lemma ReservedKeepsLoop(db: Database, c: Client, n: nat, row: Product)
    requires c.phase == Reserving(n) && n < |c.locked| && |c.unitPrices| == |c.req.items|
    requires LoopDid(db.products, c.locked[..n], |c.req.items|, c.delta.products, c.prices, c.totalCents, c.unitPrices)
    requires c.locked[n].item.quantity <= MAX_INT && Matches(db.products + c.delta.products, c.locked[n].item)
    requires row == (db.products + c.delta.products)[c.locked[n].item.productId]
    ensures ReservedInv(db, Reserved(c, n, row))
  {
    LoopExtends(db.products, c.locked, n, |c.req.items|, c.delta.products, c.prices, c.totalCents, c.unitPrices);
    LoopIsReserved(db, Reserved(c, n, row));
  }

  lemma ReserveKeepsInv(db: Database, next: Ids, c: Client)
    requires ReservedInv(db, c) && c.phase.Reserving? && c.phase.n < |c.locked|
    requires c.delta == EMPTY.(products := c.delta.products)
    requires ReserveStatement(db, c).Proceed?
    ensures TxInv(db, next, ReserveStatement(db, c).client)
  {
    var n, view := c.phase.n, db.products + c.delta.products;
    assert |c.unitPrices| == |c.req.items|;
    ReservedKeepsLoop(db, c, n, view[c.locked[n].item.productId]);
  }

  lemma ProductIdsGrow(locked: seq<Indexed>, n: nat)
    requires n < |locked|
    ensures ProductIds(locked[..n + 1]) == ProductIds(locked[..n]) + {locked[n].item.productId}
  {
    forall p | p in ProductIds(locked[..n]) ensures p in ProductIds(locked[..n + 1]) {
      var i :| 0 <= i < n && locked[..n][i].item.productId == p;
      assert locked[..n + 1][i].item.productId == p;
    }
    assert locked[..n + 1][n].item.productId in ProductIds(locked[..n + 1]);
    forall p | p in ProductIds(locked[..n + 1]) ensures p in ProductIds(locked[..n]) + {locked[n].item.productId} {
      var i :| 0 <= i < n + 1 && locked[..n + 1][i].item.productId == p;
      assert i < n ==> locked[..n][i].item.productId == p;
    }
  }

  lemma DebitKeepsInv(db: Database, next: Ids, c: Client)
    requires TxInv(db, next, c) && c.phase.Reserving? && c.phase.n == |c.locked|
    requires DebitStatement(db, c).Proceed?
    ensures TxInv(db, next, DebitStatement(db, c).client)
  {
  }

  lemma OrderKeepsInv(db: Database, next: Ids, c: Client)
    requires TxInv(db, next, c) && c.phase.InsertingOrder? && RowsBelow(db, next)
    ensures TxInv(db, Drawn(next), OrderStatement(next, c).client)
  {
  }

  lemma ItemKeepsInv(db: Database, next: Ids, c: Client)
    requires TxInv(db, next, c) && c.phase.InsertingItems? && c.phase.k < |c.locked|
    requires ItemStatement(c).Proceed?
    ensures TxInv(db, next, ItemStatement(c).client)
  {
    var k, locked := c.phase.k, c.locked;
    var rows := ItemRows(c.ids.order, locked, c.prices);
    forall j | 0 <= j < k ensures locked[j].item.productId != locked[k].item.productId {
      assert c.delta.items[j] == rows[j];
    }
    assert rows[..k + 1] == rows[..k] + [rows[k]];
  }

  lemma JobKeepsInv(db: Database, next: Ids, c: Client)
    requires TxInv(db, next, c) && c.phase.InsertingItems? && c.phase.k == |c.locked|
    ensures TxInv(db, next, JobStatement(c).client)
  {
    var locked := c.locked;
    assert locked[..|locked|] == locked;
    assert c.delta.items == ItemRows(c.ids.order, locked, c.prices);
  }

  lemma OutboxKeepsInv(db: Database, next: Ids, c: Client)
    requires TxInv(db, next, c) && c.phase.InsertingOutbox?
    requires OutboxStatement(c).Proceed?
    ensures TxInv(db, next, OutboxStatement(c).client)
  {
  }

  lemma KeyKeepsInv(db: Database, next: Ids, c: Client)
    requires TxInv(db, next, c) && c.phase.ClaimingKey?
    requires KeyStatement(db, c).Proceed?
    ensures TxInv(db, next, KeyStatement(db, c).client)
  {
  }

  lemma AdvanceKeepsTxInv(db: Database, next: Ids, c: Client)
    requires Running(c) && TxInv(db, next, c) && RowsBelow(db, next) && Advance(db, next, c).Proceed?
    ensures TxInv(db, NextAfter(next, c), Advance(db, next, c).client)
  {
    match c.phase
    case Reserving(n) => if n < |c.locked| { ReserveKeepsInv(db, next, c); } else { DebitKeepsInv(db, next, c); }
    case InsertingOrder => OrderKeepsInv(db, next, c);
    case InsertingItems(k) => if k < |c.locked| { ItemKeepsInv(db, next, c); } else { JobKeepsInv(db, next, c); }
    case InsertingOutbox => OutboxKeepsInv(db, next, c);
    case ClaimingKey => KeyKeepsInv(db, next, c);
  }

  /** A statement locks at most the row it asked for. */
  lemma AdvanceLocks(db: Database, next: Ids, c: Client, r: Resource)
    requires Running(c) && Advance(db, next, c).Proceed? && Holds(Advance(db, next, c).client, r)
    ensures Holds(c, r) || Wants(c) == Some(r)
  {
  }

  lemma AdvanceDraws(db: Database, next: Ids, c: Client)
    requires Running(c) && Advance(db, next, c).Proceed? && HasDrawn(Advance(db, next, c).client)
    ensures Advance(db, next, c).client.ids == if c.phase.InsertingOrder? then next else c.ids
    ensures c.phase.InsertingOrder? || HasDrawn(c)
  {
  }

  lemma AdvanceStaysApart(s: State, id: nat, other: nat)
    requires id in s.clients && other in s.clients && other != id
    requires Running(s.clients[id]) && !Waits(s, id) && Advance(s.db, s.next, s.clients[id]).Proceed?
    requires Apart(s.clients[id], s.clients[other])
    requires HasDrawn(s.clients[other]) ==> IdsBelow(s.clients[other].ids, s.next)
    ensures Apart(Advance(s.db, s.next, s.clients[id]).client, s.clients[other])
  {
    var c := s.clients[id];
    var c' := Advance(s.db, s.next, c).client;
    forall r ensures !(Holds(c', r) && Holds(s.clients[other], r)) {
      if Holds(c', r) && Holds(s.clients[other], r) {
        AdvanceLocks(s.db, s.next, c, r);
        assert HeldByOther(s, id, r);
        assert false;
      }
    }
    if HasDrawn(c') {
      AdvanceDraws(s.db, s.next, c);
    }
  }

  lemma ClientInvLater(db: Database, next: Ids, c: Client)
    requires ClientInv(db, next, c)
    ensures ClientInv(db, Drawn(next), c)
  {
  }

  lemma ApartPut(clients: map<nat, Client>, id: nat, c: Client)
    requires AllApart(clients)
    requires forall other :: other in clients && other != id ==> Apart(c, clients[other])
    ensures AllApart(clients[id := c])
  {
    var clients' := clients[id := c];
    forall a, b | a in clients' && b in clients' && a != b ensures Apart(clients'[a], clients'[b]) {
      if a != id && b != id {
        assert Apart(clients[a], clients[b]);
      }
    }
  }

  lemma LockFreeApart(c: Client, other: Client)
    requires c.delta == EMPTY && !HasDrawn(c)
    ensures Apart(c, other)
  {
  }

  /** A client that moves without touching the committed tables keeps the invariant. */
  lemma LocalStep(s: State, id: nat, c: Client, next: Ids)
    requires Inv(s)
    requires next == s.next || next == Drawn(s.next)
    requires ClientInv(s.db, next, c)
    requires forall other :: other in s.clients && other != id ==> Apart(c, s.clients[other])
    ensures Inv(Put(s, id, c).(next := next))
  {
    var s' := Put(s, id, c).(next := next);
    ApartPut(s.clients, id, c);
    forall other | other in s'.clients ensures ClientInv(s.db, next, s'.clients[other]) {
      if other != id {
        assert ClientInv(s.db, s.next, s.clients[other]);
        if next != s.next {
          ClientInvLater(s.db, s.next, s.clients[other]);
        }
      }
    }
  }

  /** A client with no locks is apart from every other. */
  lemma LockFreeStep(s: State, id: nat, c: Client)
    requires Inv(s) && ClientInv(s.db, s.next, c) && c.delta == EMPTY && !HasDrawn(c)
    ensures Inv(Put(s, id, c))
  {
    forall other | other in s.clients && other != id ensures Apart(c, s.clients[other]) {
      LockFreeApart(c, s.clients[other]);
    }
    LocalStep(s, id, c, s.next);
    assert Put(s, id, c).(next := s.next) == Put(s, id, c);
  }

  lemma ControlOf(s: State, id: nat)
    requires Inv(s) && id in s.clients
    ensures ControlInv(s.clients[id])
  {
    assert ClientInv(s.db, s.next, s.clients[id]);
  }

  lemma IdleStep(s: State, id: nat, c: Client)
    requires Inv(s) && ControlInv(c) && !InTx(c) && c.delta == EMPTY
    ensures Inv(Put(s, id, c))
  {
    LockFreeStep(s, id, c);
  }

  lemma BeginStep(s: State, id: nat)
    requires Inv(s) && id in s.clients && (s.clients[id].phase.Arrived? || s.clients[id].phase.Backoff?)
    ensures Inv(Put(s, id, Begun(s.clients[id])))
  {
    assert ClientInv(s.db, s.next, s.clients[id]);
    BegunInv(s.db, s.next, s.clients[id]);
    LockFreeStep(s, id, Begun(s.clients[id]));
  }

  lemma AnswerStep(s: State, id: nat, reply: Reply)
    requires Inv(s) && id in s.clients && !InTx(s.clients[id])
    ensures Inv(Put(s, id, Answered(s.clients[id], reply)))
  {
    assert ClientInv(s.db, s.next, s.clients[id]);
    IdleStep(s, id, Answered(s.clients[id], reply));
  }

  lemma LeaveStep(s: State, id: nat, phase: Phase)
    requires Inv(s) && id in s.clients
    requires ControlInv(RolledBack(s.clients[id], phase)) && !InTx(RolledBack(s.clients[id], phase))
    ensures Inv(Put(s, id, RolledBack(s.clients[id], phase)))
  {
    IdleStep(s, id, RolledBack(s.clients[id], phase));
  }

  lemma BegunInv(db: Database, next: Ids, c: Client)
    requires ControlInv(c) && (c.phase.Arrived? || c.phase.Backoff?)
    ensures ClientInv(db, next, Begun(c))
  {
    assert c.locked[..0] == [];
    assert db.products + map[] == db.products;
    assert ReservedInv(db, Begun(c));
  }

  lemma AdvanceKeepsInv(s: State, id: nat)
    requires Inv(s) && id in s.clients && Running(s.clients[id])
    requires !Waits(s, id) && Advance(s.db, s.next, s.clients[id]).Proceed?
    ensures Inv(Put(s, id, Advance(s.db, s.next, s.clients[id]).client).(next := NextAfter(s.next, s.clients[id])))
  {
    var c := s.clients[id];
    var c' := Advance(s.db, s.next, c).client;
    assert ClientInv(s.db, s.next, c);
    AdvanceKeepsTxInv(s.db, s.next, c);
    AdvanceKeepsControl(s.db, s.next, c);
    forall other | other in s.clients && other != id ensures Apart(c', s.clients[other]) {
      assert ClientInv(s.db, s.next, s.clients[other]);
      assert Apart(c, s.clients[other]);
      AdvanceStaysApart(s, id, other);
    }
    LocalStep(s, id, c', NextAfter(s.next, c));
  }

  lemma AdvanceKeepsControl(db: Database, next: Ids, c: Client)
    requires Running(c) && ControlInv(c) && Advance(db, next, c).Proceed?
    ensures ControlInv(Advance(db, next, c).client) && InTx(Advance(db, next, c).client)
  {
  }

  lemma StatementKeepsInv(s: State, id: nat)
    requires Inv(s) && id in s.clients && Running(s.clients[id])
    ensures Inv(StatementOne(s, id))
  {
    var c := s.clients[id];
    if !Waits(s, id) {
      match Advance(s.db, s.next, c)
      case Proceed(c') => AdvanceKeepsInv(s, id);
      case Refuse(f) =>
        ControlOf(s, id);
        RefusalKeepsControl(s.db, s.next, c);
        LeaveStep(s, id, AfterRefusal(f));
    }
  }

  lemma RefusalKeepsControl(db: Database, next: Ids, c: Client)
    requires Running(c) && ControlInv(c) && Advance(db, next, c).Refuse?
    ensures ControlInv(RolledBack(c, AfterRefusal(Advance(db, next, c).failure)))
    ensures !InTx(RolledBack(c, AfterRefusal(Advance(db, next, c).failure)))
  {
  }

  lemma RunKeepsInv(s: State, id: nat)
    requires Inv(s) && id in s.clients
    ensures Inv(RunOne(s, id))
  {
    var c := s.clients[id];
    if Running(c) {
      StatementKeepsInv(s, id);
    } else if c.phase.Backoff? {
      BeginStep(s, id);
    } else if c.phase.Arrived? || c.phase.Rechecking? {
      LookKeepsInv(s, id);
    }
  }

  lemma LookKeepsInv(s: State, id: nat)
    requires Inv(s) && id in s.clients && (s.clients[id].phase.Arrived? || s.clients[id].phase.Rechecking?)
    ensures Inv(Put(s, id, LookOne(s.db, s.clients[id])))
  {
    var c := s.clients[id];
    match Looked(s.db, c)
    case Some(intent) => AnswerStep(s, id, ReplyFrom(c, intent));
    case None => if c.phase.Arrived? { BeginStep(s, id); } else { AnswerStep(s, id, Refused(KeyTaken)); }
  }

  // ----- a commit

  /** Rows outside a product loop can change under it without changing what it does. */
  lemma {:induction false} ReserveFrame(products: map<string, Product>, extra: map<string, Product>,
                                        locked: seq<Indexed>)
    requires ReserveAll(products, locked).Ok?
    requires ProductIds(locked) !! extra.Keys
    ensures var r := ReserveAll(products, locked).value;
            ReserveAll(products + extra, locked) == Ok(Reservation(r.products + extra, r.prices))
  {
    if locked != [] {
      var n := |locked| - 1;
      assert locked[..n + 1] == locked;
      ProductIdsGrow(locked, n);
      ReserveFrame(products, extra, locked[..n]);
      var done := ReserveAll(products, locked[..n]).value;
      var pid := locked[n].item.productId;
      var row := Decremented(done.products[pid], locked[n].item.quantity);
      assert (done.products + extra)[pid := row] == done.products[pid := row] + extra;
    }
  }

  lemma ApplyIs(db: Database, req: Request, ids: Ids, reserved: Reservation)
    requires var locked := ItemsInLockOrder(req.items);
             && ReserveAll(db.products, locked) == Ok(reserved)
             && Total(locked, reserved.prices) <= MAX_INT && DistinctProducts(locked)
             && req.userId in db.balances && Total(locked, reserved.prices) <= db.balances[req.userId]
    requires !req.failAfterOutbox && (KeyOf(req).Some? ==> KeyOf(req).value !in db.keys)
    ensures |reserved.prices| == |ItemsInLockOrder(req.items)|
    ensures Apply(db, req, ids) == Ok(Receipt(Committed(db, req, ids, reserved.products, reserved.prices),
                                              FirstResult(req, ids, reserved.prices)))
  {
  }

  /** What a client about to commit has found out: each check of the atomic checkout passes. */
  lemma ChecksPassed(db: Database, next: Ids, c: Client)
    requires TxInv(db, next, c) && c.phase.Committing? && c.locked == ItemsInLockOrder(c.req.items)
    ensures ReserveAll(db.products, c.locked) == Ok(Reservation(db.products + c.delta.products, c.prices))
    ensures |c.prices| == |c.locked| && c.totalCents == Total(c.locked, c.prices)
    ensures c.unitPrices == InRequestOrder(c.locked, c.prices, |c.req.items|)
    ensures c.totalCents <= MAX_INT && DistinctProducts(c.locked)
    ensures c.req.userId in db.balances && c.totalCents <= db.balances[c.req.userId]
    ensures !c.req.failAfterOutbox && (KeyOf(c.req).Some? ==> KeyOf(c.req).value !in db.keys)
  {
    assert c.locked[..|c.locked|] == c.locked;
  }

  /** The rows it wrote are the rows of the atomic checkout. */
  lemma DeltaIsCommitted(db: Database, next: Ids, c: Client)
    requires TxInv(db, next, c) && c.phase.Committing? && c.locked == ItemsInLockOrder(c.req.items)
    requires |c.prices| == |c.locked| && c.totalCents == Total(c.locked, c.prices) && c.req.userId in db.balances
    ensures Merge(db, c.delta) == Committed(db, c.req, c.ids, db.products + c.delta.products, c.prices)
  {
    assert db.balances + c.delta.balances == db.balances[c.req.userId := db.balances[c.req.userId] - c.totalCents];
  }

  /** At its commit, a client has done exactly what it would have done alone on the tables as they are now. */
  lemma CommitIsAtomic(db: Database, next: Ids, c: Client)
    requires TxInv(db, next, c) && c.phase.Committing? && c.locked == ItemsInLockOrder(c.req.items)
    ensures FreshIds(db, c.ids)
    ensures Apply(db, c.req, c.ids) == Ok(Receipt(Merge(db, c.delta), ResultOf(c)))
  {
    ChecksPassed(db, next, c);
    ApplyIs(db, c.req, c.ids, Reservation(db.products + c.delta.products, c.prices));
    DeltaIsCommitted(db, next, c);
  }

  /** Rows committed by others do not disturb a loop that has all of its own rows locked. */
  lemma LoopFrame(products: map<string, Product>, extra: map<string, Product>, locked: seq<Indexed>, length: nat,
                  overlay: map<string, Product>, prices: seq<int>, totalCents: int, unitPrices: seq<int>)
    requires LoopDid(products, locked, length, overlay, prices, totalCents, unitPrices)
    requires overlay.Keys !! extra.Keys
    ensures LoopDid(products + extra, locked, length, overlay, prices, totalCents, unitPrices)
  {
    ReserveFrame(products, extra, locked);
    MergeSwap(products, overlay, extra);
  }

  lemma MergeSwap(products: map<string, Product>, a: map<string, Product>, b: map<string, Product>)
    requires a.Keys !! b.Keys
    ensures products + a + b == products + b + a
  {
  }

  lemma CommitKeepsFresh(db: Database, next: Ids, c: Client, ids: Ids)
    requires TxInv(db, next, c) && c.phase.Committing?
    requires FreshIds(db, ids) && IdsDiffer(c.ids, ids)
    ensures FreshIds(Merge(db, c.delta), ids)
  {
  }

  lemma CommitKeepsReserved(db: Database, c: Client, other: Client)
    requires ReservedInv(db, other) && c.delta.products.Keys !! other.delta.products.Keys
    ensures ReservedInv(Merge(db, c.delta), other)
  {
    LoopFrame(db.products, c.delta.products, other.locked[..ReservedCount(other)], |other.req.items|,
              other.delta.products, other.prices, other.totalCents, other.unitPrices);
  }

  lemma CommitKeepsOther(db: Database, next: Ids, c: Client, other: Client)
    requires TxInv(db, next, c) && c.phase.Committing?
    requires TxInv(db, next, other) && InTx(other) && Apart(c, other)
    ensures TxInv(Merge(db, c.delta), next, other)
  {
    var after := Merge(db, c.delta);
    ApartKeys(c, other);
    CommitKeepsReserved(db, c, other);
    if !other.phase.Reserving? {
      if HasDrawn(other) {
        CommitKeepsFresh(db, next, c, other.ids);
      }
      assert other.req.userId in other.delta.balances;
      assert other.phase.Committing? && KeyOf(other.req).Some? ==> KeyOf(other.req).value in other.delta.keys;
    }
  }

  lemma ApartKeys(a: Client, b: Client)
    requires Apart(a, b)
    ensures a.delta.products.Keys !! b.delta.products.Keys
    ensures a.delta.balances.Keys !! b.delta.balances.Keys
    ensures a.delta.keys.Keys !! b.delta.keys.Keys
  {
    forall p ensures !(p in a.delta.products && p in b.delta.products) {
      assert !(Holds(a, ProductRow(p)) && Holds(b, ProductRow(p)));
    }
    forall u ensures !(u in a.delta.balances && u in b.delta.balances) {
      assert !(Holds(a, UserRow(u)) && Holds(b, UserRow(u)));
    }
    forall k ensures !(k in a.delta.keys && k in b.delta.keys) {
      assert !(Holds(a, IntentKey(k)) && Holds(b, IntentKey(k)));
    }
  }

  lemma CommitKeepsRowsBelow(db: Database, next: Ids, c: Client)
    requires TxInv(db, next, c) && c.phase.Committing? && RowsBelow(db, next)
    ensures RowsBelow(Merge(db, c.delta), next)
  {
  }

  lemma CommitKeepsClients(s: State, id: nat, other: nat)
    requires Inv(s) && id in s.clients && s.clients[id].phase.Committing? && other in s.clients && other != id
    ensures ClientInv(Merge(s.db, s.clients[id].delta), s.next, s.clients[other])
  {
    assert ClientInv(s.db, s.next, s.clients[id]);
    assert ClientInv(s.db, s.next, s.clients[other]);
    assert Apart(s.clients[id], s.clients[other]);
    if InTx(s.clients[other]) {
      CommitKeepsOther(s.db, s.next, s.clients[id], s.clients[other]);
    }
  }

  lemma CommitKeepsTables(s: State, id: nat)
    requires Inv(s) && id in s.clients && s.clients[id].phase.Committing?
    ensures RowsBelow(Merge(s.db, s.clients[id].delta), s.next)
  {
    assert ClientInv(s.db, s.next, s.clients[id]);
    CommitKeepsRowsBelow(s.db, s.next, s.clients[id]);
  }

  lemma FinishedApart(s: State, id: nat, reply: Reply)
    requires Inv(s) && id in s.clients
    ensures AllApart(s.clients[id := RolledBack(s.clients[id], Finished(reply))])
  {
    var c := RolledBack(s.clients[id], Finished(reply));
    forall other | other in s.clients && other != id ensures Apart(c, s.clients[other]) {
      LockFreeApart(c, s.clients[other]);
    }
    ApartPut(s.clients, id, c);
  }

  lemma FinishedInv(c: Client, reply: Reply, db: Database, next: Ids)
    requires ControlInv(c)
    ensures ClientInv(db, next, RolledBack(c, Finished(reply)))
  {
  }

  lemma CommitKeepsInv(s: State, id: nat, heard: bool)
    requires Inv(s) && id in s.clients && s.clients[id].phase.Committing?
    ensures Inv(CommitOne(s, id, heard))
  {
    var db, clients := Merge(s.db, s.clients[id].delta), CommitOne(s, id, heard).clients;
    var reply := clients[id].phase.reply;
    CommitKeepsTables(s, id);
    FinishedApart(s, id, reply);
    ControlOf(s, id);
    FinishedInv(s.clients[id], reply, db, s.next);
    forall other | other in clients ensures ClientInv(db, s.next, clients[other]) {
      if other != id {
        CommitKeepsClients(s, id, other);
      }
    }
  }

  lemma AbortedControl(c: Client, code: string)
    requires ControlInv(c) && Interruptible(c)
    ensures ControlInv(RolledBack(c, AfterAbort(c, code))) && !InTx(RolledBack(c, AfterAbort(c, code)))
  {
  }

  lemma AbortKeepsInv(s: State, id: nat, code: string)
    requires Inv(s) && id in s.clients && Interruptible(s.clients[id])
    ensures Inv(Put(s, id, RolledBack(s.clients[id], AfterAbort(s.clients[id], code))))
  {
    ControlOf(s, id);
    AbortedControl(s.clients[id], code);
    LeaveStep(s, id, AfterAbort(s.clients[id], code));
  }

  lemma CrashKeepsInv(s: State, id: nat)
    requires Inv(s) && id in s.clients
    ensures Inv(Put(s, id, RolledBack(s.clients[id], Finished(Crashed))))
  {
    ControlOf(s, id);
    LeaveStep(s, id, Finished(Crashed));
  }

  lemma ArriveKeepsInv(s: State, id: nat, req: Request)
    requires Inv(s)
    ensures Inv(Next(s, Arrive(id, req)))
  {
    if id !in s.clients {
      IdleStep(s, id, Next(s, Arrive(id, req)).clients[id]);
    }
  }

  lemma StepKeepsInv(s: State, a: Action)
    requires Inv(s)
    ensures Inv(Next(s, a))
  {
    match a
    case Run(id) => if id in s.clients { RunKeepsInv(s, id); }
    case Commit(id, heard) => if id in s.clients && s.clients[id].phase.Committing? { CommitKeepsInv(s, id, heard); }
    case Arrive(id, req) => ArriveKeepsInv(s, id, req);
    case Abort(id, code) => if id in s.clients && Interruptible(s.clients[id]) { AbortKeepsInv(s, id, code); }
    case Crash(id) => if id in s.clients { CrashKeepsInv(s, id); }
  }

  /** Only a commit changes the committed tables. */
  lemma OnlyCommitWrites(s: State, a: Action)
    requires a.Commit? ==> a.id !in s.clients || !s.clients[a.id].phase.Committing?
    ensures Next(s, a).db == s.db && Next(s, a).log == s.log
  {
  }

  lemma StepKeepsSerialized(init: State, s: State, a: Action)
    requires Inv(s) && Serialized(init, s)
    ensures Serialized(init, Next(s, a))
  {
    if a.Commit? && a.id in s.clients && s.clients[a.id].phase.Committing? {
      var c := s.clients[a.id];
      assert ClientInv(s.db, s.next, c);
      CommitIsAtomic(s.db, s.next, c);
      LegalExtends(init.db, s.log, Entry(a.id, c.req, c.ids), s.db);
    } else {
      OnlyCommitWrites(s, a);
    }
  }

  lemma LegalExtends(db: Database, log: seq<Entry>, e: Entry, mid: Database)
    requires Legal(db, log) && Serial(db, log) == Ok(mid)
    requires ValidRequest(e.req) && FreshIds(mid, e.ids) && Apply(mid, e.req, e.ids).Ok?
    ensures Legal(db, log + [e]) && Serial(db, log + [e]) == Ok(Apply(mid, e.req, e.ids).value.db)
  {
    assert (log + [e])[..|log|] == log;
  }

  lemma {:induction false} ExecKeepsInv(init: State, actions: seq<Action>)
    requires Initial(init)
    ensures Inv(Exec(init, actions)) && Serialized(init, Exec(init, actions))
  {
    if actions != [] {
      var before, a := Exec(init, actions[..|actions| - 1]), actions[|actions| - 1];
      ExecKeepsInv(init, actions[..|actions| - 1]);
      StepKeepsInv(before, a);
      StepKeepsSerialized(init, before, a);
    }
  }
}
