/** What the answers of concurrent checkouts mean, in every reachable state. */
module CheckoutAnswers {
  import opened Prelude
  import opened LockOrder
  import opened CheckoutTables
  import opened CheckoutLaws
  import opened CheckoutRuns

  // ----- stock and balances only go down

  ghost predicate Shrinks(before: Database, after: Database)
  {
    && after.products.Keys == before.products.Keys
    && after.balances.Keys == before.balances.Keys
    && (forall p :: p in before.products ==>
          && after.products[p].priceCents == before.products[p].priceCents
          && after.products[p].active == before.products[p].active
          && after.products[p].stock <= before.products[p].stock)
    && (forall u :: u in before.balances ==> after.balances[u] <= before.balances[u])
  }

  lemma {:induction false} QuantityNonNegative(locked: seq<Indexed>, productId: string)
    requires forall i :: 0 <= i < |locked| ==> locked[i].item.quantity >= 1
    ensures QuantityOf(locked, productId) >= 0
  {
    if locked != [] {
      QuantityNonNegative(locked[..|locked| - 1], productId);
    }
  }

  lemma LockedQuantities(req: Request)
    requires ValidRequest(req)
    ensures var locked := ItemsInLockOrder(req.items);
            forall i :: 0 <= i < |locked| ==> locked[i].item.quantity >= 1
  {
    var locked := ItemsInLockOrder(req.items);
    LockOrderCarriesIndexes(req.items);
    forall i | 0 <= i < |locked| ensures locked[i].item.quantity >= 1 {
      assert locked[i] in locked;
    }
  }

  lemma ApplyShrinks(db: Database, req: Request, ids: Ids)
    requires Constraints(db) && ValidRequest(req) && Apply(db, req, ids).Ok?
    ensures Shrinks(db, Apply(db, req, ids).value.db)
  {
    var locked := ItemsInLockOrder(req.items);
    LockedQuantities(req);
    ReserveEffect(db.products, locked);
    forall p ensures QuantityOf(locked, p) >= 0 {
      QuantityNonNegative(locked, p);
    }
    TotalBounds(locked, ReserveAll(db.products, locked).value.prices, 0);
  }

  // ----- what an answer claims

  function PriceList(products: map<string, Product>, locked: seq<Indexed>): seq<int>
  {
    seq(|locked|, i requires 0 <= i < |locked| =>
      if locked[i].item.productId in products then products[locked[i].item.productId].priceCents else 0)
  }

  ghost predicate InRequestPrices(db: Database, req: Request, prices: seq<int>)
  {
    && |prices| == |req.items|
    && forall i :: 0 <= i < |req.items| ==>
         req.items[i].productId in db.products && prices[i] == db.products[req.items[i].productId].priceCents
  }

  ghost predicate InLog(log: seq<Entry>, id: nat, req: Request, orderId: nat)
  {
    exists i :: 0 <= i < |log| && log[i].client == id && log[i].req == req && log[i].ids.order == orderId
  }

  /** A keyed answer is the committed intent of its key. */
  ghost predicate ReadsBack(db: Database, req: Request, result: CheckoutResult)
  {
    KeyOf(req).Some? ==>
      var read := FindCommitted(db, KeyOf(req).value);
      read.Some? && SameResult(read.value.result, result)
  }

  ghost predicate AcceptedClaim(db: Database, log: seq<Entry>, id: nat, req: Request, result: CheckoutResult)
  {
    && ReadsBack(db, req, result)
    && if result.replay then
         && KeyOf(req).Some?
         && FindCommitted(db, KeyOf(req).value).value.result == result
         && SameIntent(FindCommitted(db, KeyOf(req).value).value.requestHash, req.requestHash)
       else InLog(log, id, req, result.orderId) && InRequestPrices(db, req, result.unitPrices)
  }

  ghost predicate ConflictClaim(db: Database, req: Request)
  {
    && KeyOf(req).Some? && FindCommitted(db, KeyOf(req).value).Some?
    && !SameIntent(FindCommitted(db, KeyOf(req).value).value.requestHash, req.requestHash)
  }

  ghost predicate StockClaim(db: Database, locked: seq<Indexed>, position: nat)
  {
    position < |locked| && Lacking(db.products, locked[..position], locked[position].item)
  }

  ghost predicate FundsClaim(db: Database, userId: string, locked: seq<Indexed>)
  {
    userId !in db.balances || db.balances[userId] < Total(locked, PriceList(db.products, locked))
  }

  ghost predicate RangeClaim(db: Database, locked: seq<Indexed>)
  {
    || (exists i :: 0 <= i < |locked| && locked[i].item.quantity > MAX_INT)
    || Total(locked, PriceList(db.products, locked)) > MAX_INT
  }

  /** Each refusal has its reason; a lost key race is never the last word. */
  ghost predicate RefusalClaim(db: Database, c: Client, failure: Failure)
  {
    match failure
    case OutOfStock(position) => StockClaim(db, c.locked, position)
    case InsufficientFunds => FundsClaim(db, c.req.userId, c.locked)
    case OutOfRange => RangeClaim(db, c.locked)
    case DuplicateItem => !DistinctProducts(c.locked)
    case WriteAborted => c.req.failAfterOutbox
    case KeyTaken => false
  }

  ghost predicate Claim(db: Database, log: seq<Entry>, id: nat, c: Client)
  {
    match c.phase
    case Rechecking => KeyOf(c.req).Some? && KeyOf(c.req).value in db.keys
    case Finished(Accepted(result)) => AcceptedClaim(db, log, id, c.req, result)
    case Finished(Conflict) => ConflictClaim(db, c.req)
    case Finished(Refused(failure)) => RefusalClaim(db, c, failure)
    case Finished(Invalid) => !ValidRequest(c.req)
    case _ => true
  }

  /** Each committed checkout belongs to a client of its own, which has finished. */
  ghost predicate LogClaim(log: seq<Entry>, clients: map<nat, Client>)
  {
    && (forall i :: 0 <= i < |log| ==>
          && log[i].client in clients
          && clients[log[i].client].req == log[i].req
          && CommittedPhase(clients[log[i].client].phase))
    && (forall i, j :: 0 <= i < j < |log| ==> log[i].client != log[j].client)
  }

  predicate CommittedPhase(phase: Phase)
  {
    phase.Finished? && match phase.reply
                       case Accepted(result) => !result.replay
                       case Broken(code) => code == "08006"
                       case _ => false
  }

  ghost predicate Answers(s: State)
  {
    && LogClaim(s.log, s.clients)
    && forall id :: id in s.clients ==> Claim(s.db, s.log, id, s.clients[id])
  }

  // ----- steps that do not commit

  lemma AnswersPut(s: State, id: nat, c: Client)
    requires Answers(s) && Claim(s.db, s.log, id, c)
    requires id in s.clients ==> !s.clients[id].phase.Finished?
    ensures Answers(Put(s, id, c))
  {
  }

  lemma LookClaims(db: Database, log: seq<Entry>, id: nat, c: Client)
    requires (c.phase.Arrived? || c.phase.Rechecking?) && KeysHaveOrders(db) && Claim(db, log, id, c)
    ensures Claim(db, log, id, LookOne(db, c))
  {
  }

  lemma ReserveRefusalClaims(db: Database, c: Client)
    requires ReservedInv(db, c) && c.phase.Reserving? && c.phase.n < |c.locked|
    requires ReserveStatement(db, c) == Refuse(OutOfStock(c.phase.n))
    ensures StockClaim(db, c.locked, c.phase.n)
  {
    ReserveEffect(db.products, c.locked[..c.phase.n]);
  }

  lemma LoopPrices(db: Database, c: Client)
    requires ReservedInv(db, c) && c.phase.Reserving? && c.phase.n == |c.locked|
    ensures c.prices == PriceList(db.products, c.locked) && c.totalCents == Total(c.locked, c.prices)
  {
    assert c.locked[..c.phase.n] == c.locked;
    ReserveEffect(db.products, c.locked);
  }

  lemma ReservingRefusalClaims(db: Database, next: Ids, c: Client)
    requires ReservedInv(db, c) && c.phase.Reserving? && Advance(db, next, c).Refuse?
    ensures RefusalClaim(db, c, Advance(db, next, c).failure)
  {
    if c.phase.n < |c.locked| {
      if Advance(db, next, c).failure.OutOfStock? {
        ReserveRefusalClaims(db, c);
      }
    } else {
      LoopPrices(db, c);
    }
  }

  lemma ItemRefusalClaims(db: Database, c: Client)
    requires ItemsInv(c) && c.phase.InsertingItems? && c.phase.k < |c.locked| && ItemStatement(c).Refuse?
    ensures !DistinctProducts(c.locked)
  {
    var k := c.phase.k;
    var j :| 0 <= j < |c.delta.items| && c.delta.items[j].productId == c.locked[k].item.productId;
    assert c.delta.items[j] == ItemRows(c.ids.order, c.locked, c.prices)[j];
    assert c.locked[j].item.productId == c.locked[k].item.productId;
  }

  lemma InsertingRefusalClaims(db: Database, next: Ids, c: Client)
    requires TxInv(db, next, c) && Running(c) && !c.phase.Reserving? && !c.phase.ClaimingKey?
    requires Advance(db, next, c).Refuse?
    ensures RefusalClaim(db, c, Advance(db, next, c).failure)
  {
    if c.phase.InsertingItems? {
      ItemRefusalClaims(db, c);
    }
  }

  lemma RefusalClaims(db: Database, next: Ids, log: seq<Entry>, id: nat, c: Client)
    requires ClientInv(db, next, c) && Running(c) && Advance(db, next, c).Refuse?
    ensures Claim(db, log, id, RolledBack(c, AfterRefusal(Advance(db, next, c).failure)))
  {
    match c.phase
    case Reserving(_) => ReservingRefusalClaims(db, next, c);
    case ClaimingKey =>
    case _ => InsertingRefusalClaims(db, next, c);
  }

  lemma StatementKeepsAnswers(s: State, id: nat)
    requires Inv(s) && Answers(s) && id in s.clients && Running(s.clients[id])
    ensures Answers(StatementOne(s, id))
  {
    var c := s.clients[id];
    assert ClientInv(s.db, s.next, c);
    if !Waits(s, id) {
      match Advance(s.db, s.next, c)
      case Proceed(c') =>
        AdvanceKeepsTxInv(s.db, s.next, c);
        AdvanceKeepsControl(s.db, s.next, c);
        AnswersPut(s, id, c');
      case Refuse(f) =>
        RefusalClaims(s.db, s.next, s.log, id, c);
        AnswersPut(s, id, RolledBack(c, AfterRefusal(f)));
    }
  }

  lemma RunKeepsAnswers(s: State, id: nat)
    requires Inv(s) && KeysHaveOrders(s.db) && Answers(s) && id in s.clients
    ensures Answers(RunOne(s, id))
  {
    var c := s.clients[id];
    if Running(c) {
      StatementKeepsAnswers(s, id);
    } else if c.phase.Arrived? || c.phase.Rechecking? {
      LookClaims(s.db, s.log, id, c);
      AnswersPut(s, id, LookOne(s.db, c));
    } else if c.phase.Backoff? {
      AnswersPut(s, id, Begun(c));
    }
  }

  // ----- commits

  lemma StockClaimKept(before: Database, after: Database, locked: seq<Indexed>, position: nat)
    requires Shrinks(before, after) && StockClaim(before, locked, position)
    ensures StockClaim(after, locked, position)
  {
  }

  lemma FundsClaimKept(before: Database, after: Database, userId: string, locked: seq<Indexed>)
    requires Shrinks(before, after) && FundsClaim(before, userId, locked)
    ensures FundsClaim(after, userId, locked)
  {
    assert PriceList(after.products, locked) == PriceList(before.products, locked);
  }

  lemma AcceptedClaimKept(db: Database, log: seq<Entry>, e: Entry, id: nat, req: Request, result: CheckoutResult)
    requires Apply(db, e.req, e.ids).Ok? && FreshIds(db, e.ids) && Shrinks(db, Apply(db, e.req, e.ids).value.db)
    requires AcceptedClaim(db, log, id, req, result)
    ensures AcceptedClaim(Apply(db, e.req, e.ids).value.db, log + [e], id, req, result)
  {
    if KeyOf(req).Some? {
      FindCommittedStable(db, e.req, e.ids, KeyOf(req).value);
    }
    if !result.replay {
      var i :| 0 <= i < |log| && log[i].client == id && log[i].req == req && log[i].ids.order == result.orderId;
      assert (log + [e])[i] == log[i];
    }
  }

  lemma RefusalClaimKept(before: Database, after: Database, c: Client, failure: Failure)
    requires Shrinks(before, after) && RefusalClaim(before, c, failure)
    ensures RefusalClaim(after, c, failure)
  {
    match failure
    case OutOfStock(position) => StockClaimKept(before, after, c.locked, position);
    case InsufficientFunds => FundsClaimKept(before, after, c.req.userId, c.locked);
    case OutOfRange => assert PriceList(after.products, c.locked) == PriceList(before.products, c.locked);
    case _ =>
  }

  lemma ClaimKept(db: Database, log: seq<Entry>, e: Entry, id: nat, c: Client)
    requires Apply(db, e.req, e.ids).Ok? && FreshIds(db, e.ids) && Shrinks(db, Apply(db, e.req, e.ids).value.db)
    requires Claim(db, log, id, c)
    ensures Claim(Apply(db, e.req, e.ids).value.db, log + [e], id, c)
  {
    match c.phase
    case Finished(Accepted(result)) => AcceptedClaimKept(db, log, e, id, c.req, result);
    case Finished(Conflict) => FindCommittedStable(db, e.req, e.ids, KeyOf(c.req).value);
    case Finished(Refused(failure)) => RefusalClaimKept(db, Apply(db, e.req, e.ids).value.db, c, failure);
    case _ =>
  }

  lemma CommitterClaims(db: Database, log: seq<Entry>, e: Entry)
    requires Apply(db, e.req, e.ids).Ok? && FreshIds(db, e.ids) && Shrinks(db, Apply(db, e.req, e.ids).value.db)
    ensures var receipt := Apply(db, e.req, e.ids).value;
            AcceptedClaim(receipt.db, log + [e], e.client, e.req, receipt.result)
  {
    assert (log + [e])[|log|] == e;
    FirstPricesInRequestOrder(db, e.req, e.ids);
    if KeyOf(e.req).Some? {
      ReadBack(db, e.req, e.ids);
    }
  }

  lemma LogClaimGrows(s: State, id: nat, heard: bool)
    requires LogClaim(s.log, s.clients) && id in s.clients && s.clients[id].phase.Committing?
    ensures LogClaim(CommitOne(s, id, heard).log, CommitOne(s, id, heard).clients)
  {
  }

  /** A commit, seen as the atomic checkout it is. */
  lemma CommitApplies(s: State, id: nat)
    requires Inv(s) && id in s.clients && s.clients[id].phase.Committing?
    ensures var c := s.clients[id];
            && ValidRequest(c.req) && FreshIds(s.db, c.ids)
            && Apply(s.db, c.req, c.ids) == Ok(Receipt(Merge(s.db, c.delta), ResultOf(c)))
  {
    assert ClientInv(s.db, s.next, s.clients[id]);
    CommitIsAtomic(s.db, s.next, s.clients[id]);
  }

  lemma CommitKeepsAnswers(s: State, id: nat, heard: bool)
    requires Inv(s) && Constraints(s.db) && Answers(s) && id in s.clients && s.clients[id].phase.Committing?
    ensures Answers(CommitOne(s, id, heard))
  {
    var c := s.clients[id];
    var e, s' := Entry(id, c.req, c.ids), CommitOne(s, id, heard);
    CommitApplies(s, id);
    ApplyShrinks(s.db, c.req, c.ids);
    LogClaimGrows(s, id, heard);
    CommitterClaims(s.db, s.log, e);
    forall other | other in s'.clients ensures Claim(s'.db, s'.log, other, s'.clients[other]) {
      if other != id {
        ClaimKept(s.db, s.log, e, other, s.clients[other]);
      }
    }
  }

  lemma StepKeepsAnswers(s: State, a: Action)
    requires Inv(s) && Constraints(s.db) && Answers(s)
    ensures Answers(Next(s, a))
  {
    match a
    case Run(id) => if id in s.clients { RunKeepsAnswers(s, id); }
    case Commit(id, heard) =>
      if id in s.clients && s.clients[id].phase.Committing? {
        CommitKeepsAnswers(s, id, heard);
      }
    case Arrive(id, req) => if id !in s.clients { AnswersPut(s, id, Next(s, a).clients[id]); }
    case Abort(id, code) =>
      if id in s.clients && Interruptible(s.clients[id]) {
        AnswersPut(s, id, RolledBack(s.clients[id], AfterAbort(s.clients[id], code)));
      }
    case Crash(id) =>
      if id in s.clients && !s.clients[id].phase.Finished? {
        AnswersPut(s, id, RolledBack(s.clients[id], Finished(Crashed)));
      }
  }
}
