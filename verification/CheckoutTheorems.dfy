/** The main results about concurrent checkouts: for every initial database and every sequence of actions. */
module CheckoutTheorems {
  import opened Prelude
  import opened Finite
  import opened LockOrder
  import opened CheckoutTables
  import opened CheckoutLaws
  import opened CheckoutRuns
  import opened CheckoutAnswers

  /** Every interleaving leaves the tables that the committed checkouts alone, run one by one in commit order, leave. */
  lemma RunsSerialize(init: State, actions: seq<Action>)
    requires Initial(init)
    ensures var s := Exec(init, actions); Legal(init.db, s.log) && Serial(init.db, s.log) == Ok(s.db)
  {
    ExecKeepsInv(init, actions);
  }

  /** The tables before each commit of a run, and after the last one. */
  lemma RunsChain(init: State, actions: seq<Action>) returns (states: seq<Database>)
    requires Initial(init)
    ensures Chain(states, Exec(init, actions).log)
    ensures states[0] == init.db && states[|Exec(init, actions).log|] == Exec(init, actions).db
  {
    RunsSerialize(init, actions);
    states := ChainOf(init.db, Exec(init, actions).log);
  }

  /**
   In every reachable state: stock and money that left the tables is in the committed order items and orders,
   nothing is negative, and every order's total is the sum over its items.
   */
  lemma RunsConserve(init: State, actions: seq<Action>)
    requires Initial(init) && Constraints(init.db) && TotalsAddUp(init.db)
    ensures var db := Exec(init, actions).db; Conserves(init.db, db) && Constraints(db) && TotalsAddUp(db)
  {
    RunsSerialize(init, actions);
    SerialConserves(init.db, Exec(init, actions).log);
  }

  lemma {:induction false} RunsAnswer(init: State, actions: seq<Action>)
    requires Initial(init) && Constraints(init.db)
    ensures Answers(Exec(init, actions))
  {
    if actions != [] {
      var before := actions[..|actions| - 1];
      RunsAnswer(init, before);
      ExecKeepsInv(init, before);
      SerialConserves(init.db, Exec(init, before).log);
      StepKeepsAnswers(Exec(init, before), actions[|actions| - 1]);
    }
  }

  // ----- idempotency

  /** All successful answers for one (user, key) name the same order, job and total, with the same prices. */
  lemma OneAnswerPerKey(init: State, actions: seq<Action>, a: nat, b: nat)
    requires Initial(init) && Constraints(init.db)
    requires var s := Exec(init, actions);
             && a in s.clients && b in s.clients
             && s.clients[a].phase.Finished? && s.clients[a].phase.reply.Accepted?
             && s.clients[b].phase.Finished? && s.clients[b].phase.reply.Accepted?
             && KeyOf(s.clients[a].req).Some? && KeyOf(s.clients[a].req) == KeyOf(s.clients[b].req)
    ensures var s := Exec(init, actions);
            SameResult(s.clients[a].phase.reply.result, s.clients[b].phase.reply.result)
  {
    RunsAnswer(init, actions);
    var s := Exec(init, actions);
    assert Claim(s.db, s.log, a, s.clients[a]) && Claim(s.db, s.log, b, s.clients[b]);
  }

  /** A first answer lists prices in request order; a replay lists those the committed items have, in lock order. */
  lemma AnswerPrices(init: State, actions: seq<Action>, a: nat)
    requires Initial(init) && Constraints(init.db)
    requires var s := Exec(init, actions);
             a in s.clients && s.clients[a].phase.Finished? && s.clients[a].phase.reply.Accepted?
    ensures var s := Exec(init, actions);
            var c := s.clients[a];
            var result := c.phase.reply.result;
            if result.replay then
              && KeyOf(c.req).Some? && KeyOf(c.req).value in s.db.keys
              && result.unitPrices == Prices(ItemsOf(s.db.items, s.db.keys[KeyOf(c.req).value].orderId))
            else InRequestPrices(s.db, c.req, result.unitPrices)
  {
    RunsAnswer(init, actions);
    var s := Exec(init, actions);
    assert Claim(s.db, s.log, a, s.clients[a]);
  }

  /** `key` can be read back, with the prices that `req` has at `before`, in lock order. */
  ghost predicate Replays(before: Database, after: Database, req: Request, key: (string, string))
  {
    var read := FindCommitted(after, key);
    read.Some? && LockOrderPrices(before, req, read.value.result.unitPrices)
  }

  /** The prices a committed intent reads back, as long as prices stand: those of its request, in lock order. */
  lemma {:induction false} ReplayPricesInLockOrder(db: Database, log: seq<Entry>, i: nat)
    requires Legal(db, log) && i < |log| && KeyOf(log[i].req).Some?
    ensures Serial(db, log).Ok? && Replays(db, Serial(db, log).value, log[i].req, KeyOf(log[i].req).value)
  {
    var n := |log| - 1;
    if i < n {
      ReplayPricesInLockOrder(db, log[..n], i);
      assert log[..n][i] == log[i];
      SerialUnfolds(db, log);
      ReplayStays(db, Serial(db, log[..n]).value, log[n], log[i].req, KeyOf(log[i].req).value);
    } else {
      LastReplays(db, log);
    }
  }

  lemma LastReplays(db: Database, log: seq<Entry>)
    requires Legal(db, log) && log != [] && KeyOf(log[|log| - 1].req).Some?
    ensures var req := log[|log| - 1].req;
            Serial(db, log).Ok? && Replays(db, Serial(db, log).value, req, KeyOf(req).value)
  {
    var n := |log| - 1;
    SerialUnfolds(db, log);
    SerialConserves(db, log[..n]);
    ReadBackAt(db, Serial(db, log[..n]).value, log[n].req, log[n].ids);
  }

  lemma ReplayStays(before: Database, mid: Database, e: Entry, req: Request, key: (string, string))
    requires FreshIds(mid, e.ids) && Apply(mid, e.req, e.ids).Ok? && Replays(before, mid, req, key)
    ensures Replays(before, Apply(mid, e.req, e.ids).value.db, req, key)
  {
    FindCommittedStable(mid, e.req, e.ids, key);
  }

  lemma ReadBackAt(before: Database, mid: Database, req: Request, ids: Ids)
    requires FreshIds(mid, ids) && KeyOf(req).Some? && Apply(mid, req, ids).Ok? && Conserves(before, mid)
    ensures Replays(before, Apply(mid, req, ids).value.db, req, KeyOf(req).value)
  {
    ReadBack(mid, req, ids);
    var read := FindCommitted(Apply(mid, req, ids).value.db, KeyOf(req).value).value;
    PricesStand(before, mid, req, read.result.unitPrices);
  }

  lemma PricesStand(before: Database, after: Database, req: Request, prices: seq<int>)
    requires Conserves(before, after) && LockOrderPrices(after, req, prices)
    ensures LockOrderPrices(before, req, prices)
  {
  }

  /**
   Each client commits at most once however often it retries, each (user, key) commits at most once, and each
   commit adds exactly one order, one job and one outbox row.
   */
  lemma CommitsAreUnique(init: State, actions: seq<Action>, i: nat, j: nat)
    requires Initial(init) && Constraints(init.db)
    requires i < j < |Exec(init, actions).log|
    ensures var s := Exec(init, actions);
            && s.log[i].client != s.log[j].client
            && s.log[i].ids.order != s.log[j].ids.order
            && (KeyOf(s.log[i].req).Some? ==> KeyOf(s.log[i].req) != KeyOf(s.log[j].req))
            && AddsRows(init.db, s.db, s.log)
  {
    RunsAnswer(init, actions);
    RunsSerialize(init, actions);
    SerialKeysUnique(init.db, Exec(init, actions).log, i, j);
    SerialAddsRows(init.db, Exec(init, actions).log);
  }

  // ----- refusals

  /** A refusal for stock or for funds is true of the committed tables, then and in every later state. */
  lemma NoFalseRefusal(init: State, actions: seq<Action>, a: nat)
    requires Initial(init) && Constraints(init.db)
    requires a in Exec(init, actions).clients
    ensures var s := Exec(init, actions);
            var c := s.clients[a];
            && c.locked == ItemsInLockOrder(c.req.items)
            && (forall position: nat :: c.phase == Finished(Refused(OutOfStock(position))) ==>
                  && position < |c.locked|
                  && Lacking(s.db.products, c.locked[..position], c.locked[position].item))
            && (c.phase == Finished(Refused(InsufficientFunds)) ==>
                  || c.req.userId !in s.db.balances
                  || s.db.balances[c.req.userId] < Total(c.locked, PriceList(s.db.products, c.locked)))
  {
    RunsAnswer(init, actions);
    ExecKeepsInv(init, actions);
    var s := Exec(init, actions);
    assert Claim(s.db, s.log, a, s.clients[a]);
    ControlOf(s, a);
  }

  /**
   Losing the key race is never the last word: the loser reads the winner's order next, and answers with a replay of it
   or with a conflict.
   */
  lemma LostRaceIsAnswered(init: State, actions: seq<Action>, id: nat)
    requires Initial(init) && Constraints(init.db) && id in Exec(init, actions).clients
    ensures var s := Exec(init, actions);
            && s.clients[id].phase != Finished(Refused(KeyTaken))
            && (s.clients[id].phase.Rechecking? ==>
                  var after := Next(s, Run(id)).clients[id].phase;
                  after.Finished? && (after.reply.Conflict? || (after.reply.Accepted? && after.reply.result.replay)))
  {
    RunsConstrained(init, actions);
    var s := Exec(init, actions);
    if s.clients[id].phase.Rechecking? {
      RecheckAnswers(s.db, s.log, id, s.clients[id]);
    }
    assert Claim(s.db, s.log, id, s.clients[id]);
  }

  lemma RecheckAnswers(db: Database, log: seq<Entry>, id: nat, c: Client)
    requires c.phase.Rechecking? && Claim(db, log, id, c) && KeysHaveOrders(db)
    ensures var after := LookOne(db, c).phase;
            after.Finished? && (after.reply.Conflict? || (after.reply.Accepted? && after.reply.result.replay))
  {
  }

  /** What the other results start from: the answers, and the constraints of the tables. */
  lemma RunsConstrained(init: State, actions: seq<Action>)
    requires Initial(init) && Constraints(init.db)
    ensures var s := Exec(init, actions);
            Answers(s) && Constraints(s.db) && Conserves(init.db, s.db) && Inv(s) && Serialized(init, s)
  {
    RunsAnswer(init, actions);
    ExecKeepsInv(init, actions);
    SerialConserves(init.db, Exec(init, actions).log);
  }

  // ----- totals

  /**
   A total that is the sum over the request at the prices of the first tables, which never change; and no partial sum of
   the product loop leaves the integer column.
   */
  ghost predicate Billed(products: map<string, Product>, e: Entry, totalCents: int)
  {
    var locked := ItemsInLockOrder(e.req.items);
    var prices := PriceList(products, locked);
    && totalCents == Total(locked, prices)
    && forall k: nat :: k <= |locked| ==> 0 <= Total(locked[..k], prices[..k]) <= MAX_INT
  }

  ghost predicate BilledAt(db: Database, e: Entry, orders: seq<OrderRow>, at: nat)
  {
    at < |orders| && orders[at].id == e.ids.order && Billed(db.products, e, orders[at].totalCents)
  }

  lemma CommitBills(db: Database, before: Database, e: Entry, after: Database)
    requires Conserves(db, before) && Constraints(before) && Commits(before, e, after)
    ensures BilledAt(db, e, after.orders, |before.orders|)
  {
    var locked := ItemsInLockOrder(e.req.items);
    ReserveEffect(before.products, locked);
    var prices := ReserveAll(before.products, locked).value.prices;
    assert prices == PriceList(db.products, locked);
    forall k: nat | k <= |locked| ensures 0 <= Total(locked[..k], prices[..k]) <= MAX_INT {
      LockOrderSorts(e.req.items);
      PartialTotalsFit(before, e.req, e.ids, k);
    }
  }

  lemma ChainBills(states: seq<Database>, log: seq<Entry>, i: nat)
    requires Chain(states, log) && Constraints(states[0]) && i < |log|
    ensures BilledAt(states[0], log[i], states[|log|].orders, |states[0].orders| + i)
  {
    ChainConserves(states, log, i);
    assert Commits(states[i], log[i], states[i + 1]);
    CommitBills(states[0], states[i], log[i], states[i + 1]);
    ChainIsTrail(states, log);
    TrailOrders(states, log, i, |log|);
  }

  /**
   For every committed order of every reachable state: the order's row holds the sum over its items, and each partial
   total of its product loop is between 0 and the integer column's maximum, so a number adds it up exactly.
   */
  lemma RunTotalsFit(init: State, actions: seq<Action>, i: nat)
    requires Initial(init) && Constraints(init.db) && i < |Exec(init, actions).log|
    ensures var s := Exec(init, actions);
            BilledAt(init.db, s.log[i], s.db.orders, |init.db.orders| + i)
  {
    var states := RunsChain(init, actions);
    ChainBills(states, Exec(init, actions).log, i);
  }

  // ----- racing for the last units

  predicate SingleUnit(req: Request, productId: string)
  {
    req.items == [Item(productId, 1)]
  }

  lemma SingleUnitLocked(req: Request, productId: string)
    requires SingleUnit(req, productId)
    ensures ItemsInLockOrder(req.items) == [Indexed(Item(productId, 1), 0)]
    ensures QuantityOf(ItemsInLockOrder(req.items), productId) == 1
  {
    assert WithIndexes(req.items) == [Indexed(Item(productId, 1), 0)];
    LockOrderUnique(req.items, [Indexed(Item(productId, 1), 0)]);
  }

  lemma SingleUnitApply(db: Database, req: Request, ids: Ids, productId: string)
    requires SingleUnit(req, productId) && productId in db.products && Apply(db, req, ids).Ok?
    ensures var after := Apply(db, req, ids).value.db.products;
            productId in after && after[productId].stock == db.products[productId].stock - 1
  {
    SingleUnitLocked(req, productId);
    ReserveEffect(db.products, ItemsInLockOrder(req.items));
  }

  lemma {:induction false} ChainSells(states: seq<Database>, log: seq<Entry>, productId: string, j: nat)
    requires Chain(states, log) && productId in states[0].products && j <= |log|
    requires forall i :: 0 <= i < |log| ==> SingleUnit(log[i].req, productId)
    ensures productId in states[j].products
    ensures states[j].products[productId].stock == states[0].products[productId].stock - j
  {
    if j > 0 {
      ChainSells(states, log, productId, j - 1);
      assert Commits(states[j - 1], log[j - 1], states[j - 1 + 1]);
      SingleUnitApply(states[j - 1], log[j - 1].req, log[j - 1].ids, productId);
    }
  }

  predicate Won(c: Client)
  {
    c.phase.Finished? && c.phase.reply.Accepted? && !c.phase.reply.result.replay
  }

  predicate Lost(c: Client)
  {
    c.phase.Finished? && c.phase.reply.Refused? && c.phase.reply.failure.OutOfStock?
  }

  ghost function Winners(s: State): set<nat>
  {
    set id | id in s.clients && Won(s.clients[id])
  }

  lemma {:induction false} LogClients(log: seq<Entry>, clients: set<nat>)
    requires forall i, j :: 0 <= i < j < |log| ==> log[i].client != log[j].client
    requires forall i :: 0 <= i < |log| ==> log[i].client in clients
    requires forall id :: id in clients ==> exists i :: 0 <= i < |log| && log[i].client == id
    ensures |log| == |clients|
  {
    if log == [] {
      assert clients == {};
    } else {
      var n := |log| - 1;
      forall id | id in clients - {log[n].client} ensures exists i :: 0 <= i < n && log[..n][i].client == id {
        var i :| 0 <= i < |log| && log[i].client == id;
        assert log[..n][i].client == id;
      }
      LogClients(log[..n], clients - {log[n].client});
    }
  }

  // What is asked of the run: nobody dies, no call fails, every commit is heard.

  predicate Calm(a: Action)
  {
    !a.Abort? && !a.Crash? && (a.Commit? ==> a.heard)
  }

  predicate CalmPhase(phase: Phase)
  {
    !phase.Backoff? && (phase.Finished? ==> !phase.reply.Broken? && !phase.reply.Crashed?)
  }

  lemma CalmStep(s: State, a: Action, id: nat)
    requires Calm(a) && id in Next(s, a).clients
    requires id in s.clients ==> CalmPhase(s.clients[id].phase)
    ensures CalmPhase(Next(s, a).clients[id].phase)
  {
  }

  lemma {:induction false} CalmRun(init: State, actions: seq<Action>, id: nat)
    requires Initial(init) && (forall i :: 0 <= i < |actions| ==> Calm(actions[i]))
    requires id in Exec(init, actions).clients
    ensures CalmPhase(Exec(init, actions).clients[id].phase)
  {
    if actions != [] {
      var n := |actions| - 1;
      if id in Exec(init, actions[..n]).clients {
        CalmRun(init, actions[..n], id);
      }
      CalmStep(Exec(init, actions[..n]), actions[n], id);
    }
  }

  // What is asked of the clients.

  /** One unit of the product, without the abort switch, under no key or one of its own that is new. */
  ghost predicate Contends(init: Database, clients: map<nat, Client>, productId: string, id: nat)
    requires id in clients
  {
    var req := clients[id].req;
    && SingleUnit(req, productId) && !req.failAfterOutbox
    && (KeyOf(req).Some? ==>
          && KeyOf(req).value !in init.keys
          && forall other :: other in clients && other != id ==> KeyOf(clients[other].req) != KeyOf(req))
  }

  ghost function Buyers(clients: map<nat, Client>, userId: string): set<nat>
  {
    set id | id in clients && clients[id].req.userId == userId
  }

  /** Each user can pay for all of its checkouts. */
  ghost predicate CanPay(init: Database, clients: map<nat, Client>, productId: string)
    requires productId in init.products
  {
    forall id :: id in clients ==>
      var u := clients[id].req.userId;
      u in init.balances && init.balances[u] >= init.products[productId].priceCents * |Buyers(clients, u)|
  }

  ghost predicate Contest(init: Database, s: State, productId: string)
  {
    && productId in init.products && init.products[productId].active
    && CanPay(init, s.clients, productId)
    && forall id :: id in s.clients ==> Contends(init, s.clients, productId, id) && s.clients[id].phase.Finished?
  }

  // Nobody is refused for another reason than stock.

  function BoughtBy(log: seq<Entry>, userId: string): nat
  {
    if log == [] then 0
    else
      var n := |log| - 1;
      BoughtBy(log[..n], userId) + if log[n].req.userId == userId then 1 else 0
  }

  lemma SingleUnitPays(db: Database, req: Request, ids: Ids, productId: string)
    requires SingleUnit(req, productId) && productId in db.products && Apply(db, req, ids).Ok?
    ensures req.userId in db.balances
    ensures Apply(db, req, ids).value.db.balances
            == db.balances[req.userId := db.balances[req.userId] - db.products[productId].priceCents]
  {
    SingleUnitTotal(db.products, req, productId);
    ReserveEffect(db.products, ItemsInLockOrder(req.items));
    assert ReserveAll(db.products, ItemsInLockOrder(req.items)).value.prices
        == PriceList(db.products, ItemsInLockOrder(req.items));
  }

  lemma SingleUnitTotal(products: map<string, Product>, req: Request, productId: string)
    requires SingleUnit(req, productId) && productId in products
    ensures var locked := ItemsInLockOrder(req.items);
            && PriceList(products, locked) == [products[productId].priceCents]
            && Total(locked, PriceList(products, locked)) == products[productId].priceCents
            && locked == [Indexed(Item(productId, 1), 0)]
  {
    SingleUnitLocked(req, productId);
    var locked := ItemsInLockOrder(req.items);
    assert PriceList(products, locked) == [products[productId].priceCents];
    assert locked[..0] == [] && [products[productId].priceCents][..0] == [];
    assert Total([], []) == 0;
  }

  /** After `log`, each user has paid the price once per checkout. */
  ghost predicate Paid(before: Database, after: Database, price: int, log: seq<Entry>)
  {
    && after.balances.Keys == before.balances.Keys
    && forall u :: u in before.balances ==> after.balances[u] == before.balances[u] - price * BoughtBy(log, u)
  }

  lemma PaidMore(before: Database, mid: Database, after: Database, price: int, log: seq<Entry>, e: Entry)
    requires Paid(before, mid, price, log) && e.req.userId in mid.balances
    requires after.balances == mid.balances[e.req.userId := mid.balances[e.req.userId] - price]
    ensures Paid(before, after, price, log + [e])
  {
    assert (log + [e])[..|log|] == log;
    forall u | u in before.balances
      ensures price * BoughtBy(log + [e], u) == price * BoughtBy(log, u) + if e.req.userId == u then price else 0
    {
    }
  }

  lemma CommitPays(before: Database, mid: Database, price: int, log: seq<Entry>, e: Entry, after: Database,
                   productId: string)
    requires Commits(mid, e, after) && SingleUnit(e.req, productId)
    requires productId in mid.products && mid.products[productId].priceCents == price && Paid(before, mid, price, log)
    ensures Paid(before, after, price, log + [e])
  {
    SingleUnitPays(mid, e.req, e.ids, productId);
    PaidMore(before, mid, after, price, log, e);
  }

  lemma {:induction false} ChainPays(states: seq<Database>, log: seq<Entry>, productId: string, j: nat)
    requires Chain(states, log) && productId in states[0].products && j <= |log|
    requires forall i :: 0 <= i < |log| ==> SingleUnit(log[i].req, productId)
    ensures Paid(states[0], states[j], states[0].products[productId].priceCents, log[..j])
  {
    if j > 0 {
      ChainPays(states, log, productId, j - 1);
      ChainConserves(states, log, j - 1);
      CommitPays(states[0], states[j - 1], states[0].products[productId].priceCents, log[..j - 1], log[j - 1],
                 states[j - 1 + 1], productId);
      assert log[..j - 1] + [log[j - 1]] == log[..j];
    }
  }

  /** What a history of single units takes: one unit and one price per checkout. */
  lemma SingleUnitHistory(db: Database, log: seq<Entry>, productId: string)
    requires Legal(db, log) && productId in db.products
    requires forall i :: 0 <= i < |log| ==> SingleUnit(log[i].req, productId)
    ensures Serial(db, log).Ok? && productId in Serial(db, log).value.products
    ensures Serial(db, log).value.products[productId].stock == db.products[productId].stock - |log|
    ensures Paid(db, Serial(db, log).value, db.products[productId].priceCents, log)
  {
    var states := ChainOf(db, log);
    ChainSells(states, log, productId, |log|);
    ChainPays(states, log, productId, |log|);
    assert log[..|log|] == log;
  }

  lemma {:induction false} BoughtFits(log: seq<Entry>, userId: string, buyers: set<nat>)
    requires forall i, j :: 0 <= i < j < |log| ==> log[i].client != log[j].client
    requires forall i :: 0 <= i < |log| && log[i].req.userId == userId ==> log[i].client in buyers
    ensures BoughtBy(log, userId) <= |buyers|
  {
    if log != [] {
      var n := |log| - 1;
      if log[n].req.userId == userId {
        BoughtFits(log[..n], userId, buyers - {log[n].client});
      } else {
        BoughtFits(log[..n], userId, buyers);
      }
    }
  }

  lemma PayIfOneLess(price: int, balance: int, bought: int, buyers: int)
    requires price > 0 && bought <= buyers - 1 && balance >= price * buyers
    ensures balance - price * bought >= price
  {
    assert price * bought <= price * (buyers - 1);
  }

  lemma FundsSuffice(init: Database, s: State, productId: string, id: nat)
    requires Contest(init, s, productId) && Constraints(init) && Conserves(init, s.db) && LogClaim(s.log, s.clients)
    requires Paid(init, s.db, init.products[productId].priceCents, s.log)
    requires id in s.clients && !CommittedPhase(s.clients[id].phase)
    requires s.clients[id].locked == ItemsInLockOrder(s.clients[id].req.items)
    ensures !FundsClaim(s.db, s.clients[id].req.userId, s.clients[id].locked)
  {
    var c := s.clients[id];
    var u, price, buyers := c.req.userId, init.products[productId].priceCents, Buyers(s.clients, c.req.userId);
    assert Contends(init, s.clients, productId, id);
    BoughtFits(s.log, u, buyers - {id});
    assert |buyers - {id}| == |buyers| - 1;
    PayIfOneLess(price, init.balances[u], BoughtBy(s.log, u), |buyers|);
    SingleUnitTotal(s.db.products, c.req, productId);
  }

  lemma RangeSuffices(init: Database, s: State, productId: string, c: Client)
    requires Constraints(init) && Conserves(init, s.db) && productId in init.products && SingleUnit(c.req, productId)
    requires c.locked == ItemsInLockOrder(c.req.items)
    ensures !RangeClaim(s.db, c.locked) && DistinctProducts(c.locked)
  {
    SingleUnitTotal(s.db.products, c.req, productId);
  }

  /** A key in the tables is that of a checkout that committed, so nobody else meets it. */
  lemma KeyIsOwn(init: Database, s: State, productId: string, id: nat)
    requires Contest(init, s, productId) && LogClaim(s.log, s.clients)
    requires Legal(init, s.log) && Serial(init, s.log) == Ok(s.db)
    requires id in s.clients && KeyOf(s.clients[id].req).Some? && KeyOf(s.clients[id].req).value in s.db.keys
    ensures CommittedPhase(s.clients[id].phase)
  {
    assert Contends(init, s.clients, productId, id);
    var i := SerialKeys(init, s.log, KeyOf(s.clients[id].req).value);
    assert s.log[i].client in s.clients && s.clients[s.log[i].client].req == s.log[i].req;
  }

  /** Every refusal but out-of-stock is ruled out by its claim. */
  lemma NoOtherRefusal(init: Database, s: State, productId: string, id: nat)
    requires Contest(init, s, productId) && Constraints(init) && Conserves(init, s.db) && LogClaim(s.log, s.clients)
    requires Paid(init, s.db, init.products[productId].priceCents, s.log)
    requires id in s.clients && !CommittedPhase(s.clients[id].phase) && s.clients[id].phase.reply.Refused?
    requires s.clients[id].locked == ItemsInLockOrder(s.clients[id].req.items)
    requires RefusalClaim(s.db, s.clients[id], s.clients[id].phase.reply.failure)
    ensures Lost(s.clients[id])
  {
    assert Contends(init, s.clients, productId, id);
    FundsSuffice(init, s, productId, id);
    RangeSuffices(init, s, productId, s.clients[id]);
  }

  /** Neither a replay nor a conflict: the key is the client's own and new. */
  lemma NoOldIntent(init: Database, s: State, productId: string, id: nat)
    requires Contest(init, s, productId) && LogClaim(s.log, s.clients)
    requires Legal(init, s.log) && Serial(init, s.log) == Ok(s.db)
    requires id in s.clients && !CommittedPhase(s.clients[id].phase) && KeyOf(s.clients[id].req).Some?
    ensures FindCommitted(s.db, KeyOf(s.clients[id].req).value).None?
  {
    if KeyOf(s.clients[id].req).value in s.db.keys {
      KeyIsOwn(init, s, productId, id);
    }
  }

  lemma SingleUnitIsValid(req: Request, productId: string)
    requires SingleUnit(req, productId)
    ensures ValidRequest(req)
  {
  }

  lemma WonOrLost(init: Database, s: State, productId: string, id: nat)
    requires Contest(init, s, productId) && Constraints(init) && Conserves(init, s.db) && LogClaim(s.log, s.clients)
    requires Paid(init, s.db, init.products[productId].priceCents, s.log)
    requires Legal(init, s.log) && Serial(init, s.log) == Ok(s.db)
    requires id in s.clients && CalmPhase(s.clients[id].phase) && Claim(s.db, s.log, id, s.clients[id])
    requires s.clients[id].locked == ItemsInLockOrder(s.clients[id].req.items)
    ensures Won(s.clients[id]) || Lost(s.clients[id])
  {
    var c := s.clients[id];
    assert Contends(init, s.clients, productId, id);
    SingleUnitIsValid(c.req, productId);
    if !CommittedPhase(c.phase) {
      if KeyOf(c.req).Some? {
        NoOldIntent(init, s, productId, id);
      }
      if c.phase.reply.Refused? {
        NoOtherRefusal(init, s, productId, id);
      }
    }
  }

  ghost predicate RacedOut(s: State, productId: string)
  {
    forall id :: id in s.clients ==>
      SingleUnit(s.clients[id].req, productId) && (Won(s.clients[id]) || Lost(s.clients[id]))
  }

  lemma LogIsSingleUnit(init: Database, s: State, productId: string)
    requires Contest(init, s, productId) && LogClaim(s.log, s.clients)
    ensures forall i :: 0 <= i < |s.log| ==> SingleUnit(s.log[i].req, productId)
  {
    forall i | 0 <= i < |s.log| ensures SingleUnit(s.log[i].req, productId) {
      assert Contends(init, s.clients, productId, s.log[i].client);
    }
  }

  lemma AllRacedOut(init: State, actions: seq<Action>, productId: string)
    requires Initial(init) && Constraints(init.db) && (forall i :: 0 <= i < |actions| ==> Calm(actions[i]))
    requires Contest(init.db, Exec(init, actions), productId)
    ensures RacedOut(Exec(init, actions), productId)
  {
    var s := Exec(init, actions);
    RunsConstrained(init, actions);
    LogIsSingleUnit(init.db, s, productId);
    SingleUnitHistory(init.db, s.log, productId);
    forall id | id in s.clients
      ensures SingleUnit(s.clients[id].req, productId) && (Won(s.clients[id]) || Lost(s.clients[id]))
    {
      CalmRun(init, actions, id);
      ControlOf(s, id);
      assert Claim(s.db, s.log, id, s.clients[id]);
      WonOrLost(init.db, s, productId, id);
      assert Contends(init.db, s.clients, productId, id);
    }
  }

  // Counting.

  lemma WinnersAreTheLog(s: State, productId: string)
    requires Answers(s) && RacedOut(s, productId)
    ensures |Winners(s)| == |s.log|
  {
    forall id | id in Winners(s) ensures exists i :: 0 <= i < |s.log| && s.log[i].client == id {
      assert Claim(s.db, s.log, id, s.clients[id]);
    }
    forall i | 0 <= i < |s.log| ensures s.log[i].client in Winners(s) {
      assert s.log[i].client in s.clients;
    }
    LogClients(s.log, Winners(s));
  }

  lemma LoserMeansEmpty(db: Database, log: seq<Entry>, productId: string, id: nat, c: Client)
    requires SingleUnit(c.req, productId) && Lost(c) && c.locked == ItemsInLockOrder(c.req.items)
    requires Claim(db, log, id, c) && productId in db.products && db.products[productId].active
    ensures db.products[productId].stock < 1
  {
    SingleUnitLocked(c.req, productId);
    assert c.locked[..0] == [];
  }

  lemma WinnersOrEmpty(s: State, productId: string)
    requires Inv(s) && Answers(s) && RacedOut(s, productId)
    requires productId in s.db.products && s.db.products[productId].active
    ensures |Winners(s)| <= |s.clients|
    ensures |Winners(s)| == |s.clients| || s.db.products[productId].stock < 1
  {
    SubsetFits(Winners(s), s.clients.Keys);
    if Winners(s) != s.clients.Keys {
      var id :| id in s.clients && id !in Winners(s);
      ControlOf(s, id);
      LoserMeansEmpty(s.db, s.log, productId, id, s.clients[id]);
    }
  }

  /**
   Clients that each ask for one unit of one product, with or without a key of their own, and can pay; a run in which no
   call fails and all of them finish. In every interleaving exactly min(clients, stock) of them get the unit, and every
   other one is told that it is out of stock. No oversell, no unit left unsold.
   */
  lemma ExactlyTheStockSells(init: State, actions: seq<Action>, productId: string)
    requires Initial(init) && Constraints(init.db) && (forall i :: 0 <= i < |actions| ==> Calm(actions[i]))
    requires Contest(init.db, Exec(init, actions), productId)
    ensures var s, stock := Exec(init, actions), init.db.products[productId].stock;
            && |Winners(s)| == (if |s.clients| <= stock then |s.clients| else stock)
            && forall id :: id in s.clients ==> Won(s.clients[id]) || Lost(s.clients[id])
  {
    var s := Exec(init, actions);
    RunsConstrained(init, actions);
    AllRacedOut(init, actions, productId);
    WinnersAreTheLog(s, productId);
    LogIsSingleUnit(init.db, s, productId);
    SingleUnitHistory(init.db, s.log, productId);
    WinnersOrEmpty(s, productId);
  }
}
