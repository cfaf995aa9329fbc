/**
 The in-memory idempotency map of `OrdersService.create` in front of the durable key table: any number of calls on any
 number of pods, restarts that lose a pod's map, and other writers of the key table. The checkout itself is one step
 here. Which buyer a user id resolves to does not change. An action that is not possible changes nothing.
 */
module IdempotencyMap {
  import opened Prelude
  import opened CheckoutTables

  /** A create request as far as idempotency goes; `hash` is the hash of its body. */
  datatype Order = Order(user: string, key: string, hash: string)

  /** `from` is the history: the request whose answer this is. */
  datatype Entry = Entry(hash: string, orderId: nat, from: Order)

  datatype Answer =
    | Replay(orderId: nat)
    | Conflict
    | Created(orderId: nat)
    | Refused // any other error, or the pod died

  datatype Phase =
    | Resolving
    | Checking(buyer: string)
    | Storing(orderId: nat, replay: bool)
    | Done(answer: Answer)

  datatype Call = Call(pod: nat, order: Order, phase: Phase)

  type Keys = map<(string, string), KeyRow>

  type Memory = map<string, Entry>

  /** `creator` is the history: which call created an order. */
  datatype State = State(
    buyers: map<string, string>,
    keys: Keys,
    memory: map<nat, Memory>,
    calls: map<nat, Call>,
    creator: map<nat, nat>)

  datatype Action =
    | Arrive(id: nat, pod: nat, order: Order)
    | Resolve(id: nat, listed: bool)
    | Checkout(id: nat, newId: nat, refused: bool)
    | Store(id: nat, loaded: bool)
    | Restart(pod: nat)
    | OtherCheckout(buyer: string, key: string, row: KeyRow)

  function CacheKey(user: string, key: string): string
  {
    user + ":" + key
  }

  function MemoryOf(s: State, pod: nat): Memory
  {
    if pod in s.memory then s.memory[pod] else map[]
  }

  /** What the map says of a request; None if it has no entry. */
  function Cached(memory: Memory, order: Order): Option<Answer>
  {
    var k := CacheKey(order.user, order.key);
    if k !in memory then None
    else if memory[k].hash != order.hash then Some(Conflict)
    else Some(Replay(memory[k].orderId))
  }

  /** What the key table says of it; an empty key is no key. */
  function Durable(keys: Keys, buyer: string, order: Order): Option<Answer>
  {
    if order.key == "" || (buyer, order.key) !in keys then None
    else
      var row := keys[(buyer, order.key)];
      if SameIntent(row.requestHash, Some(order.hash)) then Some(Replay(row.orderId)) else Some(Conflict)
  }

  function Go(s: State, id: nat, phase: Phase): State
    requires id in s.calls
  {
    s.(calls := s.calls[id := s.calls[id].(phase := phase)])
  }

  function CheckoutOne(s: State, id: nat, newId: nat, refused: bool): State
    requires id in s.calls && s.calls[id].phase.Checking?
  {
    var order, buyer := s.calls[id].order, s.calls[id].phase.buyer;
    match Durable(s.keys, buyer, order)
    case Some(Replay(orderId)) => Go(s, id, Storing(orderId, true))
    case Some(_) => Go(s, id, Done(Conflict))
    case None =>
      if refused then Go(s, id, Done(Refused))
      else if newId in s.creator then s
      else
        Go(s, id, Storing(newId, false)).(
          creator := s.creator[newId := id],
          keys := if order.key == "" then s.keys else s.keys[(buyer, order.key) := KeyRow(newId, order.hash)])
  }

  /** A replayed order is read again first, which may fail. */
  function StoreOne(s: State, id: nat, loaded: bool): State
    requires id in s.calls && s.calls[id].phase.Storing?
  {
    var Call(pod, order, phase) := s.calls[id];
    if phase.replay && !loaded then Go(s, id, Done(Refused))
    else
      Go(s, id, Done(if phase.replay then Replay(phase.orderId) else Created(phase.orderId))).(
        memory := s.memory[pod :=
                    MemoryOf(s, pod)[CacheKey(order.user, order.key) := Entry(order.hash, phase.orderId, order)]])
  }

  function Died(calls: map<nat, Call>, pod: nat): map<nat, Call>
  {
    map id | id in calls ::
      if calls[id].pod == pod && !calls[id].phase.Done? then calls[id].(phase := Done(Refused)) else calls[id]
  }

  function ArriveOne(s: State, id: nat, pod: nat, order: Order): State
  {
    var hit := Cached(MemoryOf(s, pod), order);
    s.(calls := s.calls[id := Call(pod, order, if hit.Some? then Done(hit.value) else Resolving)])
  }

  function ResolveOne(s: State, id: nat, listed: bool): State
    requires id in s.calls
  {
    var user := s.calls[id].order.user;
    Go(s, id, if listed && user in s.buyers then Checking(s.buyers[user]) else Done(Refused))
  }

  function Next(s: State, a: Action): State
  {
    match a
    case Arrive(id, pod, order) => if id in s.calls then s else ArriveOne(s, id, pod, order)
    case Resolve(id, listed) => if id in s.calls && s.calls[id].phase.Resolving? then ResolveOne(s, id, listed) else s
    case Checkout(id, newId, refused) =>
      if id in s.calls && s.calls[id].phase.Checking? then CheckoutOne(s, id, newId, refused) else s
    case Store(id, loaded) => if id in s.calls && s.calls[id].phase.Storing? then StoreOne(s, id, loaded) else s
    case Restart(pod) => s.(memory := s.memory - {pod}, calls := Died(s.calls, pod))
    case OtherCheckout(buyer, key, row) =>
      if key == "" || (buyer, key) in s.keys then s else s.(keys := s.keys[(buyer, key) := row])
  }

  function Exec(s: State, actions: seq<Action>): State
  {
    if actions == [] then s
    else Next(Exec(s, actions[..|actions| - 1]), actions[|actions| - 1])
  }

  predicate Initial(s: State)
  {
    s.memory == map[] && s.calls == map[] && s.creator == map[]
  }

  // ----- when one map key can stand for only one durable key

  /** Every buyer's request with the same map key has the same, non-empty, durable key. */
  ghost predicate Unambiguous(buyers: map<string, string>, user: string, key: string)
  {
    forall u, k :: u in buyers && CacheKey(u, k) == CacheKey(user, key) ==>
      k != "" && k == key && user in buyers && buyers[u] == buyers[user]
  }

  predicate HasColon(s: string)
  {
    ':' in s
  }

  /** Without colons in the user ids, the map key determines both parts. */
  lemma CacheKeyInjective(u: string, k: string, user: string, key: string)
    requires !HasColon(u) && !HasColon(user) && CacheKey(u, k) == CacheKey(user, key)
    ensures u == user && k == key
  {
    var s := CacheKey(u, k);
    assert s[|u|] == ':' && s[|user|] == ':';
    assert s[..|u|] == u && s[..|user|] == user && s[|u| + 1..] == k && s[|user| + 1..] == key;
  }

  lemma ColonFreeIsUnambiguous(buyers: map<string, string>, user: string, key: string)
    requires key != "" && !HasColon(user) && forall u :: u in buyers ==> !HasColon(u)
    ensures Unambiguous(buyers, user, key)
  {
    forall u, k | u in buyers && CacheKey(u, k) == CacheKey(user, key)
      ensures k != "" && k == key && user in buyers && buyers[u] == buyers[user] {
      CacheKeyInjective(u, k, user, key);
    }
  }

  // ----- the invariant

  /** The order answers the request, durably if it has a key. */
  predicate Recorded(buyers: map<string, string>, keys: Keys, order: Order, orderId: nat)
  {
    && order.user in buyers
    && (order.key != "" ==>
          var k := (buyers[order.user], order.key);
          k in keys && keys[k] == KeyRow(orderId, order.hash))
  }

  ghost predicate EntryInv(s: State, k: string, e: Entry)
  {
    && k == CacheKey(e.from.user, e.from.key) && e.hash == e.from.hash
    && Recorded(s.buyers, s.keys, e.from, e.orderId)
  }

  ghost predicate MemoryInv(s: State)
  {
    forall pod :: pod in s.memory ==> forall k :: k in s.memory[pod] ==> EntryInv(s, k, s.memory[pod][k])
  }

  /** The answer is that of the key table. */
  ghost predicate Backed(buyers: map<string, string>, keys: Keys, order: Order, answer: Answer)
  {
    order.user in buyers && Durable(keys, buyers[order.user], order) == Some(answer)
  }

  ghost predicate CallInv(s: State, id: nat, c: Call)
  {
    match c.phase
    case Resolving => true
    case Checking(buyer) => c.order.user in s.buyers && s.buyers[c.order.user] == buyer
    case Storing(orderId, replay) =>
      && Recorded(s.buyers, s.keys, c.order, orderId)
      && if replay then c.order.key != "" else orderId in s.creator && s.creator[orderId] == id
    case Done(Created(orderId)) =>
      Recorded(s.buyers, s.keys, c.order, orderId) && orderId in s.creator && s.creator[orderId] == id
    case Done(Refused) => true
    case Done(answer) => Unambiguous(s.buyers, c.order.user, c.order.key) ==> Backed(s.buyers, s.keys, c.order, answer)
  }

  ghost predicate Inv(s: State)
  {
    MemoryInv(s) && forall id :: id in s.calls ==> CallInv(s, id, s.calls[id])
  }

  /** What is in the map is in the key table too, under the same hash and order. */
  lemma CachedIsDurable(s: State, pod: nat, order: Order)
    requires MemoryInv(s) && Unambiguous(s.buyers, order.user, order.key) && Cached(MemoryOf(s, pod), order).Some?
    ensures Backed(s.buyers, s.keys, order, Cached(MemoryOf(s, pod), order).value)
  {
    var k := CacheKey(order.user, order.key);
    var e := s.memory[pod][k];
    assert EntryInv(s, k, e);
    assert CacheKey(e.from.user, e.from.key) == CacheKey(order.user, order.key);
  }

  /** Steps only add key rows and creators, and never change a buyer. */
  ghost predicate Grows(s: State, s': State)
  {
    && s'.buyers == s.buyers
    && (forall k :: k in s.keys ==> k in s'.keys && s'.keys[k] == s.keys[k])
    && (forall o :: o in s.creator ==> o in s'.creator && s'.creator[o] == s.creator[o])
  }

  lemma StepGrows(s: State, a: Action)
    ensures Grows(s, Next(s, a))
  {
  }

  lemma CallStays(s: State, s': State, id: nat, c: Call)
    requires Grows(s, s') && CallInv(s, id, c)
    ensures CallInv(s', id, c)
  {
  }

  lemma StoreKeepsMemory(s: State, id: nat, loaded: bool)
    requires Inv(s) && id in s.calls && s.calls[id].phase.Storing?
    ensures MemoryInv(StoreOne(s, id, loaded))
  {
    var s' := StoreOne(s, id, loaded);
    assert CallInv(s, id, s.calls[id]);
    forall pod, k | pod in s'.memory && k in s'.memory[pod] ensures EntryInv(s', k, s'.memory[pod][k]) {
      if k in MemoryOf(s, pod) {
        assert EntryInv(s, k, s.memory[pod][k]);
      }
    }
  }

  lemma StepKeepsMemory(s: State, a: Action)
    requires Inv(s)
    ensures MemoryInv(Next(s, a))
  {
    var s' := Next(s, a);
    if a.Store? && a.id in s.calls && s.calls[a.id].phase.Storing? {
      StoreKeepsMemory(s, a.id, a.loaded);
    } else {
      StepGrows(s, a);
      assert forall pod :: pod in s'.memory ==> pod in s.memory && s'.memory[pod] == s.memory[pod];
      forall pod, k | pod in s'.memory && k in s'.memory[pod] ensures EntryInv(s', k, s'.memory[pod][k]) {
        assert EntryInv(s, k, s.memory[pod][k]);
      }
    }
  }

  lemma CheckoutKeepsCall(s: State, id: nat, newId: nat, refused: bool)
    requires id in s.calls && s.calls[id].phase.Checking? && CallInv(s, id, s.calls[id])
    ensures CallInv(CheckoutOne(s, id, newId, refused), id, CheckoutOne(s, id, newId, refused).calls[id])
  {
  }

  lemma StoreKeepsCall(s: State, id: nat, loaded: bool)
    requires id in s.calls && s.calls[id].phase.Storing? && CallInv(s, id, s.calls[id])
    ensures CallInv(StoreOne(s, id, loaded), id, StoreOne(s, id, loaded).calls[id])
  {
  }

  lemma ArriveKeepsCall(s: State, id: nat, pod: nat, order: Order)
    requires MemoryInv(s)
    ensures CallInv(ArriveOne(s, id, pod, order), id, ArriveOne(s, id, pod, order).calls[id])
  {
    if Unambiguous(s.buyers, order.user, order.key) && Cached(MemoryOf(s, pod), order).Some? {
      CachedIsDurable(s, pod, order);
    }
  }

  /** The call that an action moves, if any. */
  function Mover(a: Action): Option<nat>
  {
    if a.Restart? || a.OtherCheckout? then None else Some(a.id)
  }

  lemma OthersStay(s: State, a: Action, id: nat)
    requires id in Next(s, a).calls && Mover(a) != Some(id)
    ensures id in s.calls && (Next(s, a).calls[id] == s.calls[id] || Next(s, a).calls[id].phase == Done(Refused))
  {
  }

  lemma StepKeepsCall(s: State, a: Action, id: nat)
    requires Inv(s) && id in Next(s, a).calls
    ensures CallInv(Next(s, a), id, Next(s, a).calls[id])
  {
    StepGrows(s, a);
    if id in s.calls {
      CallStays(s, Next(s, a), id, s.calls[id]);
    }
    if Mover(a) != Some(id) {
      OthersStay(s, a, id);
    } else {
      match a
      case Arrive(_, pod, order) => if id !in s.calls { ArriveKeepsCall(s, id, pod, order); }
      case Checkout(_, newId, refused) =>
        if s.calls[id].phase.Checking? { CheckoutKeepsCall(s, id, newId, refused); }
      case Store(_, loaded) => if s.calls[id].phase.Storing? { StoreKeepsCall(s, id, loaded); }
      case _ =>
    }
  }

  lemma {:induction false} ExecKeepsInv(init: State, actions: seq<Action>)
    requires Initial(init)
    ensures Inv(Exec(init, actions)) && Exec(init, actions).buyers == init.buyers
  {
    if actions != [] {
      var s, a := Exec(init, actions[..|actions| - 1]), actions[|actions| - 1];
      ExecKeepsInv(init, actions[..|actions| - 1]);
      StepGrows(s, a);
      StepKeepsMemory(s, a);
      forall id | id in Next(s, a).calls ensures CallInv(Next(s, a), id, Next(s, a).calls[id]) {
        StepKeepsCall(s, a, id);
      }
    }
  }

  // ----- theorems over every run

  /** What `create` decides from earlier requests: with the map first, or from the key table alone. */
  function WithMap(s: State, pod: nat, order: Order): Option<Answer>
  {
    var hit := Cached(MemoryOf(s, pod), order);
    if hit.Some? then hit else WithoutMap(s, order)
  }

  function WithoutMap(s: State, order: Order): Option<Answer>
  {
    if order.user in s.buyers then Durable(s.keys, s.buyers[order.user], order) else None
  }

  /** Every entry of every pod's map has its durable row: same hash, same order. */
  lemma EntriesAreDurable(init: State, actions: seq<Action>, pod: nat, user: string, key: string)
    requires Initial(init) && key != "" && !HasColon(user) && forall u :: u in init.buyers ==> !HasColon(u)
    requires CacheKey(user, key) in MemoryOf(Exec(init, actions), pod)
    ensures var s := Exec(init, actions);
            var e := MemoryOf(s, pod)[CacheKey(user, key)];
            && user in s.buyers && (s.buyers[user], key) in s.keys
            && s.keys[(s.buyers[user], key)] == KeyRow(e.orderId, e.hash)
  {
    ExecKeepsInv(init, actions);
    var s := Exec(init, actions);
    ColonFreeIsUnambiguous(s.buyers, user, key);
    var e := s.memory[pod][CacheKey(user, key)];
    assert EntryInv(s, CacheKey(user, key), e);
    CachedIsDurable(s, pod, Order(user, key, e.hash));
  }

  /** The run that puts one buyer's order into the map of pod 0. */
  function OneCreate(order: Order): seq<Action>
  {
    [Arrive(0, 0, order), Resolve(0, true), Checkout(0, 0, false), Store(0, true)]
  }

  function EmptyState(buyers: map<string, string>): State
  {
    State(buyers, map[], map[], map[], map[])
  }

  lemma OneCreateEnds(buyers: map<string, string>, order: Order)
    requires order.user in buyers
    ensures var s := Exec(EmptyState(buyers), OneCreate(order));
            && s.buyers == buyers
            && MemoryOf(s, 0) == map[CacheKey(order.user, order.key) := Entry(order.hash, 0, order)]
            && s.keys == if order.key == "" then map[]
                         else map[(buyers[order.user], order.key) := KeyRow(0, order.hash)]
  {
    var run := OneCreate(order);
    var s0 := EmptyState(buyers);
    assert run[..4] == run && run[..4][..3] == run[..3] && run[..3][..2] == run[..2] && run[..2][..1] == run[..1];
    assert run[..1][..0] == [];
    var s1 := ArriveOne(s0, 0, 0, order);
    assert Exec(s0, run[..1]) == Next(s0, run[0]) == s1;
    var s2 := ResolveOne(s1, 0, true);
    assert Exec(s0, run[..2]) == Next(s1, run[1]) == s2;
    var s3 := CheckoutOne(s2, 0, 0, false);
    assert Exec(s0, run[..3]) == Next(s2, run[2]) == s3;
    assert Exec(s0, run) == Next(s3, run[3]) == StoreOne(s3, 0, true);
  }

  /** In every run the map and the key table decide alike on this user and key. */
  ghost predicate AlwaysAgrees(buyers: map<string, string>, user: string, key: string)
  {
    forall init, actions, pod, hash :: Initial(init) && init.buyers == buyers ==>
      var s := Exec(init, actions);
      WithMap(s, pod, Order(user, key, hash)) == WithoutMap(s, Order(user, key, hash))
  }

  /**
   The map changes no decision and no order id, in any reachable state, for exactly those requests whose map key no
   buyer can have in another meaning.
   */
  lemma MapIsSoundExactlyIf(buyers: map<string, string>, user: string, key: string)
    ensures AlwaysAgrees(buyers, user, key) <==> Unambiguous(buyers, user, key)
  {
    if Unambiguous(buyers, user, key) {
      forall init, actions, pod, hash | Initial(init) && init.buyers == buyers
        ensures var s := Exec(init, actions);
                WithMap(s, pod, Order(user, key, hash)) == WithoutMap(s, Order(user, key, hash)) {
        UnambiguousAgrees(init, actions, pod, Order(user, key, hash));
      }
    } else {
      var u, k :| u in buyers && CacheKey(u, k) == CacheKey(user, key)
                  && !(k != "" && k == key && user in buyers && buyers[u] == buyers[user]);
      AmbiguousDiffers(buyers, user, key, u, k);
    }
  }

  lemma UnambiguousAgrees(init: State, actions: seq<Action>, pod: nat, order: Order)
    requires Initial(init) && Unambiguous(init.buyers, order.user, order.key)
    ensures WithMap(Exec(init, actions), pod, order) == WithoutMap(Exec(init, actions), order)
  {
    ExecKeepsInv(init, actions);
    var s := Exec(init, actions);
    if Cached(MemoryOf(s, pod), order).Some? {
      CachedIsDurable(s, pod, order);
    }
  }

  /** One create by the other buyer, and the map replays an order that the key table does not know under this key. */
  lemma AmbiguousDiffers(buyers: map<string, string>, user: string, key: string, u: string, k: string)
    requires u in buyers && CacheKey(u, k) == CacheKey(user, key)
    requires !(k != "" && k == key && user in buyers && buyers[u] == buyers[user])
    ensures var s := Exec(EmptyState(buyers), OneCreate(Order(u, k, "")));
            WithMap(s, 0, Order(user, key, "")) == Some(Replay(0)) && WithoutMap(s, Order(user, key, "")) == None
    ensures !AlwaysAgrees(buyers, user, key)
  {
    OneCreateEnds(buyers, Order(u, k, ""));
    var s := Exec(EmptyState(buyers), OneCreate(Order(u, k, "")));
    assert WithMap(s, 0, Order(user, key, "")) != WithoutMap(s, Order(user, key, ""));
    assert Initial(EmptyState(buyers)) && EmptyState(buyers).buyers == buyers;
  }

  /** An empty key is ambiguous for every buyer; so are two user ids when one is the other, a colon and more. */
  lemma AmbiguousKeys(buyers: map<string, string>, user: string, more: string, key: string)
    ensures user in buyers ==> !Unambiguous(buyers, user, "")
    ensures user + ":" + more in buyers && key != "" ==> !Unambiguous(buyers, user, more + ":" + key)
  {
    assert CacheKey(user, "") == CacheKey(user, "");
    assert CacheKey(user + ":" + more, key) == CacheKey(user, more + ":" + key);
    assert |more + ":" + key| != |key|;
  }

  /** All calls that answer one buyer's key, on any pod, answer with one order, and only one of them created it. */
  lemma OneOrderPerKey(init: State, actions: seq<Action>, a: nat, b: nat)
    requires Initial(init)
    requires var s := Exec(init, actions);
             && a in s.calls && b in s.calls && Answered(s.calls[a]) && Answered(s.calls[b])
             && SameKey(s.buyers, s.calls[a].order, s.calls[b].order)
    ensures var s := Exec(init, actions);
            var x, y := s.calls[a].phase.answer, s.calls[b].phase.answer;
            && OrderIdOf(x) == OrderIdOf(y) && s.calls[a].order.hash == s.calls[b].order.hash
            && (x.Created? && y.Created? ==> a == b)
  {
    ExecKeepsInv(init, actions);
    var s := Exec(init, actions);
    assert CallInv(s, a, s.calls[a]) && CallInv(s, b, s.calls[b]);
    AnswerIsDurable(s, a);
    AnswerIsDurable(s, b);
  }

  predicate Answered(c: Call)
  {
    c.phase.Done? && (c.phase.answer.Replay? || c.phase.answer.Created?)
  }

  function OrderIdOf(x: Answer): nat
  {
    match x
    case Replay(orderId) => orderId
    case Created(orderId) => orderId
    case _ => 0
  }

  ghost predicate SameKey(buyers: map<string, string>, x: Order, y: Order)
  {
    && Unambiguous(buyers, x.user, x.key) && Unambiguous(buyers, y.user, y.key)
    && x.key == y.key && x.key != ""
    && x.user in buyers && y.user in buyers && buyers[x.user] == buyers[y.user]
  }

  lemma AnswerIsDurable(s: State, id: nat)
    requires Inv(s) && id in s.calls && Answered(s.calls[id]) && s.calls[id].order.key != ""
    requires Unambiguous(s.buyers, s.calls[id].order.user, s.calls[id].order.key)
    ensures Recorded(s.buyers, s.keys, s.calls[id].order, OrderIdOf(s.calls[id].phase.answer))
  {
    assert CallInv(s, id, s.calls[id]);
  }
}
