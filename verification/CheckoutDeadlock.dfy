/** Checkouts never wait for each other in a circle. */
module CheckoutDeadlock {
  import opened Finite
  import opened Collation
  import opened LockOrder
  import opened CheckoutTables
  import opened CheckoutRuns

  /** Rows are locked in this order: products by id, then the user, then the intent key. */
  predicate Before(a: Resource, b: Resource)
  {
    match (a, b)
    case (ProductRow(p), ProductRow(q)) => Less(p, q)
    case (ProductRow(_), _) => true
    case (UserRow(_), IntentKey(_)) => true
    case _ => false
  }

  lemma BeforeTransitive(a: Resource, b: Resource, c: Resource)
    requires Before(a, b) && Before(b, c)
    ensures Before(a, c)
  {
    if a.ProductRow? && b.ProductRow? && c.ProductRow? {
      Transitive(a.productId, b.productId, c.productId);
    }
  }

  /** `a` waits for a row that `b` holds. */
  ghost predicate WaitsFor(s: State, a: nat, b: nat)
  {
    Waits(s, a) && b in s.clients && b != a && Holds(s.clients[b], Wants(s.clients[a]).value)
  }

  /** A row a client waits for is not one it holds. */
  lemma WantedNotHeld(s: State, id: nat)
    requires Inv(s) && Waits(s, id)
    ensures !Holds(s.clients[id], Wants(s.clients[id]).value)
  {
    var wanted := Wants(s.clients[id]).value;
    var other :| other in s.clients && other != id && Holds(s.clients[other], wanted);
    assert Apart(s.clients[id], s.clients[other]);
  }

  /** A waiting client holds only rows that come before the one it waits for. */
  lemma HeldBeforeWanted(s: State, id: nat, r: Resource)
    requires Inv(s) && Waits(s, id) && Holds(s.clients[id], r)
    ensures Before(r, Wants(s.clients[id]).value)
  {
    WantedNotHeld(s, id);
    assert ClientInv(s.db, s.next, s.clients[id]);
    LockedInOrder(s.db, s.next, s.clients[id], r);
  }

  lemma LockedInOrder(db: Database, next: Ids, c: Client, r: Resource)
    requires ClientInv(db, next, c) && Running(c) && Wants(c).Some? && Holds(c, r) && r != Wants(c).value
    ensures Before(r, Wants(c).value)
  {
    if c.phase.Reserving? && c.phase.n < |c.locked| {
      var n := c.phase.n;
      var i :| 0 <= i < n && c.locked[..n][i].item.productId == r.productId;
      LockOrderSorts(c.req.items);
      assert Precedes(c.locked[i], c.locked[n]);
    }
  }

  // ----- waiting, as a graph

  /** Each edge leads to a client that wants nothing, or wants a later row. */
  ghost predicate Ascending(edges: set<(nat, nat)>, wants: map<nat, Resource>)
  {
    forall e :: e in edges ==> e.0 in wants && (e.1 in wants ==> Before(wants[e.0], wants[e.1]))
  }

  ghost predicate Walk(edges: set<(nat, nat)>, path: seq<nat>)
  {
    forall i :: 0 <= i < |path| - 1 ==> (path[i], path[i + 1]) in edges
  }

  lemma {:induction false} WalkAscends(edges: set<(nat, nat)>, wants: map<nat, Resource>, path: seq<nat>,
                                       i: nat, j: nat)
    requires Ascending(edges, wants) && Walk(edges, path) && i < j < |path| && path[j] in wants
    ensures path[i] in wants && Before(wants[path[i]], wants[path[j]])
  {
    assert (path[j - 1], path[j]) in edges;
    if i < j - 1 {
      WalkAscends(edges, wants, path, i, j - 1);
      BeforeTransitive(wants[path[i]], wants[path[j - 1]], wants[path[j]]);
    }
  }

  lemma WalkIsSimple(edges: set<(nat, nat)>, wants: map<nat, Resource>, path: seq<nat>, i: nat, j: nat)
    requires Ascending(edges, wants) && Walk(edges, path) && i < j < |path|
    ensures path[i] != path[j]
  {
    assert (path[i], path[i + 1]) in edges;
    if path[i] == path[j] {
      WalkAscends(edges, wants, path, i, j);
      match wants[path[i]]
      case ProductRow(p) => Irreflexive(p);
      case _ =>
    }
  }

  /** A walk among finitely many clients can be followed to one without an outgoing edge. */
  lemma {:induction false} WalkEnds(edges: set<(nat, nat)>, wants: map<nat, Resource>, nodes: set<nat>, path: seq<nat>)
    returns (end: nat)
    requires Ascending(edges, wants) && Walk(edges, path)
    requires path != [] && forall i :: 0 <= i < |path| ==> path[i] in nodes
    requires forall e :: e in edges ==> e.1 in nodes
    ensures end in nodes && forall b :: (end, b) !in edges
    decreases |nodes| + 1 - |path|
  {
    forall i, j | 0 <= i < j < |path| ensures path[i] != path[j] {
      WalkIsSimple(edges, wants, path, i, j);
    }
    DistinctFits(path, nodes);
    end := path[|path| - 1];
    if exists b :: (end, b) in edges {
      var b :| (end, b) in edges;
      end := WalkEnds(edges, wants, nodes, path + [b]);
    }
  }

  // ----- the graph of a state

  ghost function Edges(s: State): set<(nat, nat)>
  {
    set a, b | a in s.clients.Keys && b in s.clients.Keys && WaitsFor(s, a, b) :: (a, b)
  }

  ghost function WantedRows(s: State): map<nat, Resource>
  {
    map a | a in s.clients && Waits(s, a) :: Wants(s.clients[a]).value
  }

  lemma EdgesAscend(s: State)
    requires Inv(s)
    ensures Ascending(Edges(s), WantedRows(s))
  {
    forall e | e in Edges(s)
      ensures e.0 in WantedRows(s)
      ensures e.1 in WantedRows(s) ==> Before(WantedRows(s)[e.0], WantedRows(s)[e.1])
    {
      if e.1 in WantedRows(s) {
        HeldBeforeWanted(s, e.1, Wants(s.clients[e.0]).value);
      }
    }
  }

  /** The waits-for relation of every reachable state has no cycle. */
  lemma NoWaitCycle(init: State, actions: seq<Action>, path: seq<nat>)
    requires Initial(init) && |path| > 1
    requires forall i :: 0 <= i < |path| - 1 ==> WaitsFor(Exec(init, actions), path[i], path[i + 1])
    ensures path[0] != path[|path| - 1]
  {
    var s := Exec(init, actions);
    ExecKeepsInv(init, actions);
    EdgesAscend(s);
    forall i | 0 <= i < |path| - 1 ensures (path[i], path[i + 1]) in Edges(s) {
      assert WaitsFor(s, path[i], path[i + 1]);
    }
    WalkIsSimple(Edges(s), WantedRows(s), path, 0, |path| - 1);
  }

  lemma HolderInTx(s: State, id: nat, r: Resource)
    requires Inv(s) && id in s.clients && Holds(s.clients[id], r)
    ensures InTx(s.clients[id])
  {
    assert ClientInv(s.db, s.next, s.clients[id]);
  }

  /** Following who waits for whom from an open transaction ends at one that does not wait. */
  lemma WaitingEnds(s: State, waiting: nat) returns (id: nat)
    requires Inv(s) && waiting in s.clients && InTx(s.clients[waiting])
    ensures id in s.clients && InTx(s.clients[id]) && !Waits(s, id)
  {
    var open := set c | c in s.clients.Keys && InTx(s.clients[c]);
    EdgesAscend(s);
    forall e | e in Edges(s) ensures e.1 in open {
      HolderInTx(s, e.1, Wants(s.clients[e.0]).value);
    }
    id := WalkEnds(Edges(s), WantedRows(s), open, [waiting]);
    forall b | b in s.clients.Keys ensures !WaitsFor(s, id, b) {
      assert (id, b) !in Edges(s);
    }
  }

  /** The next step of a client: its commit if nothing is left to run. */
  function StepOf(c: Client, id: nat): Action
  {
    if c.phase.Committing? then Commit(id, true) else Run(id)
  }

  lemma AdvanceMoves(db: Database, next: Ids, c: Client)
    requires Running(c) && Advance(db, next, c).Proceed?
    ensures Advance(db, next, c).client.phase != c.phase
  {
  }

  lemma NotWaitingMoves(s: State, id: nat)
    requires id in s.clients && InTx(s.clients[id]) && !Waits(s, id)
    ensures var s' := Next(s, StepOf(s.clients[id], id));
            id in s'.clients && s'.clients[id].phase != s.clients[id].phase
  {
    var c := s.clients[id];
    if Running(c) && Advance(s.db, s.next, c).Proceed? {
      AdvanceMoves(s.db, s.next, c);
    }
  }

  /** Deadlock freedom: in every reachable state with an open transaction, some open transaction can step. */
  lemma SomeCheckoutCanStep(init: State, actions: seq<Action>, waiting: nat) returns (id: nat)
    requires Initial(init)
    requires waiting in Exec(init, actions).clients && InTx(Exec(init, actions).clients[waiting])
    ensures var s := Exec(init, actions);
            && id in s.clients && InTx(s.clients[id])
            && var s' := Next(s, StepOf(s.clients[id], id));
               id in s'.clients && s'.clients[id].phase != s.clients[id].phase
  {
    ExecKeepsInv(init, actions);
    id := WaitingEnds(Exec(init, actions), waiting);
    NotWaitingMoves(Exec(init, actions), id);
  }

  /** A client past its debit holds its user's row. */
  lemma PastDebitHoldsUser(s: State, id: nat)
    requires Inv(s) && id in s.clients && InTx(s.clients[id]) && !s.clients[id].phase.Reserving?
    ensures Holds(s.clients[id], UserRow(s.clients[id].req.userId))
  {
    assert ClientInv(s.db, s.next, s.clients[id]);
  }

  lemma KeyHolderIsUser(s: State, id: nat, k: (string, string))
    requires Inv(s) && id in s.clients && Holds(s.clients[id], IntentKey(k))
    ensures s.clients[id].req.userId == k.0 && InTx(s.clients[id]) && !s.clients[id].phase.Reserving?
  {
    assert ClientInv(s.db, s.next, s.clients[id]);
  }

  /** A wait for an intent key never happens: its holder would also hold the user row this client has debited. */
  lemma KeyNeverWaits(s: State, id: nat)
    requires Inv(s) && id in s.clients && s.clients[id].phase.ClaimingKey?
    ensures !Waits(s, id)
  {
    var c := s.clients[id];
    PastDebitHoldsUser(s, id);
    forall other | other in s.clients && other != id
      ensures KeyOf(c.req).Some? ==> !Holds(s.clients[other], IntentKey(KeyOf(c.req).value))
    {
      assert Apart(c, s.clients[other]);
      if KeyOf(c.req).Some? && Holds(s.clients[other], IntentKey(KeyOf(c.req).value)) {
        KeyHolderIsUser(s, other, KeyOf(c.req).value);
        PastDebitHoldsUser(s, other);
      }
    }
  }
}
