/**
 How the consumer tells a transient error from a permanent one: a search over error objects linked by `driverError` and
 `cause`, which may be shared or form cycles.
 */
module ErrorGraph {
  import opened Prelude
  import Ascii
  import Finite
  import WithRetry

  /** A property's value. Only an object is searched; a function is not, though its `code` can be read. */
  datatype Value =
    | Primitive
    | Callable(code: Option<string>)
    | Object(id: nat)

  /** `code` if that property holds a string, `message` if the object is an Error. */
  datatype Node = Node(code: Option<string>, message: Option<string>, driverError: Value, cause: Value)

  type Heap = map<nat, Node>

  predicate InHeap(h: Heap, v: Value)
  {
    v.Object? ==> v.id in h
  }

  /** Properties only point to existing objects. */
  ghost predicate Closed(h: Heap)
  {
    forall id :: id in h ==> InHeap(h, h[id].driverError) && InHeap(h, h[id].cause)
  }

  function CodeOf(h: Heap, v: Value): Option<string>
    requires InHeap(h, v)
  {
    match v
    case Primitive => None
    case Callable(code) => code
    case Object(id) => h[id].code
  }

  /** The code of the object, or else that of its `driverError`; an empty string is a code. */
  function ReadPgCode(h: Heap, v: Value): Option<string>
    requires Closed(h) && InHeap(h, v)
  {
    if !v.Object? then None
    else if h[v.id].code.Some? then h[v.id].code
    else CodeOf(h, h[v.id].driverError)
  }

  const TransientNode: set<string> := {
    "EAI_AGAIN", "ECONNABORTED", "ECONNREFUSED", "ECONNRESET", "EHOSTUNREACH", "ENETDOWN", "ENETUNREACH", "ENOTFOUND",
    "EPIPE", "ETIMEDOUT"}

  const TransientMessages: set<string> := {
    "connection terminated", "not queryable", "could not connect to server", "the database system is starting up",
    "the database system is shutting down", "sorry, too many clients already"}

  predicate IsTransientCode(code: string)
  {
    || code in TransientNode
    || code == "55P03"
    || (|code| == 5 && code[..2] in {"08", "40", "53", "57"})
  }

  predicate StandsAt(text: string, part: string, i: nat)
  {
    i + |part| <= |text| && text[i..i + |part|] == part
  }

  predicate Contains(text: string, part: string)
  {
    exists i: nat :: i <= |text| && StandsAt(text, part, i)
  }

  predicate IsTransientMessage(message: string)
  {
    exists part :: part in TransientMessages && Contains(Ascii.Lower(message), part)
  }

  predicate HasTransientCode(code: Option<string>)
  {
    code.Some? && IsTransientCode(code.value)
  }

  predicate HasTransientMessage(n: Node)
  {
    n.message.Some? && IsTransientMessage(n.message.value)
  }

  // ----- what the answer should be

  function Child(n: Node, driver: bool): Value
  {
    if driver then n.driverError else n.cause
  }

  /** The value reached by following the properties named by `path`. */
  ghost function Walk(h: Heap, v: Value, path: seq<bool>): Value
    decreases |path|
  {
    if path == [] then v
    else if v.Object? && v.id in h then Walk(h, Child(h[v.id], path[0]), path[1..])
    else Primitive
  }

  ghost predicate Reaches(h: Heap, v: Value, id: nat)
  {
    exists path :: Walk(h, v, path) == Object(id)
  }

  /** The object itself is transient: its own code or message, nobody else's. */
  predicate IsTransient(n: Node)
  {
    HasTransientCode(n.code) || HasTransientMessage(n)
  }

  /** An object without a code whose `driverError` is a function that carries a transient one. */
  predicate BorrowsTransientCode(n: Node)
  {
    n.code.None? && n.driverError.Callable? && HasTransientCode(n.driverError.code)
  }

  ghost predicate SomeTransient(h: Heap, v: Value)
  {
    exists id :: id in h && Reaches(h, v, id) && (IsTransient(h[id]) || BorrowsTransientCode(h[id]))
  }

  // ----- the search

  /** What one visit checks, before it goes on to the linked objects. */
  predicate Checks(h: Heap, id: nat)
    requires Closed(h) && id in h
  {
    HasTransientCode(ReadPgCode(h, Object(id))) || HasTransientMessage(h[id])
  }

  lemma ReachesThrough(h: Heap, id: nat, driver: bool, target: nat)
    requires id in h && Reaches(h, Child(h[id], driver), target)
    ensures Reaches(h, Object(id), target)
  {
    var path :| Walk(h, Child(h[id], driver), path) == Object(target);
    assert ([driver] + path)[1..] == path;
    assert Walk(h, Object(id), [driver] + path) == Object(target);
  }

  lemma TransientThrough(h: Heap, id: nat, driver: bool)
    requires id in h && SomeTransient(h, Child(h[id], driver))
    ensures SomeTransient(h, Object(id))
  {
    var target :| target in h && Reaches(h, Child(h[id], driver), target)
                  && (IsTransient(h[target]) || BorrowsTransientCode(h[target]));
    ReachesThrough(h, id, driver, target);
  }

  lemma ReachesSelf(h: Heap, id: nat)
    ensures Reaches(h, Object(id), id)
  {
    assert Walk(h, Object(id), []) == Object(id);
  }

  /** Looking ahead at the driver error's code finds nothing that visiting it would not, except on a function. */
  lemma CheckFindsReachable(h: Heap, id: nat)
    requires Closed(h) && id in h && Checks(h, id)
    ensures SomeTransient(h, Object(id))
  {
    ReachesSelf(h, id);
    var driver := h[id].driverError;
    if !IsTransient(h[id]) && !BorrowsTransientCode(h[id]) {
      assert driver.Object? && IsTransient(h[driver.id]);
      ReachesSelf(h, driver.id);
      TransientThrough(h, id, true);
    }
  }

  ghost predicate SeenWhenObject(v: Value, seen: set<nat>)
  {
    v.Object? ==> v.id in seen
  }

  /** Visited without success: what was checked is permanent, what it links to was visited. */
  ghost predicate Exhausted(h: Heap, ids: set<nat>, seen: set<nat>)
    requires Closed(h) && ids <= h.Keys
  {
    forall id :: id in ids ==>
      !Checks(h, id) && SeenWhenObject(h[id].driverError, seen) && SeenWhenObject(h[id].cause, seen)
  }

  lemma {:induction false} WalkStaysSeen(h: Heap, v: Value, seen: set<nat>, path: seq<bool>)
    requires Closed(h) && seen <= h.Keys && Exhausted(h, seen, seen) && SeenWhenObject(v, seen)
    ensures SeenWhenObject(Walk(h, v, path), seen)
    decreases |path|
  {
    if path != [] && v.Object? {
      WalkStaysSeen(h, Child(h[v.id], path[0]), seen, path[1..]);
    }
  }

  lemma ExhaustedMeansNone(h: Heap, v: Value, seen: set<nat>)
    requires Closed(h) && seen <= h.Keys && Exhausted(h, seen, seen) && SeenWhenObject(v, seen)
    ensures !SomeTransient(h, v)
  {
    forall id | id in h && Reaches(h, v, id) ensures !IsTransient(h[id]) && !BorrowsTransientCode(h[id]) {
      var path :| Walk(h, v, path) == Object(id);
      WalkStaysSeen(h, v, seen, path);
    }
  }

  /** Two searches from one object that both failed, and the object itself. */
  lemma ExhaustedBoth(h: Heap, id: nat, before: set<nat>, between: set<nat>, after: set<nat>)
    requires Closed(h) && id in h && before + {id} <= between <= after <= h.Keys
    requires !Checks(h, id) && SeenWhenObject(h[id].driverError, between) && SeenWhenObject(h[id].cause, after)
    requires Exhausted(h, between - (before + {id}), between) && Exhausted(h, after - between, after)
    ensures Exhausted(h, after - before, after)
  {
  }

  lemma LessToSee(all: set<nat>, before: set<nat>, id: nat, after: set<nat>)
    requires id in all && id !in before && before + {id} <= after
    ensures |all - after| < |all - before|
  {
    assert id in all - before && all - after <= all - before - {id};
    Finite.SubsetFits(all - after, all - before - {id});
  }

  class Search {
    const h: Heap
    var seen: set<nat>

    constructor (h: Heap)
      ensures this.h == h && seen == {}
    {
      this.h := h;
      seen := {};
    }

    method Visit(v: Value) returns (found: bool)
      requires Closed(h) && InHeap(h, v) && seen <= h.Keys
      modifies this
      ensures old(seen) <= seen <= h.Keys
      ensures found ==> SomeTransient(h, v)
      ensures !found ==> SeenWhenObject(v, seen) && Exhausted(h, seen - old(seen), seen)
      decreases |h.Keys - seen|
    {
      if !v.Object? || v.id in seen {
        return false;
      }
      ghost var before := seen;
      var id := v.id;
      seen := seen + {id};
      LessToSee(h.Keys, before, id, seen);
      var code := ReadPgCode(h, v);
      if code.Some? && code.value != "" && IsTransientCode(code.value) {
        CheckFindsReachable(h, id);
        return true;
      }
      if h[id].message.Some? && IsTransientMessage(h[id].message.value) {
        CheckFindsReachable(h, id);
        return true;
      }
      assert !Checks(h, id);
      found := Visit(h[id].driverError);
      if found {
        TransientThrough(h, id, true);
        return;
      }
      ghost var between := seen;
      LessToSee(h.Keys, before, id, between);
      found := Visit(h[id].cause);
      if found {
        TransientThrough(h, id, false);
      } else {
        ExhaustedBoth(h, id, before, between, seen);
      }
    }
  }

  ghost predicate SomeOwnTransient(h: Heap, v: Value)
  {
    exists id :: id in h && Reaches(h, v, id) && IsTransient(h[id])
  }

  /** No function stands as the driver error of a reachable object. */
  ghost predicate NoCallableDriver(h: Heap, v: Value)
  {
    forall id :: id in h && Reaches(h, v, id) ==> !h[id].driverError.Callable?
  }

  /**
   Ends on every finite graph, cyclic or not, and says yes exactly when some object reachable by `driverError` and
   `cause` is transient by its own code or message (or, oddly, borrows the code of a function standing as its driver
   error).
   */
  method IsTransientConsumerError(h: Heap, err: Value) returns (transient: bool)
    requires Closed(h) && InHeap(h, err)
    ensures transient <==> SomeTransient(h, err)
    ensures NoCallableDriver(h, err) ==> (transient <==> SomeOwnTransient(h, err))
  {
    var search := new Search(h);
    transient := search.Visit(err);
    if !transient {
      ExhaustedMeansNone(h, err, search.seen);
    }
  }

  /** A graph on which that oddity decides: no object of it is transient, yet the search says yes. */
  lemma FunctionCodeCounts(h: Heap)
    requires h == map[0 := Node(None, None, Callable(Some("40001")), Primitive)]
    ensures SomeTransient(h, Object(0)) && !SomeOwnTransient(h, Object(0))
  {
    assert "40001"[..2] == "40";
    ReachesSelf(h, 0);
    assert BorrowsTransientCode(h[0]);
  }

  /**
   An error that `withRetry` retries, and rethrows when its attempts run out, is requeued rather than dead-lettered.
   */
  lemma RetriedIsTransient(h: Heap, err: Value)
    requires Closed(h) && InHeap(h, err) && WithRetry.CanRetry(WithRetry.Thrown(ReadPgCode(h, err)))
    ensures SomeTransient(h, err)
  {
    var code := ReadPgCode(h, err).value;
    assert code[..2] == "40";
    CheckFindsReachable(h, err.id);
  }
}
