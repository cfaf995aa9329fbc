/**
 The product-card cache with its single-flight lock: any number of `getCard` calls, `refresh` writers, evictions, and a
 clock. Times are in milliseconds on one clock. Lock tokens are distinct. An action that is not possible changes
 nothing.
 */
module ProductCard {
  import opened Prelude

  const LOCK_TTL_MS := 5000
  const WAIT_POLL_MS := 20
  const WAIT_POLLS := 250 // LOCK_TTL_MS / WAIT_POLL_MS, rounded up

  /** A card, or the fact that there is none; both are cached. */
  type Card = Option<nat>

  datatype Lock = Lock(token: nat, expiresAt: int)

  datatype Phase =
    | Reading
    | Locking
    | Rechecking // got the lock, about to read the cache again
    | Loading
    | Writing(card: Card)
    | Unlocking(result: Option<Card>) // in `finally`; None if the load threw
    | Waiting(since: int, polls: nat, wakeAt: int)
    | Returned(card: Card)
    | TimedOut
    | Failed

  /** `token` and `deadline` (when its lock expires) are set by the call's SET NX PX. */
  datatype Client = Client(token: nat, deadline: int, phase: Phase)

  /**
   `owner` says which call drew a token. The counters: loads by `getCard`, its writes, those that found an entry,
   entries put by `refresh` where there was none, and entries that disappeared.
   */
  datatype State = State(
    now: int,
    cache: Option<Card>,
    lock: Option<Lock>,
    owner: map<nat, nat>,
    clients: map<nat, Client>,
    loads: nat,
    writes: nat,
    overwrites: nat,
    refreshFills: nat,
    evictions: nat)

  datatype Action =
    | Tick(ms: nat)
    | Evict // expiry of the entry, or the server's eviction policy
    | EvictLock // the policy may pick the lock's key as well
    | Refresh(card: Card)
    | Arrive(id: nat)
    | Read(id: nat)
    | TryLock(id: nat, token: nat)
    | Recheck(id: nat)
    | RecheckFails(id: nat) // the read throws, and `finally` unlocks
    | LoadEnds(id: nat, loaded: Option<Card>) // None: the repository threw
    | Write(id: nat, stored: bool) // a failed cache write is swallowed
    | Unlock(id: nat)
    | Poll(id: nat)
    | Crash(id: nat)

  predicate Free(s: State)
  {
    s.lock.None? || s.now >= s.lock.value.expiresAt
  }

  function Put(s: State, id: nat, c: Client): State
  {
    s.(clients := s.clients[id := c])
  }

  function Go(s: State, id: nat, phase: Phase): State
    requires id in s.clients
  {
    Put(s, id, s.clients[id].(phase := phase))
  }

  function ReadOne(s: State, id: nat): State
    requires id in s.clients
  {
    Go(s, id, if s.cache.Some? then Returned(s.cache.value) else Locking)
  }

  /** SET lock token PX LOCK_TTL_MS NX */
  function LockOne(s: State, id: nat, token: nat): State
    requires id in s.clients
  {
    if Free(s) then
      var deadline := s.now + LOCK_TTL_MS;
      Put(s, id, Client(token, deadline, Rechecking)).(
        lock := Some(Lock(token, deadline)), owner := s.owner[token := id])
    else Go(s, id, Waiting(s.now, 0, s.now + WAIT_POLL_MS)).(owner := s.owner[token := id])
  }

  function RecheckOne(s: State, id: nat): State
    requires id in s.clients
  {
    if s.cache.Some? then Go(s, id, Unlocking(s.cache)) else Go(s, id, Loading).(loads := s.loads + 1)
  }

  function WriteOne(s: State, id: nat, stored: bool): State
    requires id in s.clients && s.clients[id].phase.Writing?
  {
    var card := s.clients[id].phase.card;
    var s' := Go(s, id, Unlocking(Some(card))).(writes := s.writes + 1);
    if !stored then s'
    else s'.(cache := Some(card), overwrites := s.overwrites + if s.cache.Some? then 1 else 0)
  }

  /** The unlock script deletes the key only if it still holds this call's token. */
  function UnlockOne(s: State, id: nat): State
    requires id in s.clients && s.clients[id].phase.Unlocking?
  {
    var c := s.clients[id];
    var s' := Go(s, id, if c.phase.result.Some? then Returned(c.phase.result.value) else Failed);
    if s.lock.Some? && s.now < s.lock.value.expiresAt && s.lock.value.token == c.token then s'.(lock := None) else s'
  }

  function PollOne(s: State, id: nat): State
    requires id in s.clients && s.clients[id].phase.Waiting?
  {
    var Waiting(since, polls, wakeAt) := s.clients[id].phase;
    if s.now < wakeAt then s
    else if s.cache.Some? then Go(s, id, Returned(s.cache.value))
    else if polls + 1 < WAIT_POLLS then Go(s, id, Waiting(since, polls + 1, s.now + WAIT_POLL_MS))
    else Go(s, id, TimedOut)
  }

  predicate At(s: State, id: nat, phase: Phase)
  {
    id in s.clients && s.clients[id].phase == phase
  }

  function Next(s: State, a: Action): State
  {
    match a
    case Tick(ms) => s.(now := s.now + ms)
    case Evict => if s.cache.Some? then s.(cache := None, evictions := s.evictions + 1) else s
    case EvictLock => s.(lock := None)
    case Refresh(card) =>
      s.(cache := Some(card), refreshFills := s.refreshFills + if s.cache.None? then 1 else 0)
    case Arrive(id) => if id in s.clients then s else Put(s, id, Client(0, 0, Reading))
    case Read(id) => if At(s, id, Reading) then ReadOne(s, id) else s
    case TryLock(id, token) => if At(s, id, Locking) && token !in s.owner then LockOne(s, id, token) else s
    case Recheck(id) => if At(s, id, Rechecking) then RecheckOne(s, id) else s
    case RecheckFails(id) => if At(s, id, Rechecking) then Go(s, id, Unlocking(None)) else s
    case LoadEnds(id, loaded) =>
      if At(s, id, Loading) then Go(s, id, if loaded.Some? then Writing(loaded.value) else Unlocking(None)) else s
    case Write(id, stored) => if id in s.clients && s.clients[id].phase.Writing? then WriteOne(s, id, stored) else s
    case Unlock(id) => if id in s.clients && s.clients[id].phase.Unlocking? then UnlockOne(s, id) else s
    case Poll(id) => if id in s.clients && s.clients[id].phase.Waiting? then PollOne(s, id) else s
    case Crash(id) => if id in s.clients then Go(s, id, Failed) else s
  }

  function Exec(s: State, actions: seq<Action>): State
  {
    if actions == [] then s
    else Next(Exec(s, actions[..|actions| - 1]), actions[|actions| - 1])
  }

  predicate Initial(s: State)
  {
    && s.cache == None && s.lock == None && s.owner == map[] && s.clients == map[]
    && s.loads == s.writes == s.overwrites == s.refreshFills == s.evictions == 0
  }

  // ----- the lock, with no assumption about timing

  /** Has taken the lock and not yet left the part it protects. */
  predicate Holding(c: Client)
  {
    c.phase.Rechecking? || c.phase.Loading? || c.phase.Writing?
  }

  /** Has drawn its own token and kept it. */
  predicate HasToken(c: Client)
  {
    Holding(c) || c.phase.Unlocking?
  }

  /** A token belongs to the call that drew it. */
  ghost predicate OwnsToken(s: State, id: nat)
    requires id in s.clients
  {
    HasToken(s.clients[id]) ==> s.clients[id].token in s.owner && s.owner[s.clients[id].token] == id
  }

  ghost predicate TokenInv(s: State)
  {
    && (s.lock.Some? ==> s.lock.value.token in s.owner)
    && forall id :: id in s.clients ==> OwnsToken(s, id)
  }

  lemma TokenOf(s: State, a: Action, id: nat)
    requires TokenInv(s) && id in Next(s, a).clients
    ensures OwnsToken(Next(s, a), id)
  {
    if id in s.clients {
      assert OwnsToken(s, id);
    }
  }

  lemma {:induction false} ExecKeepsTokens(init: State, actions: seq<Action>)
    requires Initial(init)
    ensures TokenInv(Exec(init, actions))
  {
    if actions != [] {
      var s, a := Exec(init, actions[..|actions| - 1]), actions[|actions| - 1];
      ExecKeepsTokens(init, actions[..|actions| - 1]);
      forall id | id in Next(s, a).clients ensures OwnsToken(Next(s, a), id) {
        TokenOf(s, a, id);
      }
    }
  }

  /**
   With no assumption at all, on timing or on eviction: the only lock an unlock removes is the one its own call set, so
   one that another call has set stays, however late the unlock comes.
   */
  lemma UnlockRemovesOwn(init: State, actions: seq<Action>, id: nat)
    requires Initial(init)
    requires var s := Exec(init, actions); id in s.clients && s.clients[id].phase.Unlocking?
    ensures var s := Exec(init, actions);
            && (s.lock.Some? ==> s.lock.value.token in s.owner)
            && (Next(s, Unlock(id)).lock != s.lock ==> s.lock.Some? && s.owner[s.lock.value.token] == id)
            && (s.lock.Some? && s.owner[s.lock.value.token] != id ==> Next(s, Unlock(id)).lock == s.lock)
  {
    ExecKeepsTokens(init, actions);
    assert OwnsToken(Exec(init, actions), id);
  }

  // ----- the lock, when it is not evicted under its holder

  predicate HoldsInTime(s: State, c: Client)
  {
    Holding(c) && s.now < c.deadline
  }

  /** The lock's key disappears while a call counts on it. */
  ghost predicate LosesLock(s: State, a: Action)
  {
    a.EvictLock? && exists id :: id in s.clients && HoldsInTime(s, s.clients[id])
  }

  ghost predicate KeepsLocks(init: State, actions: seq<Action>)
  {
    actions != [] ==>
      var n := |actions| - 1;
      KeepsLocks(init, actions[..n]) && !LosesLock(Exec(init, actions[..n]), actions[n])
  }

  ghost predicate OwnsLock(s: State, id: nat)
    requires id in s.clients
  {
    && OwnsToken(s, id)
    && (HoldsInTime(s, s.clients[id]) ==> s.lock == Some(Lock(s.clients[id].token, s.clients[id].deadline)))
  }

  ghost predicate LockInv(s: State)
  {
    && (s.lock.Some? ==> s.lock.value.token in s.owner)
    && forall id :: id in s.clients ==> OwnsLock(s, id)
  }

  lemma TryLockKeeps(s: State, actor: nat, token: nat, id: nat)
    requires LockInv(s) && At(s, actor, Locking) && token !in s.owner && id in s.clients
    ensures OwnsLock(LockOne(s, actor, token), id)
  {
    assert OwnsLock(s, id);
  }

  lemma UnlockKeeps(s: State, actor: nat, id: nat)
    requires LockInv(s) && actor in s.clients && s.clients[actor].phase.Unlocking? && id in s.clients
    ensures OwnsLock(UnlockOne(s, actor), id)
  {
    assert OwnsLock(s, id) && OwnsLock(s, actor);
  }

  lemma StepKeepsOwn(s: State, a: Action, id: nat)
    requires LockInv(s) && id in Next(s, a).clients && !a.TryLock? && !a.Unlock? && !LosesLock(s, a)
    ensures OwnsLock(Next(s, a), id)
  {
    if id in s.clients {
      assert OwnsLock(s, id);
    }
  }

  lemma StepKeepsLock(s: State, a: Action)
    requires LockInv(s) && !LosesLock(s, a)
    ensures LockInv(Next(s, a))
  {
    var s' := Next(s, a);
    forall id | id in s'.clients ensures OwnsLock(s', id) {
      if a.TryLock? {
        if At(s, a.id, Locking) && a.token !in s.owner {
          TryLockKeeps(s, a.id, a.token, id);
        }
      } else if a.Unlock? {
        if a.id in s.clients && s.clients[a.id].phase.Unlocking? {
          UnlockKeeps(s, a.id, id);
        }
      } else {
        StepKeepsOwn(s, a, id);
      }
    }
  }

  lemma {:induction false} ExecKeepsLock(init: State, actions: seq<Action>)
    requires Initial(init) && KeepsLocks(init, actions)
    ensures LockInv(Exec(init, actions))
  {
    if actions != [] {
      ExecKeepsLock(init, actions[..|actions| - 1]);
      StepKeepsLock(Exec(init, actions[..|actions| - 1]), actions[|actions| - 1]);
    }
  }

  /**
   With no timing assumption, as long as the lock's key is not evicted under its holder: a call within its time has its
   lock in place, and no other call's unlock takes it away.
   */
  lemma UnlockKeepsOthersLock(init: State, actions: seq<Action>, id: nat, other: nat)
    requires Initial(init) && KeepsLocks(init, actions) && id != other
    requires var s := Exec(init, actions);
             && id in s.clients && s.clients[id].phase.Unlocking?
             && other in s.clients && HoldsInTime(s, s.clients[other])
    ensures var s := Exec(init, actions);
            var c := s.clients[other];
            && s.lock == Some(Lock(c.token, c.deadline))
            && Next(s, Unlock(id)).lock == s.lock
            && Next(s, Unlock(id)).clients[other] == c
  {
    ExecKeepsLock(init, actions);
    assert OwnsLock(Exec(init, actions), id) && OwnsLock(Exec(init, actions), other);
  }

  // ----- single flight

  predicate InFlight(c: Client)
  {
    c.phase.Loading? || c.phase.Writing?
  }

  /** Every load and cache write under way is within its lock's time. */
  ghost predicate Timely(s: State)
  {
    forall id :: id in s.clients && InFlight(s.clients[id]) ==> s.now < s.clients[id].deadline
  }

  /** Loads succeed, cache writes are stored, and no call dies. */
  predicate Smooth(a: Action)
  {
    !a.Crash? && (a.LoadEnds? ==> a.loaded.Some?) && (a.Write? ==> a.stored)
  }

  ghost predicate SomeInFlight(s: State)
  {
    exists id :: id in s.clients && InFlight(s.clients[id])
  }

  ghost predicate OneInFlight(s: State)
  {
    forall a, b :: a in s.clients && b in s.clients && InFlight(s.clients[a]) && InFlight(s.clients[b]) ==> a == b
  }

  ghost function Num(b: bool): nat
  {
    if b then 1 else 0
  }

  ghost predicate FlightInv(s: State)
  {
    && OneInFlight(s)
    && s.loads == s.writes + Num(SomeInFlight(s))
    && s.evictions + Num(s.cache.Some?) == s.writes - s.overwrites + s.refreshFills
    && s.overwrites + Num(SomeInFlight(s) && s.cache.Some?) <= s.refreshFills
  }

  /** Timely, the lock keeps loads apart. */
  lemma TimelyOne(s: State)
    requires LockInv(s) && Timely(s)
    ensures OneInFlight(s)
  {
    forall a, b | a in s.clients && b in s.clients && InFlight(s.clients[a]) && InFlight(s.clients[b]) ensures a == b {
      assert OwnsLock(s, a) && OwnsLock(s, b);
    }
  }

  /** A step that takes no call into or out of flight. */
  lemma FlightUnchanged(s: State, s': State)
    requires s'.clients.Keys >= s.clients.Keys
    requires forall id :: id in s'.clients ==>
               (InFlight(s'.clients[id]) <==> id in s.clients && InFlight(s.clients[id]))
    ensures SomeInFlight(s') <==> SomeInFlight(s)
  {
    if SomeInFlight(s) {
      var id :| id in s.clients && InFlight(s.clients[id]);
      assert InFlight(s'.clients[id]);
    }
  }

  lemma RecheckKeepsFlight(s: State, id: nat)
    requires FlightInv(s) && At(s, id, Rechecking) && OneInFlight(RecheckOne(s, id))
    ensures FlightInv(RecheckOne(s, id))
  {
    var s' := RecheckOne(s, id);
    if s.cache.Some? {
      FlightUnchanged(s, s');
    } else {
      assert InFlight(s'.clients[id]);
      forall b | b in s.clients ensures !InFlight(s.clients[b]) {
        assert b in s'.clients && (b != id ==> s'.clients[b] == s.clients[b]);
      }
    }
  }

  lemma WriteKeepsFlight(s: State, id: nat)
    requires FlightInv(s) && id in s.clients && s.clients[id].phase.Writing?
    ensures FlightInv(WriteOne(s, id, true))
  {
    var s' := WriteOne(s, id, true);
    assert InFlight(s.clients[id]);
    assert !SomeInFlight(s') by {
      forall b | b in s'.clients ensures !InFlight(s'.clients[b]) {
        assert b != id ==> s'.clients[b] == s.clients[b];
      }
    }
  }

  /** The two steps that take a call into flight and out of it. */
  predicate Enters(s: State, a: Action)
  {
    a.Recheck? && At(s, a.id, Rechecking)
  }

  predicate Leaves(s: State, a: Action)
  {
    a.Write? && a.id in s.clients && s.clients[a.id].phase.Writing?
  }

  lemma FlightOf(s: State, a: Action, id: nat)
    requires Smooth(a) && id in Next(s, a).clients
    requires !Enters(s, a) && !Leaves(s, a)
    ensures InFlight(Next(s, a).clients[id]) <==> id in s.clients && InFlight(s.clients[id])
  {
  }

  lemma OtherKeepsCallsInFlight(s: State, a: Action)
    requires Smooth(a) && !Enters(s, a) && !Leaves(s, a)
    ensures SomeInFlight(Next(s, a)) <==> SomeInFlight(s)
  {
    var s' := Next(s, a);
    forall id | id in s'.clients ensures InFlight(s'.clients[id]) <==> id in s.clients && InFlight(s.clients[id]) {
      FlightOf(s, a, id);
    }
    FlightUnchanged(s, s');
  }

  lemma FlightFromCounts(s: State, s': State, evict: bool, refresh: bool)
    requires FlightInv(s) && OneInFlight(s') && (SomeInFlight(s') <==> SomeInFlight(s)) && !(evict && refresh)
    requires s'.loads == s.loads && s'.writes == s.writes && s'.overwrites == s.overwrites
    requires s'.evictions - s.evictions == Num(evict && s.cache.Some?)
    requires s'.refreshFills - s.refreshFills == Num(refresh && s.cache.None?)
    requires s'.cache.Some? == (!evict && (s.cache.Some? || refresh))
    ensures FlightInv(s')
  {
  }

  lemma OtherKeepsFlight(s: State, a: Action)
    requires FlightInv(s) && Smooth(a) && OneInFlight(Next(s, a))
    requires !Enters(s, a) && !Leaves(s, a)
    ensures FlightInv(Next(s, a))
  {
    var s' := Next(s, a);
    OtherKeepsCallsInFlight(s, a);
    OtherKeepsCounts(s, a);
    FlightFromCounts(s, s', a.Evict?, a.Refresh?);
  }

  lemma OtherKeepsCounts(s: State, a: Action)
    requires !Enters(s, a) && !Leaves(s, a)
    ensures var s' := Next(s, a);
            && s'.loads == s.loads && s'.writes == s.writes && s'.overwrites == s.overwrites
            && s'.evictions - s.evictions == Num(a.Evict? && s.cache.Some?)
            && s'.refreshFills - s.refreshFills == Num(a.Refresh? && s.cache.None?)
            && s'.cache.Some? == (!a.Evict? && (s.cache.Some? || a.Refresh?))
  {
  }

  lemma StepKeepsFlight(s: State, a: Action)
    requires LockInv(s) && FlightInv(s) && Smooth(a) && !LosesLock(s, a) && Timely(Next(s, a))
    ensures FlightInv(Next(s, a))
  {
    StepKeepsLock(s, a);
    TimelyOne(Next(s, a));
    if Enters(s, a) {
      RecheckKeepsFlight(s, a.id);
    } else if Leaves(s, a) {
      WriteKeepsFlight(s, a.id);
    } else {
      OtherKeepsFlight(s, a);
    }
  }

  /** Every state of the run is timely, every action is smooth, and no holder loses its lock to eviction. */
  ghost predicate GoodRun(init: State, actions: seq<Action>)
  {
    actions != [] ==>
      var n := |actions| - 1;
      && GoodRun(init, actions[..n]) && Smooth(actions[n]) && Timely(Exec(init, actions))
      && !LosesLock(Exec(init, actions[..n]), actions[n])
  }

  lemma {:induction false} GoodRunKeepsLocks(init: State, actions: seq<Action>)
    requires GoodRun(init, actions)
    ensures KeepsLocks(init, actions)
  {
    if actions != [] {
      GoodRunKeepsLocks(init, actions[..|actions| - 1]);
    }
  }

  lemma {:induction false} ExecKeepsFlight(init: State, actions: seq<Action>)
    requires Initial(init) && GoodRun(init, actions)
    ensures FlightInv(Exec(init, actions))
  {
    if actions != [] {
      var n := |actions| - 1;
      GoodRunKeepsLocks(init, actions[..n]);
      ExecKeepsLock(init, actions[..n]);
      ExecKeepsFlight(init, actions[..n]);
      StepKeepsFlight(Exec(init, actions[..n]), actions[n]);
    }
  }

  /**
   Single flight. With loads and writes inside the lock's time, in every interleaving of any number of calls: at most
   one load is under way, and there are at most as many loads as misses (the first one, plus one per disappeared entry).
   Without `refresh` writers it is exact: one load per miss that was answered or is being answered.
   */
  lemma OneLoadPerMiss(init: State, actions: seq<Action>)
    requires Initial(init) && GoodRun(init, actions)
    ensures var s := Exec(init, actions);
            && OneInFlight(s)
            && s.loads <= s.evictions + 1
            && (s.refreshFills == 0 ==> s.loads == s.evictions + Num(s.cache.Some? || SomeInFlight(s)))
  {
    ExecKeepsFlight(init, actions);
  }

  // ----- waiting

  /** Every call that holds the lock is within its time. */
  ghost predicate Prompt(s: State)
  {
    forall id :: id in s.clients && Holding(s.clients[id]) ==> s.now < s.clients[id].deadline
  }

  /** A holder of the lock, or of what it protects, whose time ends by `latest`. */
  ghost predicate HolderBy(s: State, latest: int)
  {
    exists id :: id in s.clients && Holding(s.clients[id]) && s.clients[id].deadline <= latest
  }

  /** What a waiting call can count on. */
  ghost predicate WaitsWell(s: State, c: Client)
  {
    match c.phase
    case TimedOut => false
    case Waiting(since, polls, wakeAt) =>
      && polls < WAIT_POLLS && since <= s.now && wakeAt >= since + WAIT_POLL_MS * (polls + 1)
      && Covered(s, since + LOCK_TTL_MS)
    case _ => true
  }

  ghost predicate Covered(s: State, latest: int)
  {
    s.cache.Some? || HolderBy(s, latest)
  }

  ghost predicate WaitInv(s: State)
  {
    && (s.lock.Some? && s.now < s.lock.value.expiresAt ==> Covered(s, s.lock.value.expiresAt))
    && (s.lock.Some? ==> s.lock.value.expiresAt <= s.now + LOCK_TTL_MS)
    && forall id :: id in s.clients ==> WaitsWell(s, s.clients[id])
  }

  /** Nothing fails: a holder leaves only once the entry is there. */
  predicate Fulfils(a: Action)
  {
    Smooth(a) && !a.RecheckFails?
  }

  /** Whoever waits, or could start to wait for the lock as it is, has a holder to write the entry. */
  ghost predicate Unneeded(s: State)
  {
    && (s.lock.Some? && s.now < s.lock.value.expiresAt ==> HolderBy(s, s.lock.value.expiresAt))
    && forall id :: id in s.clients && s.clients[id].phase.Waiting? ==>
         HolderBy(s, s.clients[id].phase.since + LOCK_TTL_MS)
  }

  lemma EvictKeepsWait(s: State)
    requires WaitInv(s) && Unneeded(s)
    ensures WaitInv(Next(s, Evict))
  {
    var s' := Next(s, Evict);
    forall latest | HolderBy(s, latest) ensures HolderBy(s', latest) {
      var id :| id in s.clients && Holding(s.clients[id]) && s.clients[id].deadline <= latest;
      assert Holding(s'.clients[id]);
    }
    forall id | id in s'.clients ensures WaitsWell(s', s'.clients[id]) {
      assert WaitsWell(s, s.clients[id]);
    }
  }

  /** A holder only leaves once the entry is there. */
  lemma HolderStays(s: State, a: Action, latest: int)
    requires Fulfils(a) && !a.Evict? && HolderBy(s, latest)
    ensures Next(s, a).cache.Some? || HolderBy(Next(s, a), latest)
  {
    var id :| id in s.clients && Holding(s.clients[id]) && s.clients[id].deadline <= latest;
    var s' := Next(s, a);
    assert id in s'.clients;
    if s'.cache.None? {
      assert Holding(s'.clients[id]) && s'.clients[id].deadline <= latest;
    }
  }

  lemma CacheStays(s: State, a: Action)
    requires !a.Evict? && s.cache.Some?
    ensures Next(s, a).cache.Some?
  {
  }

  lemma CoveredStays(s: State, a: Action, latest: int)
    requires Fulfils(a) && !a.Evict? && Covered(s, latest)
    ensures Covered(Next(s, a), latest)
  {
    if s.cache.Some? {
      CacheStays(s, a);
    } else {
      HolderStays(s, a, latest);
    }
  }

  lemma CoveredLater(s: State, earlier: int, later: int)
    requires Covered(s, earlier) && earlier <= later
    ensures Covered(s, later)
  {
    if s.cache.None? {
      var id :| id in s.clients && Holding(s.clients[id]) && s.clients[id].deadline <= earlier;
      assert s.clients[id].deadline <= later;
    }
  }

  /** A poll before the holder's time is up is not the last one. */
  lemma PollIsNotLast(s: State, id: nat)
    requires WaitInv(s) && Prompt(s) && id in s.clients && s.clients[id].phase.Waiting?
    requires s.now >= s.clients[id].phase.wakeAt && s.cache.None?
    ensures s.clients[id].phase.polls + 1 < WAIT_POLLS
  {
    assert WaitsWell(s, s.clients[id]);
    var Waiting(since, polls, wakeAt) := s.clients[id].phase;
    var h :| h in s.clients && Holding(s.clients[h]) && s.clients[h].deadline <= since + LOCK_TTL_MS;
    assert WAIT_POLL_MS * (polls + 1) < LOCK_TTL_MS;
  }

  lemma TryLockWaitsWell(s: State, actor: nat, token: nat)
    requires WaitInv(s) && At(s, actor, Locking) && token !in s.owner
    ensures WaitsWell(LockOne(s, actor, token), LockOne(s, actor, token).clients[actor])
  {
    var s' := LockOne(s, actor, token);
    assert s' == Next(s, TryLock(actor, token));
    if !Free(s) {
      CoveredStays(s, TryLock(actor, token), s.lock.value.expiresAt);
      CoveredLater(s', s.lock.value.expiresAt, s.now + LOCK_TTL_MS);
    }
  }

  lemma PollWaitsWell(s: State, actor: nat)
    requires WaitInv(s) && Prompt(s) && actor in s.clients && s.clients[actor].phase.Waiting?
    ensures WaitsWell(PollOne(s, actor), PollOne(s, actor).clients[actor])
  {
    var s' := PollOne(s, actor);
    assert s' == Next(s, Poll(actor));
    assert WaitsWell(s, s.clients[actor]);
    CoveredStays(s, Poll(actor), s.clients[actor].phase.since + LOCK_TTL_MS);
    if s.now >= s.clients[actor].phase.wakeAt && s.cache.None? {
      PollIsNotLast(s, actor);
    }
  }

  lemma OthersWaitWell(s: State, a: Action, id: nat)
    requires WaitInv(s) && Fulfils(a) && !a.Evict? && id in Next(s, a).clients
    requires !(a.TryLock? && At(s, a.id, Locking) && a.token !in s.owner && id == a.id)
    requires !(a.Poll? && a.id in s.clients && s.clients[a.id].phase.Waiting? && id == a.id)
    ensures WaitsWell(Next(s, a), Next(s, a).clients[id])
  {
    if id in s.clients {
      assert WaitsWell(s, s.clients[id]);
      if s.clients[id].phase.Waiting? {
        CoveredStays(s, a, s.clients[id].phase.since + LOCK_TTL_MS);
      }
    }
  }

  lemma LockStaysCovered(s: State, a: Action)
    requires WaitInv(s) && Fulfils(a) && !a.Evict?
    ensures var s' := Next(s, a);
            && (s'.lock.Some? && s'.now < s'.lock.value.expiresAt ==> Covered(s', s'.lock.value.expiresAt))
            && (s'.lock.Some? ==> s'.lock.value.expiresAt <= s'.now + LOCK_TTL_MS)
  {
    var s' := Next(s, a);
    if a.TryLock? && At(s, a.id, Locking) && a.token !in s.owner && Free(s) {
      assert Holding(s'.clients[a.id]) && s'.clients[a.id].deadline <= s'.lock.value.expiresAt;
    } else if s'.lock.Some? && s'.now < s'.lock.value.expiresAt {
      CoveredStays(s, a, s.lock.value.expiresAt);
    }
  }

  lemma StepKeepsWait(s: State, a: Action)
    requires WaitInv(s) && Prompt(s) && Fulfils(a) && (a.Evict? ==> Unneeded(s))
    ensures WaitInv(Next(s, a))
  {
    if a.Evict? {
      EvictKeepsWait(s);
    } else {
      OtherStepKeepsWait(s, a);
    }
  }

  lemma OtherStepKeepsWait(s: State, a: Action)
    requires WaitInv(s) && Prompt(s) && Fulfils(a) && !a.Evict?
    ensures WaitInv(Next(s, a))
  {
    var s' := Next(s, a);
    LockStaysCovered(s, a);
    forall id | id in s'.clients ensures WaitsWell(s', s'.clients[id]) {
      if a.TryLock? && At(s, a.id, Locking) && a.token !in s.owner && id == a.id {
        TryLockWaitsWell(s, id, a.token);
      } else if a.Poll? && a.id in s.clients && s.clients[a.id].phase.Waiting? && id == a.id {
        PollWaitsWell(s, id);
      } else {
        OthersWaitWell(s, a, id);
      }
    }
  }

  /** Holders finish in time and nothing fails. */
  ghost predicate PromptRun(init: State, actions: seq<Action>)
  {
    && Prompt(Exec(init, actions))
    && (actions != [] ==> var n := |actions| - 1; PromptRun(init, actions[..n]) && Fulfils(actions[n]))
  }

  /** The entry only expires or is evicted when nobody relies on it. */
  ghost predicate KeepsEntry(init: State, actions: seq<Action>)
  {
    actions != [] ==>
      var n := |actions| - 1;
      KeepsEntry(init, actions[..n]) && (actions[n].Evict? ==> Unneeded(Exec(init, actions[..n])))
  }

  lemma {:induction false} ExecKeepsWait(init: State, actions: seq<Action>)
    requires Initial(init) && PromptRun(init, actions) && KeepsEntry(init, actions)
    ensures WaitInv(Exec(init, actions))
  {
    if actions != [] {
      var n := |actions| - 1;
      ExecKeepsWait(init, actions[..n]);
      StepKeepsWait(Exec(init, actions[..n]), actions[n]);
    }
  }

  /**
   The poll budget covers the lock: if lock holders finish in time, nothing fails, and the entry never disappears while
   somebody relies on it, no waiting call ever gives up. Any number of misses, one after another, are covered.
   */
  lemma WaitersAreServed(init: State, actions: seq<Action>, id: nat)
    requires Initial(init) && PromptRun(init, actions) && KeepsEntry(init, actions) && id in Exec(init, actions).clients
    ensures !Exec(init, actions).clients[id].phase.TimedOut?
  {
    ExecKeepsWait(init, actions);
    assert WaitsWell(Exec(init, actions), Exec(init, actions).clients[id]);
  }

  // An entry that disappears during a wait: call 1 writes it, and it is evicted before call 2 polls.

  const CARD: Card := None
  const NOBODY := State(0, None, None, map[], map[], 0, 0, 0, 0, 0)

  /** Call 1 took the lock at time 0 and is at `one`; call 2 is at `two`. */
  function Scene(one: Phase, two: Phase): State
  {
    State(0, None, Some(Lock(11, LOCK_TTL_MS)), map[11 := 1],
          map[1 := Client(11, LOCK_TTL_MS, one), 2 := Client(0, 0, two)], 0, 0, 0, 0, 0)
  }

  /** Call 2 has found the lock taken; these entries were written, and evicted. */
  function Waits(one: Phase, two: Phase, cache: Option<Card>, loads: nat, writes: nat, evictions: nat): State
  {
    Scene(one, two).(cache := cache, owner := map[11 := 1, 22 := 2], loads := loads, writes := writes,
                     evictions := evictions)
  }

  lemma ExecSnoc(s: State, actions: seq<Action>, a: Action)
    ensures Exec(s, actions + [a]) == Next(Exec(s, actions), a)
  {
    assert (actions + [a])[..|actions|] == actions;
  }

  /** A run of prompt holders in which nothing fails, from nobody to `s`. */
  ghost predicate Leads(actions: seq<Action>, s: State)
  {
    PromptRun(NOBODY, actions) && Exec(NOBODY, actions) == s
  }

  lemma LeadsOn(actions: seq<Action>, s: State, a: Action, s': State)
    requires Leads(actions, s) && Fulfils(a) && Next(s, a) == s' && Prompt(s')
    ensures Leads(actions + [a], s')
  {
    ExecSnoc(NOBODY, actions, a);
    assert (actions + [a])[..|actions|] == actions;
  }

  lemma FirstTakesLock()
    ensures var s1 := NOBODY.(clients := map[1 := Client(0, 0, Reading)]);
            var s2 := NOBODY.(clients := map[1 := Client(0, 0, Locking)]);
            var s3 := NOBODY.(lock := Some(Lock(11, LOCK_TTL_MS)), owner := map[11 := 1],
                              clients := map[1 := Client(11, LOCK_TTL_MS, Rechecking)]);
            && Next(NOBODY, Arrive(1)) == s1 && Next(s1, Read(1)) == s2 && Next(s2, TryLock(1, 11)) == s3
            && Prompt(s1) && Prompt(s2) && Prompt(s3)
            && Next(s3, Arrive(2)) == Scene(Rechecking, Reading) && Prompt(Scene(Rechecking, Reading))
  {
  }

  lemma SecondReads()
    ensures Next(Scene(Rechecking, Reading), Read(2)) == Scene(Rechecking, Locking)
    ensures Prompt(Scene(Rechecking, Locking))
  {
    assert Next(Scene(Rechecking, Reading), Read(2)).clients == Scene(Rechecking, Locking).clients;
  }

  lemma SecondWaits()
    ensures Next(Scene(Rechecking, Locking), TryLock(2, 22)) == Waits(Rechecking, Waiting(0, 0, 20), None, 0, 0, 0)
    ensures Prompt(Waits(Rechecking, Waiting(0, 0, 20), None, 0, 0, 0))
  {
    var s := Next(Scene(Rechecking, Locking), TryLock(2, 22));
    assert s.clients == Waits(Rechecking, Waiting(0, 0, 20), None, 0, 0, 0).clients;
    assert s.owner == map[11 := 1, 22 := 2];
  }

  lemma FirstRechecks(two: Phase)
    ensures Next(Waits(Rechecking, two, None, 0, 0, 0), Recheck(1)) == Waits(Loading, two, None, 1, 0, 0)
  {
    assert Next(Waits(Rechecking, two, None, 0, 0, 0), Recheck(1)).clients
        == Waits(Loading, two, None, 1, 0, 0).clients;
  }

  lemma FirstLoads(two: Phase)
    ensures Next(Waits(Loading, two, None, 1, 0, 0), LoadEnds(1, Some(CARD)))
            == Waits(Writing(CARD), two, None, 1, 0, 0)
  {
    assert Next(Waits(Loading, two, None, 1, 0, 0), LoadEnds(1, Some(CARD))).clients
        == Waits(Writing(CARD), two, None, 1, 0, 0).clients;
  }

  lemma FirstWrites(two: Phase)
    ensures Next(Waits(Writing(CARD), two, None, 1, 0, 0), Write(1, true))
            == Waits(Unlocking(Some(CARD)), two, Some(CARD), 1, 1, 0)
    ensures Next(Waits(Unlocking(Some(CARD)), two, Some(CARD), 1, 1, 0), Evict)
            == Waits(Unlocking(Some(CARD)), two, None, 1, 1, 1)
  {
    assert Next(Waits(Writing(CARD), two, None, 1, 0, 0), Write(1, true)).clients
        == Waits(Unlocking(Some(CARD)), two, Some(CARD), 1, 1, 0).clients;
  }

  lemma ScenesArePrompt(one: Phase, cache: Option<Card>, loads: nat, writes: nat, evictions: nat)
    ensures Prompt(Waits(one, Waiting(0, 0, 20), cache, loads, writes, evictions))
  {
  }

  lemma LeadsToWait() returns (run: seq<Action>)
    ensures Leads(run, Waits(Rechecking, Waiting(0, 0, 20), None, 0, 0, 0))
  {
    FirstTakesLock();
    SecondReads();
    SecondWaits();
    var s1 := NOBODY.(clients := map[1 := Client(0, 0, Reading)]);
    var s2 := NOBODY.(clients := map[1 := Client(0, 0, Locking)]);
    var s3 := NOBODY.(lock := Some(Lock(11, LOCK_TTL_MS)), owner := map[11 := 1],
                      clients := map[1 := Client(11, LOCK_TTL_MS, Rechecking)]);
    run := [];
    LeadsOn(run, NOBODY, Arrive(1), s1);
    run := run + [Arrive(1)];
    LeadsOn(run, s1, Read(1), s2);
    run := run + [Read(1)];
    LeadsOn(run, s2, TryLock(1, 11), s3);
    run := run + [TryLock(1, 11)];
    LeadsOn(run, s3, Arrive(2), Scene(Rechecking, Reading));
    run := run + [Arrive(2)];
    LeadsOn(run, Scene(Rechecking, Reading), Read(2), Scene(Rechecking, Locking));
    run := run + [Read(2)];
    LeadsOn(run, Scene(Rechecking, Locking), TryLock(2, 22), Waits(Rechecking, Waiting(0, 0, 20), None, 0, 0, 0));
    run := run + [TryLock(2, 22)];
  }

  lemma LeadsToEviction() returns (run: seq<Action>)
    ensures Leads(run, StarvedAfter(0))
  {
    run := LeadsToWait();
    var two := Waiting(0, 0, 20);
    FirstRechecks(two);
    FirstLoads(two);
    FirstWrites(two);
    ScenesArePrompt(Loading, None, 1, 0, 0);
    ScenesArePrompt(Writing(CARD), None, 1, 0, 0);
    ScenesArePrompt(Unlocking(Some(CARD)), Some(CARD), 1, 1, 0);
    ScenesArePrompt(Unlocking(Some(CARD)), None, 1, 1, 1);
    LeadsOn(run, Waits(Rechecking, two, None, 0, 0, 0), Recheck(1), Waits(Loading, two, None, 1, 0, 0));
    run := run + [Recheck(1)];
    LeadsOn(run, Waits(Loading, two, None, 1, 0, 0), LoadEnds(1, Some(CARD)), Waits(Writing(CARD), two, None, 1, 0, 0));
    run := run + [LoadEnds(1, Some(CARD))];
    LeadsOn(run, Waits(Writing(CARD), two, None, 1, 0, 0), Write(1, true),
            Waits(Unlocking(Some(CARD)), two, Some(CARD), 1, 1, 0));
    run := run + [Write(1, true)];
    LeadsOn(run, Waits(Unlocking(Some(CARD)), two, Some(CARD), 1, 1, 0), Evict, StarvedAfter(0));
    run := run + [Evict];
  }

  /** After `k` polls that find nothing. */
  function StarvedAfter(k: nat): State
  {
    var two := if k < WAIT_POLLS then Waiting(0, k, WAIT_POLL_MS * (k + 1)) else TimedOut;
    Waits(Unlocking(Some(CARD)), two, None, 1, 1, 1).(now := WAIT_POLL_MS * k)
  }

  lemma OneMorePoll(k: nat)
    requires 0 < k <= WAIT_POLLS
    ensures var ticked := StarvedAfter(k - 1).(now := WAIT_POLL_MS * k);
            && Next(StarvedAfter(k - 1), Tick(WAIT_POLL_MS)) == ticked && Prompt(ticked)
            && Next(ticked, Poll(2)) == StarvedAfter(k) && Prompt(StarvedAfter(k))
  {
    var ticked := StarvedAfter(k - 1).(now := WAIT_POLL_MS * k);
    assert Next(ticked, Poll(2)).clients == StarvedAfter(k).clients;
  }

  lemma {:induction false} PollsRunOut(run: seq<Action>, k: nat) returns (longer: seq<Action>)
    requires Leads(run, StarvedAfter(0)) && k <= WAIT_POLLS
    ensures Leads(longer, StarvedAfter(k))
  {
    longer := run;
    if k > 0 {
      longer := PollsRunOut(run, k - 1);
      OneMorePoll(k);
      var ticked := StarvedAfter(k - 1).(now := WAIT_POLL_MS * k);
      LeadsOn(longer, StarvedAfter(k - 1), Tick(WAIT_POLL_MS), ticked);
      longer := longer + [Tick(WAIT_POLL_MS)];
      LeadsOn(longer, ticked, Poll(2), StarvedAfter(k));
      longer := longer + [Poll(2)];
    }
  }

  /** One eviction while a call relies on the entry: the call gives up, though holders are prompt and nothing fails. */
  lemma EvictionStarves() returns (actions: seq<Action>)
    ensures Initial(NOBODY) && PromptRun(NOBODY, actions) && !KeepsEntry(NOBODY, actions)
    ensures 2 in Exec(NOBODY, actions).clients && Exec(NOBODY, actions).clients[2].phase.TimedOut?
  {
    var run := LeadsToEviction();
    actions := PollsRunOut(run, WAIT_POLLS);
    if KeepsEntry(NOBODY, actions) {
      WaitersAreServed(NOBODY, actions, 2);
    }
  }
}
