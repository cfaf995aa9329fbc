/** `getCard` as the sequence of commands it is, on the mutable keys of one product. */
module CardCache {
  import opened Prelude
  import opened ProductCard

  datatype CallError = LoadFailed | WaitTimedOut | CommandFailed

  /** The command of one call that fails, if any; it may have taken effect all the same. */
  datatype Fault =
    | NoFault
    | FirstRead
    | SetFails(taken: bool)
    | Recheck
    | PollFails(attempt: nat)
    | UnlockFails(done: bool)

  /** What other calls do while this one waits for the repository: an entry stored, the lock taken if it has expired. */
  datatype Others = Others(stored: Option<Card>, token: Option<nat>)

  /** What `k` polls without an entry and then one with it, one that fails, or all polls without an entry come to. */
  ghost predicate Polled(polls: seq<Option<Card>>, fault: Fault, r: Result<Card, CallError>, waitedMs: int)
  {
    match r
    case Ok(card) =>
      exists k :: 0 <= k < |polls| && polls[k] == Some(card) && waitedMs == WAIT_POLL_MS * (k + 1)
                  && fault != PollFails(k) && forall i :: 0 <= i < k ==> polls[i].None? && fault != PollFails(i)
    case Err(CommandFailed) =>
      && fault.PollFails? && fault.attempt < |polls| && waitedMs == WAIT_POLL_MS * (fault.attempt + 1)
      && forall i :: 0 <= i < fault.attempt ==> polls[i].None?
    case Err(LoadFailed) => false
    case Err(WaitTimedOut) =>
      && waitedMs == WAIT_POLL_MS * |polls|
      && forall i :: 0 <= i < |polls| ==> polls[i].None? && fault != PollFails(i)
  }

  /** The lock after another call tried to take it. */
  function Taken(lock: Option<Lock>, now: int, token: Option<nat>): Option<Lock>
  {
    if token.Some? && (lock.None? || now >= lock.value.expiresAt) then Some(Lock(token.value, now + LOCK_TTL_MS))
    else lock
  }

  class Redis {
    var now: int
    var cache: Option<Card>
    var lock: Option<Lock>
    var loads: nat

    predicate Held()
      reads this
    {
      lock.Some? && now < lock.value.expiresAt
    }

    constructor ()
      ensures now == 0 && cache == None && lock == None && loads == 0
    {
      now, cache, lock, loads := 0, None, None, 0;
    }

    /** SET key token PX LOCK_TTL_MS NX */
    method SetNx(token: nat) returns (acquired: bool)
      modifies this`lock
      ensures acquired <==> !old(Held())
      ensures lock == if acquired then Some(Lock(token, now + LOCK_TTL_MS)) else old(lock)
    {
      acquired := !Held();
      if acquired {
        lock := Some(Lock(token, now + LOCK_TTL_MS));
      }
    }

    /** The unlock script: an expired key is gone, and another call's token is left alone. */
    method Unlock(token: nat)
      modifies this`lock
      ensures lock == if old(Held()) && old(lock).value.token == token then None else old(lock)
    {
      if Held() && lock.value.token == token {
        lock := None;
      }
    }

    /** A failed write is swallowed. */
    method WriteCache(card: Card, stored: bool)
      modifies this`cache
      ensures cache == if stored then Some(card) else old(cache)
    {
      if stored {
        cache := Some(card);
      }
    }

    /** `polls` is what each poll finds: the entry as other calls have left it by then. */
    method WaitForCard(polls: seq<Option<Card>>, fault: Fault) returns (r: Result<Card, CallError>)
      requires |polls| == WAIT_POLLS
      modifies this`now
      ensures Polled(polls, fault, r, now - old(now))
    {
      for attempt := 0 to WAIT_POLLS
        invariant now == old(now) + WAIT_POLL_MS * attempt
        invariant forall i :: 0 <= i < attempt ==> polls[i].None? && fault != PollFails(i)
      {
        now := now + WAIT_POLL_MS;
        if fault == PollFails(attempt) {
          return Err(CommandFailed);
        }
        if polls[attempt].Some? {
          return Ok(polls[attempt].value);
        }
      }
      r := Err(WaitTimedOut);
    }

    /** The part under the lock: read again, load, write. Any of it may throw. */
    method LoadCard(loaded: Option<Card>, loadMs: nat, stored: bool, others: Others, fault: Fault)
      returns (r: Result<Card, CallError>)
      modifies this
      ensures fault.Recheck? || old(cache).Some? ==>
                cache == old(cache) && lock == old(lock) && loads == old(loads) && now == old(now)
                && r == if fault.Recheck? then Err(CommandFailed) else Ok(old(cache).value)
      ensures !fault.Recheck? && old(cache).None? ==>
                && loads == old(loads) + 1 && now == old(now) + loadMs
                && r == (if loaded.Some? then Ok(loaded.value) else Err(LoadFailed))
                && cache == (if stored && loaded.Some? then loaded else others.stored)
                && lock == Taken(old(lock), now, others.token)
    {
      if fault.Recheck? {
        return Err(CommandFailed);
      }
      if cache.Some? {
        return Ok(cache.value);
      }
      loads, now := loads + 1, now + loadMs;
      cache := others.stored;
      if others.token.Some? {
        var _ := SetNx(others.token.value);
      }
      if loaded.None? {
        return Err(LoadFailed);
      }
      WriteCache(loaded.value, stored);
      r := Ok(loaded.value);
    }

    /**
     One call, on every path: each of its commands may fail, the repository may throw, and other calls may store the
     entry (`meanwhile`, while this one takes the lock; `others`, during the load) or take the lock when it has expired.
     The repository is asked only with the lock and without an entry. At the end this call does not hold the lock,
     unless the reply to its SET was lost or its unlock was not run; and no other call's lock has been removed.
     */
    method GetCard(token: nat, meanwhile: Option<Card>, loaded: Option<Card>, loadMs: nat, stored: bool, others: Others,
                   polls: seq<Option<Card>>, fault: Fault)
      returns (r: Result<Card, CallError>)
      requires |polls| == WAIT_POLLS && others.token != Some(token)
      requires Held() ==> lock.value.token != token
      modifies this
      ensures Held() && lock.value.token == token ==> fault == SetFails(true) || fault == UnlockFails(false)
      ensures old(Held()) ==> lock == old(lock)
      ensures fault.FirstRead? ==>
                r == Err(CommandFailed) && cache == old(cache) && lock == old(lock) && loads == old(loads)
      ensures !fault.FirstRead? && old(cache).Some? ==>
                r == Ok(old(cache).value) && cache == old(cache) && lock == old(lock) && loads == old(loads)
      ensures old(cache).None? && fault.SetFails? ==>
                && r == Err(CommandFailed) && cache == None && loads == old(loads)
                && lock == Taken(old(lock), old(now), if fault.taken then Some(token) else None)
      ensures old(cache).None? && old(Held()) && !fault.FirstRead? && !fault.SetFails? ==>
                Polled(polls, fault, r, now - old(now)) && cache == None && lock == old(lock) && loads == old(loads)
      ensures old(cache).None? && !old(Held()) && !fault.FirstRead? && !fault.SetFails? ==>
                && r == (if fault.Recheck? || fault.UnlockFails? then Err(CommandFailed)
                         else if meanwhile.Some? then Ok(meanwhile.value)
                         else if loaded.Some? then Ok(loaded.value) else Err(LoadFailed))
                && cache == (if fault.Recheck? || meanwhile.Some? then meanwhile
                             else if stored && loaded.Some? then loaded else others.stored)
                && loads == old(loads) + (if fault.Recheck? || meanwhile.Some? then 0 else 1)
                && (loads > old(loads) && loadMs >= LOCK_TTL_MS && others.token.Some? ==>
                      lock == Some(Lock(others.token.value, now + LOCK_TTL_MS)))
    {
      if fault.FirstRead? {
        return Err(CommandFailed);
      }
      if cache.Some? {
        return Ok(cache.value);
      }
      if fault.SetFails? {
        if fault.taken {
          var _ := SetNx(token);
        }
        return Err(CommandFailed);
      }
      var acquired := SetNx(token);
      if acquired {
        if meanwhile.Some? {
          cache := meanwhile;
        }
        r := LoadCard(loaded, loadMs, stored, others, fault);
        if fault.UnlockFails? {
          if fault.done {
            Unlock(token);
          }
          return Err(CommandFailed);
        }
        Unlock(token);
        return;
      }
      r := WaitForCard(polls, fault);
    }

    /** Rebuilds the entry, whatever is cached. */
    method Refresh(loaded: Card, stored: bool)
      modifies this`cache
      ensures cache == if stored then Some(loaded) else old(cache)
    {
      WriteCache(loaded, stored);
    }
  }
}
