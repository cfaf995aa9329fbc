/**
 The sliding-window limiter: one atomic script over a sorted set per bucket, called by pods that each bring their own
 clock. Scores and windows are in milliseconds. Members are distinct (here: the index of the call), and a bucket has
 one policy. The key's expiry runs on the server's clock.
 */
module Limiter {
  import opened Finite

  /** A sorted set, as scores by member, and the server time at which its key expires. */
  datatype Bucket = Bucket(zset: map<nat, int>, expireAt: int)

  datatype Reply = Allowed | Denied(retryAfter: int)

  /** The set the script finds: none once the key has expired. */
  function Live(b: Bucket, server: int): map<nat, int>
  {
    if server >= b.expireAt then map[] else b.zset
  }

  /** ZREMRANGEBYSCORE key -inf floor */
  function Evicted(zset: map<nat, int>, floor: int): map<nat, int>
  {
    map m | m in zset && zset[m] > floor :: zset[m]
  }

  ghost predicate IsOldest(zset: map<nat, int>, m: nat)
  {
    m in zset && forall k :: k in zset ==> zset[m] <= zset[k]
  }

  lemma {:induction false} OldestExists(zset: map<nat, int>) returns (m: nat)
    requires zset != map[]
    ensures IsOldest(zset, m)
    decreases |zset|
  {
    m :| m in zset;
    var rest := zset - {m};
    assert rest.Keys == zset.Keys - {m};
    assert |rest.Keys| < |zset.Keys|;
    if rest != map[] {
      var k := OldestExists(rest);
      assert forall x :: x in zset ==> x == m || x in rest;
      if zset[k] < zset[m] {
        m := k;
      }
    }
  }

  /** The score at rank 0. */
  ghost function Oldest(zset: map<nat, int>): int
    requires zset != map[]
  {
    var k := OldestMember(zset);
    zset[k]
  }

  ghost function OldestMember(zset: map<nat, int>): (m: nat)
    requires zset != map[]
    ensures IsOldest(zset, m)
  {
    assert exists m :: IsOldest(zset, m) by {
      var m := OldestExists(zset);
    }
    var m :| IsOldest(zset, m);
    m
  }

  function CeilSeconds(ms: int): int
    requires ms > 0
  {
    (ms + 999) / 1000
  }

  /** The Retry-After part of the script, clamps included. */
  ghost function RetryAfter(zset: map<nat, int>, now: int, windowMs: int): int
  {
    var raw := if zset == map[] then 1
               else
                 var waitMs := Oldest(zset) + windowMs - now;
                 if waitMs > 0 then CeilSeconds(waitMs) else 1;
    if raw < 1 then 1 else raw
  }

  datatype Outcome = Outcome(bucket: Bucket, reply: Reply)

  ghost function Script(b: Bucket, server: int, now: int, windowMs: int, limit: int, member: nat): Outcome
  {
    var kept := Evicted(Live(b, server), now - windowMs);
    if |kept| < limit then Outcome(Bucket(kept[member := now], server + windowMs), Allowed)
    else Outcome(Bucket(kept, b.expireAt), Denied(RetryAfter(kept, now, windowMs)))
  }

  // ----- the script, command by command

  class Key {
    var zset: map<nat, int>
    var expireAt: int

    ghost function View(): Bucket
      reads this
    {
      Bucket(zset, expireAt)
    }

    constructor ()
      ensures View() == Bucket(map[], 0)
    {
      zset, expireAt := map[], 0;
    }

    /** ZRANGE key 0 0 WITHSCORES */
    method FirstScore() returns (found: bool, score: int)
      ensures found <==> zset != map[]
      ensures found ==> score == Oldest(zset)
    {
      found, score := zset != map[], 0;
      if found {
        var rest := zset.Keys;
        ghost var at :| at in zset;
        var first :| first in rest;
        score, at := zset[first], first;
        rest := rest - {first};
        while rest != {}
          invariant rest <= zset.Keys && at in zset && zset[at] == score
          invariant forall k :: k in zset && k !in rest ==> score <= zset[k]
          decreases |rest|
        {
          var k :| k in rest;
          if zset[k] < score {
            score, at := zset[k], k;
          }
          rest := rest - {k};
        }
        assert IsOldest(zset, at) && IsOldest(zset, OldestMember(zset));
      }
    }

    method Consume(server: int, now: int, windowMs: int, limit: int, member: nat) returns (reply: Reply)
      modifies this
      ensures Outcome(View(), reply) == Script(old(View()), server, now, windowMs, limit, member)
    {
      if server >= expireAt {
        zset := map[];
      }
      zset := map m | m in zset && zset[m] > now - windowMs :: zset[m];
      var count := |zset|;
      if count < limit {
        zset := zset[member := now];
        expireAt := server + windowMs;
        return Allowed;
      }
      var found, oldest := FirstScore();
      var retryAfter := 1;
      if found {
        var waitMs := oldest + windowMs - now;
        if waitMs > 0 {
          retryAfter := (waitMs + 999) / 1000;
        }
      }
      if retryAfter < 1 {
        retryAfter := 1;
      }
      return Denied(if retryAfter > 1 then retryAfter else 1);
    }
  }

  // ----- calls of any number of pods, in the order the server runs them

  /** `now` is the calling pod's clock, `server` the server's. */
  datatype Call = Call(now: int, server: int)

  ghost function After(calls: seq<Call>, windowMs: int, limit: int): Bucket
  {
    if calls == [] then Bucket(map[], 0)
    else
      var n := |calls| - 1;
      Script(After(calls[..n], windowMs, limit), calls[n].server, calls[n].now, windowMs, limit, n).bucket
  }

  /** The set call `i` counts. */
  ghost function Counted(calls: seq<Call>, windowMs: int, limit: int, i: nat): map<nat, int>
    requires i < |calls|
  {
    Evicted(Live(After(calls[..i], windowMs, limit), calls[i].server), calls[i].now - windowMs)
  }

  ghost predicate Admitted(calls: seq<Call>, windowMs: int, limit: int, i: nat)
    requires i < |calls|
  {
    |Counted(calls, windowMs, limit, i)| < limit
  }

  lemma AfterUnfolds(calls: seq<Call>, windowMs: int, limit: int, i: nat)
    requires i < |calls|
    ensures var before, kept := After(calls[..i], windowMs, limit), Counted(calls, windowMs, limit, i);
            After(calls[..i + 1], windowMs, limit)
            == if Admitted(calls, windowMs, limit, i) then Bucket(kept[i := calls[i].now], calls[i].server + windowMs)
               else Bucket(kept, before.expireAt)
  {
    assert calls[..i + 1][..i] == calls[..i];
  }

  /** Members are earlier admitted calls, with the clock they brought as score. */
  lemma {:induction false} MembersAreAdmissions(calls: seq<Call>, windowMs: int, limit: int, n: nat, i: nat)
    requires n <= |calls| && i in After(calls[..n], windowMs, limit).zset
    ensures i < n && Admitted(calls, windowMs, limit, i) && After(calls[..n], windowMs, limit).zset[i] == calls[i].now
  {
    if n > 0 {
      AfterUnfolds(calls, windowMs, limit, n - 1);
      if i != n - 1 || !Admitted(calls, windowMs, limit, n - 1) {
        MembersAreAdmissions(calls, windowMs, limit, n - 1, i);
      }
    }
  }

  /** The server's clock does not go back, and the pods' clocks do so by at most `d`. */
  ghost predicate Back(calls: seq<Call>, d: int)
  {
    forall i, j :: 0 <= i <= j < |calls| ==>
      calls[i].server <= calls[j].server && calls[j].now >= calls[i].now - d
  }

  /** While the server's clock passes a whole window, the pods' clocks pass at least the window less `d`. */
  ghost predicate Spans(calls: seq<Call>, windowMs: int, d: int)
  {
    forall i, j :: 0 <= i <= j < |calls| && calls[j].server - calls[i].server >= windowMs ==>
      calls[j].now - calls[i].now >= windowMs - d
  }

  /** A stronger, simpler condition: between any two calls the pods' clocks advance as the server's does, less `d`. */
  ghost predicate Disorder(calls: seq<Call>, d: int)
  {
    forall i, j :: 0 <= i <= j < |calls| ==>
      calls[i].server <= calls[j].server && calls[j].now - calls[i].now >= calls[j].server - calls[i].server - d
  }

  lemma DisorderIsSteady(calls: seq<Call>, windowMs: int, d: int)
    requires Disorder(calls, d)
    ensures Back(calls, d) && Spans(calls, windowMs, d)
  {
  }

  /** Clocks at most `lo` behind and `hi` ahead of the server's. */
  lemma SkewIsDisorder(calls: seq<Call>, windowMs: int, lo: int, hi: int)
    requires lo >= 0 && hi >= 0
    requires forall i, j :: 0 <= i <= j < |calls| ==> calls[i].server <= calls[j].server
    requires forall i :: 0 <= i < |calls| ==> calls[i].server - lo <= calls[i].now <= calls[i].server + hi
    ensures Disorder(calls, lo + hi) && Back(calls, lo + hi) && Spans(calls, windowMs, lo + hi)
  {
    DisorderIsSteady(calls, windowMs, lo + hi);
  }

  /** A call that finds a member alive and inside its window leaves it in. */
  lemma CallKeeps(b: Bucket, call: Call, windowMs: int, limit: int, member: nat, i: nat)
    requires i in b.zset && i != member && b.zset[i] > call.now - windowMs && call.server < b.expireAt
    ensures var b' := Script(b, call.server, call.now, windowMs, limit, member).bucket;
            && i in b'.zset && b'.zset[i] == b.zset[i]
            && (b'.expireAt == b.expireAt || b'.expireAt == call.server + windowMs)
  {
  }

  ghost predicate Holds(b: Bucket, call: Call, windowMs: int, i: nat)
  {
    i in b.zset && b.zset[i] == call.now && b.expireAt >= call.server + windowMs
  }

  /** A call between an admission and one that still sees it finds the key alive and the admission inside its window. */
  lemma BetweenSees(calls: seq<Call>, windowMs: int, d: int, i: nat, n: nat, k: nat)
    requires i < n <= k < |calls| && Back(calls, d) && Spans(calls, windowMs, d)
    requires calls[k].now < calls[i].now + windowMs - d
    ensures calls[n].server < calls[i].server + windowMs && calls[i].now > calls[n].now - windowMs
  {
    assert calls[n].server <= calls[k].server < calls[i].server + windowMs;
    assert calls[n].now <= calls[k].now + d;
  }

  lemma HoldsStays(b: Bucket, first: Call, call: Call, windowMs: int, limit: int, member: nat, i: nat)
    requires Holds(b, first, windowMs, i) && i != member
    requires first.server <= call.server < first.server + windowMs && first.now > call.now - windowMs
    ensures Holds(Script(b, call.server, call.now, windowMs, limit, member).bucket, first, windowMs, i)
  {
    CallKeeps(b, call, windowMs, limit, member, i);
  }

  lemma AfterStep(calls: seq<Call>, windowMs: int, limit: int, n: nat)
    requires n < |calls|
    ensures After(calls[..n + 1], windowMs, limit)
            == Script(After(calls[..n], windowMs, limit), calls[n].server, calls[n].now, windowMs, limit, n).bucket
  {
    assert calls[..n + 1][..n] == calls[..n];
  }

  /** No call finds the key expired or the admission outside its window. */
  ghost predicate SeenBy(calls: seq<Call>, windowMs: int, i: nat, n: nat)
    requires i < n <= |calls|
  {
    forall m :: i < m < n ==>
      && calls[i].server <= calls[m].server < calls[i].server + windowMs
      && calls[i].now > calls[m].now - windowMs
  }

  lemma {:induction false} HoldsThrough(calls: seq<Call>, windowMs: int, limit: int, i: nat, n: nat)
    requires i < n <= |calls| && Admitted(calls, windowMs, limit, i) && SeenBy(calls, windowMs, i, n)
    ensures Holds(After(calls[..n], windowMs, limit), calls[i], windowMs, i)
  {
    if i == n - 1 {
      AfterUnfolds(calls, windowMs, limit, i);
    } else {
      HoldsThrough(calls, windowMs, limit, i, n - 1);
      HoldsStays(After(calls[..n - 1], windowMs, limit), calls[i], calls[n - 1], windowMs, limit, n - 1, i);
      AfterStep(calls, windowMs, limit, n - 1);
    }
  }

  /** As long as a later call still sees an admission inside its window by more than `d`, nothing has dropped it. */
  lemma AdmissionStays(calls: seq<Call>, windowMs: int, limit: int, d: int, i: nat, n: nat, k: nat)
    requires i < n <= k < |calls| && Back(calls, d) && Spans(calls, windowMs, d) && Admitted(calls, windowMs, limit, i)
    requires calls[k].now < calls[i].now + windowMs - d
    ensures Holds(After(calls[..n], windowMs, limit), calls[i], windowMs, i)
  {
    forall m | i < m < n
      ensures calls[i].server <= calls[m].server < calls[i].server + windowMs
      ensures calls[i].now > calls[m].now - windowMs
    {
      BetweenSees(calls, windowMs, d, i, m, k);
    }
    HoldsThrough(calls, windowMs, limit, i, n);
  }

  lemma AdmissionIsCounted(calls: seq<Call>, windowMs: int, limit: int, d: int, i: nat, k: nat)
    requires i < k < |calls| && Back(calls, d) && Spans(calls, windowMs, d)
    requires Admitted(calls, windowMs, limit, i) && calls[k].now < calls[i].now + windowMs - d
    ensures i in Counted(calls, windowMs, limit, k)
  {
    AdmissionStays(calls, windowMs, limit, d, i, k, k);
    BetweenSees(calls, windowMs, d, i, k, k);
  }

  /** Admitted calls whose clocks fall into a half-open interval. */
  ghost function AdmittedIn(calls: seq<Call>, windowMs: int, limit: int, start: int, length: int): set<nat>
  {
    set i | 0 <= i < |calls| && Admitted(calls, windowMs, limit, i) && start <= calls[i].now < start + length
  }

  ghost function Latest(s: set<nat>): (m: nat)
    requires s != {}
    ensures m in s && forall x :: x in s ==> x <= m
  {
    assert exists m :: m in s && forall x :: x in s ==> x <= m by {
      var m := LatestExists(s);
    }
    var m :| m in s && forall x :: x in s ==> x <= m;
    m
  }

  lemma {:induction false} LatestExists(s: set<nat>) returns (m: nat)
    requires s != {}
    ensures m in s && forall x :: x in s ==> x <= m
  {
    m :| m in s;
    assert forall x :: x in s ==> x == m || x in s - {m};
    if s - {m} != {} {
      var k := LatestExists(s - {m});
      if k > m {
        m := k;
      }
    }
  }

  /**
   The limit under clock disorder: if the pods' clocks go back by at most `d`, and fall behind by at most `d` over a
   window of the server's clock, every half-open interval of length windowMs - d holds at most `limit` admitted clock
   values.
   */
  lemma LimitHolds(calls: seq<Call>, windowMs: int, limit: int, d: int, start: int)
    requires Back(calls, d) && Spans(calls, windowMs, d) && limit >= 0
    ensures |AdmittedIn(calls, windowMs, limit, start, windowMs - d)| <= limit
  {
    var inside := AdmittedIn(calls, windowMs, limit, start, windowMs - d);
    if inside != {} {
      var k := Latest(inside);
      var counted := Counted(calls, windowMs, limit, k).Keys;
      forall i | i in inside - {k} ensures i in counted {
        AdmissionIsCounted(calls, windowMs, limit, d, i, k);
      }
      SubsetFits(inside - {k}, counted);
      assert |inside - {k}| == |inside| - 1;
      assert |counted| == |Counted(calls, windowMs, limit, k)|;
    }
  }

  /** Two calls, one of them on a drifted clock; with limit 1 both are admitted. */
  lemma BothAdmitted(windowMs: int, first: Call, second: Call)
    requires second.server >= first.server + windowMs
    ensures var calls := [first, second]; Admitted(calls, windowMs, 1, 0) && Admitted(calls, windowMs, 1, 1)
  {
    var calls := [first, second];
    assert calls[..0] == [];
    assert Counted(calls, windowMs, 1, 0) == map[];
    AfterUnfolds(calls, windowMs, 1, 0);
    assert After(calls[..1], windowMs, 1).expireAt == first.server + windowMs;
    assert Counted(calls, windowMs, 1, 1) == map[];
  }

  /**
   Clocks that never go back are not enough. If the pods' clocks fall behind the server's, the key expires on the
   server's clock while its admissions are still inside the window: here both calls bring clock 0.
   */
  lemma DriftBreaksLimit(windowMs: int, calls: seq<Call>)
    requires windowMs > 0 && calls == [Call(0, 0), Call(0, windowMs)]
    ensures forall i, j :: 0 <= i <= j < |calls| ==> calls[i].now <= calls[j].now && calls[i].server <= calls[j].server
    ensures |AdmittedIn(calls, windowMs, 1, 0, windowMs)| == 2
  {
    BothAdmitted(windowMs, calls[0], calls[1]);
    assert AdmittedIn(calls, windowMs, 1, 0, windowMs) == {0, 1};
  }

  /** Disorder `d` allows one admission too many in an interval one longer. */
  lemma LimitIsTight(windowMs: int, d: int, calls: seq<Call>)
    requires 0 <= d <= windowMs && calls == [Call(0, 0), Call(windowMs - d, windowMs)]
    ensures Disorder(calls, d)
    ensures |AdmittedIn(calls, windowMs, 1, 0, windowMs - d + 1)| == 2
  {
    BothAdmitted(windowMs, calls[0], calls[1]);
    assert AdmittedIn(calls, windowMs, 1, 0, windowMs - d + 1) == {0, 1};
  }

  /** Every half-open interval of this length holds at most `limit` admitted clock values. */
  ghost predicate LimitOn(calls: seq<Call>, windowMs: int, limit: int, length: int)
  {
    forall start: int :: |AdmittedIn(calls, windowMs, limit, start, length)| <= limit
  }

  ghost predicate SafeLength(windowMs: int, d: int, length: int)
  {
    forall calls, limit: nat :: Back(calls, d) && Spans(calls, windowMs, d) ==> LimitOn(calls, windowMs, limit, length)
  }

  lemma ShorterIsSafer(calls: seq<Call>, windowMs: int, limit: int, start: int, length: int, longer: int)
    requires length <= longer
    ensures |AdmittedIn(calls, windowMs, limit, start, length)| <= |AdmittedIn(calls, windowMs, limit, start, longer)|
  {
    SubsetFits(AdmittedIn(calls, windowMs, limit, start, length), AdmittedIn(calls, windowMs, limit, start, longer));
  }

  lemma ShortIsSafe(windowMs: int, d: int, length: int)
    requires length <= windowMs - d
    ensures SafeLength(windowMs, d, length)
  {
    forall calls, limit: nat | Back(calls, d) && Spans(calls, windowMs, d)
      ensures LimitOn(calls, windowMs, limit, length)
    {
      forall start: int ensures |AdmittedIn(calls, windowMs, limit, start, length)| <= limit {
        LimitHolds(calls, windowMs, limit, d, start);
        ShorterIsSafer(calls, windowMs, limit, start, length, windowMs - d);
      }
    }
  }

  lemma LongIsUnsafe(windowMs: int, d: int, length: int)
    requires 0 <= d <= windowMs && length > windowMs - d
    ensures !SafeLength(windowMs, d, length)
  {
    var calls, one: nat := [Call(0, 0), Call(windowMs - d, windowMs)], 1;
    LimitIsTight(windowMs, d, calls);
    DisorderIsSteady(calls, windowMs, d);
    ShorterIsSafer(calls, windowMs, 1, 0, windowMs - d + 1, length);
    assert !LimitOn(calls, windowMs, one, length);
  }

  /** The lengths on which the limit holds in every run with such clocks are those up to windowMs - d, and no others. */
  lemma SafeExactlyUpTo(windowMs: int, d: int, length: int)
    requires 0 <= d <= windowMs
    ensures SafeLength(windowMs, d, length) <==> length <= windowMs - d
  {
    if length <= windowMs - d {
      ShortIsSafe(windowMs, d, length);
    } else {
      LongIsUnsafe(windowMs, d, length);
    }
  }

  // When exactly a run's clocks are good enough.

  /** Two calls of a run, run alone. */
  function Pair(calls: seq<Call>, i: nat, j: nat): seq<Call>
    requires i < |calls| && j < |calls|
  {
    [calls[i], calls[j]]
  }

  lemma PairIsSteady(calls: seq<Call>, windowMs: int, d: int, i: nat, j: nat)
    requires i < j < |calls| && Back(calls, d) && Spans(calls, windowMs, d)
    ensures Back(Pair(calls, i, j), d) && Spans(Pair(calls, i, j), windowMs, d)
  {
  }

  ghost predicate KeepsLimits(calls: seq<Call>, windowMs: int, length: int)
  {
    forall limit: nat :: LimitOn(calls, windowMs, limit, length)
  }

  lemma SteadyKeepsLimits(calls: seq<Call>, windowMs: int, d: int, length: int)
    requires Back(calls, d) && Spans(calls, windowMs, d) && length == windowMs - d
    ensures KeepsLimits(calls, windowMs, length)
  {
    forall limit: nat ensures LimitOn(calls, windowMs, limit, length) {
      forall start: int ensures |AdmittedIn(calls, windowMs, limit, start, length)| <= limit {
        LimitHolds(calls, windowMs, limit, d, start);
      }
    }
  }

  lemma LaggingPairBreaksLimit(calls: seq<Call>, windowMs: int, d: int, i: nat, j: nat)
    requires i < j < |calls| && Back(calls, d) && 0 <= 2 * d < windowMs
    requires calls[j].server - calls[i].server >= windowMs && calls[j].now - calls[i].now < windowMs - d
    ensures !KeepsLimits(Pair(calls, i, j), windowMs, windowMs - d)
  {
    var pair, one: nat := Pair(calls, i, j), 1;
    var start := if calls[i].now <= calls[j].now then calls[i].now else calls[j].now;
    BothAdmitted(windowMs, calls[i], calls[j]);
    assert AdmittedIn(pair, windowMs, one, start, windowMs - d) == {0, 1};
    assert !LimitOn(pair, windowMs, one, windowMs - d);
  }

  /**
   For clocks that go back by at most `d`, less than half a window: every limit holds on length windowMs - d, on the run
   and on any two of its calls run alone, if and only if over each window of the server's clock the pods' clocks pass at
   least windowMs - d.
   */
  lemma LimitsHoldExactlyIf(calls: seq<Call>, windowMs: int, d: int)
    requires Back(calls, d) && 0 <= 2 * d < windowMs
    ensures var length := windowMs - d;
            KeepsLimits(calls, windowMs, length)
            && (forall i, j :: 0 <= i < j < |calls| ==> KeepsLimits(Pair(calls, i, j), windowMs, length))
            <==> Spans(calls, windowMs, d)
  {
    if Spans(calls, windowMs, d) {
      SteadyKeepsLimits(calls, windowMs, d, windowMs - d);
      forall i, j | 0 <= i < j < |calls| ensures KeepsLimits(Pair(calls, i, j), windowMs, windowMs - d) {
        PairIsSteady(calls, windowMs, d, i, j);
        SteadyKeepsLimits(Pair(calls, i, j), windowMs, d, windowMs - d);
      }
    } else {
      var i, j :| 0 <= i <= j < |calls| && calls[j].server - calls[i].server >= windowMs
                  && calls[j].now - calls[i].now < windowMs - d;
      LaggingPairBreaksLimit(calls, windowMs, d, i, j);
    }
  }

  // ----- the naive limiter

  /** The reference: keep every admission for ever and count those in (now - windowMs, now]. */
  ghost predicate NaiveAdmits(calls: seq<Call>, windowMs: int, limit: int, i: nat)
    requires i < |calls|
    decreases i, 1
  {
    |NaiveWindow(calls, windowMs, limit, i)| < limit
  }

  ghost function NaiveWindow(calls: seq<Call>, windowMs: int, limit: int, i: nat): set<nat>
    requires i < |calls|
    decreases i, 0
  {
    set j: nat |
      j < i && NaiveAdmits(calls, windowMs, limit, j) && calls[i].now - windowMs < calls[j].now <= calls[i].now
  }

  /**
   If the pods' clocks do not go back and keep up with the server's over each window, the pruned, expiring set decides
   every call exactly as the naive limiter does.
   */
  lemma {:induction false} DecidesLikeNaive(calls: seq<Call>, windowMs: int, limit: int, i: nat)
    requires Back(calls, 0) && Spans(calls, windowMs, 0) && i < |calls|
    ensures Admitted(calls, windowMs, limit, i) <==> NaiveAdmits(calls, windowMs, limit, i)
  {
    forall j: nat | j < i ensures Admitted(calls, windowMs, limit, j) <==> NaiveAdmits(calls, windowMs, limit, j) {
      DecidesLikeNaive(calls, windowMs, limit, j);
    }
    var counted, window := Counted(calls, windowMs, limit, i).Keys, NaiveWindow(calls, windowMs, limit, i);
    forall j | j in window ensures j in counted {
      AdmissionIsCounted(calls, windowMs, limit, 0, j, i);
    }
    forall j | j in counted ensures j in window {
      MembersAreAdmissions(calls, windowMs, limit, i, j);
    }
    assert counted == window;
    assert |counted| == |Counted(calls, windowMs, limit, i)|;
  }

  ghost predicate Agrees(calls: seq<Call>, windowMs: int, limit: int)
  {
    forall i :: 0 <= i < |calls| ==> (Admitted(calls, windowMs, limit, i) <==> NaiveAdmits(calls, windowMs, limit, i))
  }

  lemma SteadyAgrees(calls: seq<Call>, windowMs: int, limit: int)
    requires Back(calls, 0) && Spans(calls, windowMs, 0)
    ensures Agrees(calls, windowMs, limit)
  {
    forall i | 0 <= i < |calls|
      ensures Admitted(calls, windowMs, limit, i) <==> NaiveAdmits(calls, windowMs, limit, i)
    {
      DecidesLikeNaive(calls, windowMs, limit, i);
    }
  }

  lemma LaggingPairDisagrees(windowMs: int, first: Call, second: Call)
    requires second.server - first.server >= windowMs && first.now <= second.now < first.now + windowMs
    ensures !Agrees([first, second], windowMs, 1)
  {
    var pair := [first, second];
    BothAdmitted(windowMs, first, second);
    assert NaiveWindow(pair, windowMs, 1, 0) == {};
    assert NaiveAdmits(pair, windowMs, 1, 0);
    assert 0 in NaiveWindow(pair, windowMs, 1, 1);
    SubsetFits({0}, NaiveWindow(pair, windowMs, 1, 1));
  }

  /**
   For clocks that do not go back: the script agrees with the naive limiter, on the run under every limit and on any two
   of its calls run alone, if and only if the pods' clocks keep up with the server's over each window.
   */
  lemma AgreesExactlyIf(calls: seq<Call>, windowMs: int)
    requires Back(calls, 0) && windowMs > 0
    ensures (forall limit: int :: Agrees(calls, windowMs, limit))
            && (forall i, j :: 0 <= i < j < |calls| ==> Agrees(Pair(calls, i, j), windowMs, 1))
            <==> Spans(calls, windowMs, 0)
  {
    if Spans(calls, windowMs, 0) {
      forall limit: int ensures Agrees(calls, windowMs, limit) {
        SteadyAgrees(calls, windowMs, limit);
      }
      forall i, j | 0 <= i < j < |calls| ensures Agrees(Pair(calls, i, j), windowMs, 1) {
        PairIsSteady(calls, windowMs, 0, i, j);
        SteadyAgrees(Pair(calls, i, j), windowMs, 1);
      }
    } else {
      var i, j :| 0 <= i <= j < |calls| && calls[j].server - calls[i].server >= windowMs
                  && calls[j].now - calls[i].now < windowMs;
      LaggingPairDisagrees(windowMs, calls[i], calls[j]);
      assert !Agrees(Pair(calls, i, j), windowMs, 1);
    }
  }

  // ----- Retry-After

  lemma EvictedFits(zset: map<nat, int>, floor: int)
    ensures |Evicted(zset, floor)| <= |zset|
  {
    SubsetFits(Evicted(zset, floor).Keys, zset.Keys);
  }

  /** The set never outgrows the limit. */
  lemma {:induction false} NeverOverLimit(calls: seq<Call>, windowMs: int, limit: int)
    requires limit >= 0
    ensures |After(calls, windowMs, limit).zset| <= limit
  {
    if calls != [] {
      var n := |calls| - 1;
      NeverOverLimit(calls[..n], windowMs, limit);
      var before := After(calls[..n], windowMs, limit);
      EvictedFits(Live(before, calls[n].server), calls[n].now - windowMs);
    }
  }

  /** The key of a set that is not empty expires a window after the server ran its last admission, the latest score. */
  lemma {:induction false} ExpiryIsOfLast(calls: seq<Call>, windowMs: int, limit: int, n: nat) returns (m: nat)
    requires Back(calls, 0) && n <= |calls| && After(calls[..n], windowMs, limit).zset != map[]
    ensures m < n && After(calls[..n], windowMs, limit).expireAt == calls[m].server + windowMs
    ensures var zset := After(calls[..n], windowMs, limit).zset; forall k :: k in zset ==> zset[k] <= calls[m].now
  {
    m := n - 1;
    AfterUnfolds(calls, windowMs, limit, m);
    forall k | k in After(calls[..n], windowMs, limit).zset
      ensures k < n && After(calls[..n], windowMs, limit).zset[k] == calls[k].now
    {
      MembersAreAdmissions(calls, windowMs, limit, n, k);
    }
    if !Admitted(calls, windowMs, limit, m) {
      m := ExpiryIsOfLast(calls, windowMs, limit, m);
    }
  }

  /** Dropping the members up to a floor makes room exactly when the oldest one goes. */
  lemma RoomWhenOldestGoes(zset: map<nat, int>, floor: int)
    requires zset != map[]
    ensures |Evicted(zset, floor)| < |zset| <==> Oldest(zset) <= floor
  {
    var m := OldestMember(zset);
    if Oldest(zset) <= floor {
      assert m !in Evicted(zset, floor);
      SubsetFits(Evicted(zset, floor).Keys, zset.Keys - {m});
      assert |zset.Keys - {m}| == |zset| - 1;
    } else {
      assert Evicted(zset, floor) == zset;
    }
  }

  /** A denied call leaves a full set, whose oldest member is still inside the window. */
  lemma DeniedIsFull(b: Bucket, call: Call, windowMs: int, limit: int, member: nat)
    requires limit > 0 && |b.zset| <= limit
    requires Script(b, call.server, call.now, windowMs, limit, member).reply.Denied?
    ensures var b' := Script(b, call.server, call.now, windowMs, limit, member).bucket;
            |b'.zset| == limit && b'.zset != map[] && Oldest(b'.zset) + windowMs > call.now
  {
    var kept := Evicted(Live(b, call.server), call.now - windowMs);
    EvictedFits(Live(b, call.server), call.now - windowMs);
    assert kept != map[];
    assert OldestMember(kept) in kept;
  }

  /** From a full set, a later call is let in exactly when the oldest member has left the window. */
  lemma RetryAllowedWhen(b: Bucket, last: Call, later: Call, windowMs: int, limit: int, member: nat)
    requires b.zset != map[] && |b.zset| == limit && b.expireAt == last.server + windowMs
    requires forall k :: k in b.zset ==> b.zset[k] <= last.now
    requires later.server - last.server >= windowMs ==> later.now - last.now >= windowMs
    ensures Script(b, later.server, later.now, windowMs, limit, member).reply.Allowed?
            <==> Oldest(b.zset) + windowMs <= later.now
  {
    var m := OldestMember(b.zset);
    if later.server < b.expireAt {
      RoomWhenOldestGoes(b.zset, later.now - windowMs);
    } else {
      assert Evicted(map[], later.now - windowMs) == map[];
    }
  }

  lemma CeilIsLeast(ms: int, seconds: int)
    requires ms > 0
    ensures ms <= 1000 * seconds <==> CeilSeconds(ms) <= seconds
    ensures CeilSeconds(ms) >= 1
  {
  }

  /** What the script answers to call `i`. */
  ghost function ReplyTo(calls: seq<Call>, windowMs: int, limit: int, i: nat): Reply
    requires i < |calls|
  {
    Script(After(calls[..i], windowMs, limit), calls[i].server, calls[i].now, windowMs, limit, i).reply
  }

  /**
   Retry-After is exact. After a denial, with a positive limit, no competing calls, and clocks that do not go back and
   keep up with the server's over each window, a retry whose clock is a whole number of seconds later is admitted if and
   only if that number is at least the one returned. The clamps never act.
   */
  lemma RetryAfterIsExact(calls: seq<Call>, windowMs: int, limit: int, n: nat, seconds: nat)
    requires Back(calls, 0) && Spans(calls, windowMs, 0) && limit > 0 && n + 1 < |calls|
    requires ReplyTo(calls, windowMs, limit, n).Denied? && calls[n + 1].now == calls[n].now + 1000 * seconds
    ensures var wait := ReplyTo(calls, windowMs, limit, n).retryAfter;
            var left := After(calls[..n + 1], windowMs, limit).zset;
            && wait >= 1
            && (ReplyTo(calls, windowMs, limit, n + 1).Allowed? <==> wait <= seconds)
            && left != map[]
            && var waitMs := Oldest(left) + windowMs - calls[n].now;
               waitMs > 0 && wait == CeilSeconds(waitMs)
  {
    var before, call := After(calls[..n], windowMs, limit), calls[n];
    var denied := Script(before, call.server, call.now, windowMs, limit, n);
    assert calls[..n + 1][..n] == calls[..n];
    assert After(calls[..n + 1], windowMs, limit) == denied.bucket;
    NeverOverLimit(calls[..n], windowMs, limit);
    DeniedIsFull(before, call, windowMs, limit, n);
    var m := ExpiryIsOfLast(calls, windowMs, limit, n + 1);
    RetryAllowedWhen(denied.bucket, calls[m], calls[n + 1], windowMs, limit, n + 1);
    CeilIsLeast(Oldest(denied.bucket.zset) + windowMs - call.now, seconds);
  }
}
