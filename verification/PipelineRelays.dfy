/** What any number of relays keep, whichever of them fail. */
module PipelineRelays {
  import opened Prelude
  import opened Pipeline

  ghost predicate RowsInv(outbox: Outbox)
  {
    && outbox.attempts.Keys == outbox.rows.Keys
    && outbox.published <= outbox.rows.Keys
    && (forall r :: r in outbox.rows ==>
          && !outbox.rows[r].event.poison
          && outbox.rows[r].event.orderId in outbox.orders && outbox.orders[outbox.rows[r].event.orderId] == r)
    && (forall a, b :: a in outbox.rows && b in outbox.rows && a != b ==>
          outbox.rows[a].event.eventId != outbox.rows[b].event.eventId)
    && (forall o :: o in outbox.orders ==>
          outbox.orders[o] in outbox.rows && outbox.rows[outbox.orders[o]].event.orderId == o)
  }

  /** Tries counted in a row's `attempts`. */
  ghost function UsedOn(outbox: Outbox, row: nat): set<nat>
  {
    set t | t in outbox.used && t < |outbox.tries| && outbox.tries[t] == row
  }

  /** Publishes tried on a row. */
  ghost function TriesOn(outbox: Outbox, row: nat): set<nat>
  {
    set t: nat | t < |outbox.tries| && outbox.tries[t] == row
  }

  ghost predicate CountsInv(outbox: Outbox)
  {
    && (forall t :: t in outbox.used ==> t < |outbox.tries|)
    && (forall t :: 0 <= t < |outbox.tries| ==> outbox.tries[t] in outbox.rows)
    && (forall row :: row in outbox.attempts ==> outbox.attempts[row] == |UsedOn(outbox, row)|)
    && outbox.returned + outbox.unheard == |outbox.published|
  }

  ghost predicate IsTry(outbox: Outbox, t: nat, row: nat)
  {
    t < |outbox.tries| && outbox.tries[t] == row && t !in outbox.used
  }

  ghost predicate RelayOk(outbox: Outbox, confirmed: set<Event>, relay: Relay)
  {
    match relay
    case Idle => true
    case Orphan(next) => next in outbox.rows
    case Counting(row, failed) => row in outbox.rows && IsTry(outbox, failed, row)
    case Publishing(rows, held, current) =>
      && |held| <= |rows|
      && (forall i :: 0 <= i < |rows| ==> rows[i] in outbox.rows && rows[i] !in outbox.published)
      && (forall i, j :: 0 <= i < j < |rows| ==> rows[i] != rows[j])
      && (forall i :: 0 <= i < |held| ==> IsTry(outbox, held[i], rows[i]) && outbox.rows[rows[i]].event in confirmed)
      && (current.Some? ==>
            && |held| < |rows| && IsTry(outbox, current.value, rows[|held|])
            && outbox.rows[rows[|held|]].event in confirmed)
  }

  ghost predicate HasTry(relay: Relay, t: nat)
  {
    match relay
    case Idle => false
    case Orphan(_) => false
    case Counting(_, failed) => t == failed
    case Publishing(_, held, current) => t in held || current == Some(t)
  }

  ghost predicate RelaysApart(a: Relay, b: Relay)
  {
    && (forall row :: !(Locks(a, row) && Locks(b, row)))
    && (forall t :: !(HasTry(a, t) && HasTry(b, t)))
  }

  ghost predicate RelaysInv(outbox: Outbox, confirmed: set<Event>, relays: map<nat, Relay>)
  {
    && (forall r :: r in relays ==> RelayOk(outbox, confirmed, relays[r]))
    && (forall a, b :: a in relays && b in relays && a != b ==> RelaysApart(relays[a], relays[b]))
  }

  /** A row is marked published only after the broker accepted its event. */
  ghost predicate PublishedInv(outbox: Outbox, confirmed: set<Event>)
  {
    forall row :: row in outbox.published ==> row in outbox.rows && outbox.rows[row].event in confirmed
  }

  ghost predicate Inv(s: State)
  {
    && RowsInv(s.outbox)
    && CountsInv(s.outbox)
    && PublishedInv(s.outbox, s.broker.confirmed)
    && RelaysInv(s.outbox, s.broker.confirmed, s.relays)
  }

  // ----- steps

  lemma RelayPut(outbox: Outbox, confirmed: set<Event>, relays: map<nat, Relay>, r: nat, relay: Relay)
    requires RelaysInv(outbox, confirmed, relays) && RelayOk(outbox, confirmed, relay)
    requires forall b :: b in relays && b != r ==> RelaysApart(relay, relays[b])
    ensures RelaysInv(outbox, confirmed, relays[r := relay])
  {
    var relays' := relays[r := relay];
    forall a, b | a in relays' && b in relays' && a != b ensures RelaysApart(relays'[a], relays'[b]) {
      if a != r && b != r {
        assert RelaysApart(relays[a], relays[b]);
      }
    }
  }

  lemma PlaceKeepsRows(outbox: Outbox, row: nat, event: Event, createdAt: int)
    requires RowsInv(outbox) && FreshOrder(outbox, row, event)
    ensures RowsInv(Placed(outbox, row, event, createdAt))
  {
  }

  lemma PlaceKeepsRelay(outbox: Outbox, row: nat, event: Event, createdAt: int, confirmed: set<Event>, relay: Relay)
    requires RelayOk(outbox, confirmed, relay) && row !in outbox.rows
    ensures RelayOk(Placed(outbox, row, event, createdAt), confirmed, relay)
  {
    var outbox' := Placed(outbox, row, event, createdAt);
    assert forall t, r :: IsTry(outbox, t, r) ==> IsTry(outbox', t, r);
  }

  lemma PlaceKeepsCounts(outbox: Outbox, row: nat, event: Event, createdAt: int)
    requires CountsInv(outbox) && row !in outbox.rows
    ensures CountsInv(Placed(outbox, row, event, createdAt))
  {
    var outbox' := Placed(outbox, row, event, createdAt);
    forall r | r in outbox'.attempts ensures outbox'.attempts[r] == |UsedOn(outbox', r)| {
      assert UsedOn(outbox', r) == UsedOn(outbox, r);
      if r == row {
        assert UsedOn(outbox, row) == {};
      }
    }
  }

  lemma PlaceKeepsRelays(outbox: Outbox, row: nat, event: Event, createdAt: int, confirmed: set<Event>,
                         relays: map<nat, Relay>)
    requires RelaysInv(outbox, confirmed, relays) && row !in outbox.rows
    ensures RelaysInv(Placed(outbox, row, event, createdAt), confirmed, relays)
  {
    forall r | r in relays ensures RelayOk(Placed(outbox, row, event, createdAt), confirmed, relays[r]) {
      PlaceKeepsRelay(outbox, row, event, createdAt, confirmed, relays[r]);
    }
  }

  lemma PlaceKeepsInv(s: State, row: nat, event: Event, createdAt: int)
    requires Inv(s) && FreshOrder(s.outbox, row, event)
    ensures Inv(s.(outbox := Placed(s.outbox, row, event, createdAt)))
  {
    PlaceKeepsRows(s.outbox, row, event, createdAt);
    PlaceKeepsCounts(s.outbox, row, event, createdAt);
    PlaceKeepsRelays(s.outbox, row, event, createdAt, s.broker.confirmed, s.relays);
  }

  lemma ClaimKeepsInv(s: State, r: nat, rows: seq<nat>, limit: nat, userId: Option<string>)
    requires Inv(s) && (r !in s.relays || s.relays[r].Idle?) && IsClaim(s.outbox, s.relays, rows, limit, userId)
    ensures Inv(s.(relays := s.relays[r := Publishing(rows, [], None)]))
  {
    var relay := Publishing(rows, [], None);
    forall b | b in s.relays && b != r ensures RelaysApart(relay, s.relays[b]) {
      forall row ensures !(Locks(relay, row) && Locks(s.relays[b], row)) {
        if row in rows {
          assert Eligible(s.outbox, s.relays, userId, row);
        }
      }
    }
    RelayPut(s.outbox, s.broker.confirmed, s.relays, r, relay);
  }

  // ----- a publish

  lemma TryGrows(outbox: Outbox, row: nat, confirmed: set<Event>, more: set<Event>, relay: Relay)
    requires RelayOk(outbox, confirmed, relay) && confirmed <= more
    ensures RelayOk(outbox.(tries := outbox.tries + [row]), more, relay)
  {
    var outbox' := outbox.(tries := outbox.tries + [row]);
    assert forall t, r :: IsTry(outbox, t, r) ==> IsTry(outbox', t, r);
  }

  lemma TryKeepsCounts(outbox: Outbox, row: nat)
    requires CountsInv(outbox) && row in outbox.rows
    ensures CountsInv(outbox.(tries := outbox.tries + [row]))
  {
    var outbox' := outbox.(tries := outbox.tries + [row]);
    forall r | r in outbox'.attempts ensures outbox'.attempts[r] == |UsedOn(outbox', r)| {
      assert UsedOn(outbox', r) == UsedOn(outbox, r);
    }
  }

  lemma TryIsNew(outbox: Outbox, confirmed: set<Event>, relay: Relay)
    requires RelayOk(outbox, confirmed, relay)
    ensures !HasTry(relay, |outbox.tries|)
  {
    if relay.Publishing? {
      forall i | 0 <= i < |relay.held| ensures relay.held[i] != |outbox.tries| {
        assert IsTry(outbox, relay.held[i], relay.rows[i]);
      }
    }
  }

  lemma PublishedRelayOk(s: State, r: nat, msg: nat, outcome: PublishOutcome)
    requires Inv(s) && MayPublish(s, r, msg)
    ensures var s' := PublishOne(s, r, msg, outcome); RelayOk(s'.outbox, s'.broker.confirmed, s'.relays[r])
  {
    var s' := PublishOne(s, r, msg, outcome);
    var relay := s.relays[r];
    assert RelayOk(s.outbox, s.broker.confirmed, relay);
    TryGrows(s.outbox, NextRow(relay), s.broker.confirmed, s'.broker.confirmed, relay);
    assert forall t :: t in s.outbox.used ==> t < |s.outbox.tries|;
    assert IsTry(s'.outbox, |s.outbox.tries|, NextRow(relay));
  }

  lemma PublishKeepsApart(s: State, r: nat, msg: nat, outcome: PublishOutcome, b: nat)
    requires Inv(s) && MayPublish(s, r, msg) && b in s.relays && b != r
    ensures RelaysApart(PublishOne(s, r, msg, outcome).relays[r], s.relays[b])
  {
    var relay' := PublishOne(s, r, msg, outcome).relays[r];
    assert RelayOk(s.outbox, s.broker.confirmed, s.relays[b]) && RelaysApart(s.relays[r], s.relays[b]);
    TryIsNew(s.outbox, s.broker.confirmed, s.relays[b]);
    forall row ensures !(Locks(relay', row) && Locks(s.relays[b], row)) {
      assert Locks(relay', row) ==> Locks(s.relays[r], row);
    }
    forall t ensures !(HasTry(relay', t) && HasTry(s.relays[b], t)) {
      assert HasTry(relay', t) ==> t == |s.outbox.tries| || HasTry(s.relays[r], t);
    }
  }

  lemma PublishKeepsInv(s: State, r: nat, msg: nat, outcome: PublishOutcome)
    requires Inv(s) && MayPublish(s, r, msg)
    ensures Inv(PublishOne(s, r, msg, outcome))
  {
    var s' := PublishOne(s, r, msg, outcome);
    var row := NextRow(s.relays[r]);
    TryKeepsCounts(s.outbox, row);
    forall b | b in s.relays ensures RelayOk(s'.outbox, s'.broker.confirmed, s.relays[b]) {
      TryGrows(s.outbox, row, s.broker.confirmed, s'.broker.confirmed, s.relays[b]);
    }
    PublishedRelayOk(s, r, msg, outcome);
    forall b | b in s.relays && b != r ensures RelaysApart(s'.relays[r], s.relays[b]) {
      PublishKeepsApart(s, r, msg, outcome, b);
    }
    RelayPut(s'.outbox, s'.broker.confirmed, s.relays, r, s'.relays[r]);
  }

  // ----- a mark

  lemma MarkKeepsInv(s: State, r: nat)
    requires Inv(s) && r in s.relays && s.relays[r].Publishing? && s.relays[r].current.Some?
    ensures var relay := s.relays[r];
            Inv(s.(relays := s.relays[r := Publishing(relay.rows, relay.held + [relay.current.value], None)]))
  {
    var relay := s.relays[r];
    var relay' := Publishing(relay.rows, relay.held + [relay.current.value], None);
    assert RelayOk(s.outbox, s.broker.confirmed, relay);
    forall b | b in s.relays && b != r ensures RelaysApart(relay', s.relays[b]) {
      assert RelaysApart(relay, s.relays[b]);
      assert forall row :: Locks(relay', row) ==> Locks(relay, row);
      assert forall t :: HasTry(relay', t) ==> HasTry(relay, t);
    }
    RelayPut(s.outbox, s.broker.confirmed, s.relays, r, relay');
  }

  lemma IdleKeepsInv(s: State, r: nat)
    requires Inv(s)
    ensures Inv(s.(relays := s.relays[r := Idle]))
  {
    RelayPut(s.outbox, s.broker.confirmed, s.relays, r, Idle);
  }

  lemma OrphanKeepsInv(s: State, r: nat)
    requires Inv(s) && r in s.relays && HasNext(s.relays[r])
    ensures Inv(s.(relays := s.relays[r := Orphan(NextRow(s.relays[r]))]))
  {
    assert RelayOk(s.outbox, s.broker.confirmed, s.relays[r]);
    RelayPut(s.outbox, s.broker.confirmed, s.relays, r, Orphan(NextRow(s.relays[r])));
  }

  // ----- a finished cycle

  lemma {:induction false} SetOfDistinct(xs: seq<nat>)
    requires forall i, j :: 0 <= i < j < |xs| ==> xs[i] != xs[j]
    ensures |SetOf(xs)| == |xs|
  {
    if xs != [] {
      var n := |xs| - 1;
      SetOfDistinct(xs[..n]);
      assert SetOf(xs) == SetOf(xs[..n]) + {xs[n]};
    }
  }

  /** A finished cycle counts one try for each of its rows. */
  lemma FinishUses(outbox: Outbox, confirmed: set<Event>, relay: Relay, row: nat, heard: bool)
    requires relay.Publishing? && RelayOk(outbox, confirmed, relay) && |relay.held| == |relay.rows|
    requires forall t :: t in outbox.used ==> t < |outbox.tries|
    ensures |UsedOn(Finished(outbox, relay, heard), row)| == |UsedOn(outbox, row)| + if row in relay.rows then 1 else 0
  {
    var outbox' := Finished(outbox, relay, heard);
    forall t | t in SetOf(relay.held)
      ensures t < |outbox.tries| && t !in outbox.used
      ensures outbox.tries[t] in relay.rows
      ensures row in relay.rows && outbox.tries[t] == row ==> t == HeldFor(relay, row)
    {
      var j :| 0 <= j < |relay.held| && relay.held[j] == t;
      assert IsTry(outbox, relay.held[j], relay.rows[j]);
    }
    if row in relay.rows {
      HeldForIsTry(outbox, confirmed, relay, row);
      assert UsedOn(outbox', row) == UsedOn(outbox, row) + {HeldFor(relay, row)};
    } else {
      assert UsedOn(outbox', row) == UsedOn(outbox, row);
    }
  }

  ghost function HeldFor(relay: Relay, row: nat): nat
    requires relay.Publishing? && |relay.held| == |relay.rows| && row in relay.rows
  {
    var i :| 0 <= i < |relay.rows| && relay.rows[i] == row;
    relay.held[i]
  }

  lemma HeldForIsTry(outbox: Outbox, confirmed: set<Event>, relay: Relay, row: nat)
    requires relay.Publishing? && RelayOk(outbox, confirmed, relay) && |relay.held| == |relay.rows| && row in relay.rows
    ensures HeldFor(relay, row) in SetOf(relay.held) && IsTry(outbox, HeldFor(relay, row), row)
  {
    var i :| 0 <= i < |relay.rows| && relay.rows[i] == row && HeldFor(relay, row) == relay.held[i];
    assert IsTry(outbox, relay.held[i], relay.rows[i]);
  }

  lemma FinishKeepsCounts(outbox: Outbox, confirmed: set<Event>, relay: Relay, heard: bool)
    requires relay.Publishing? && RelayOk(outbox, confirmed, relay) && |relay.held| == |relay.rows|
    requires CountsInv(outbox)
    ensures CountsInv(Finished(outbox, relay, heard))
  {
    var outbox' := Finished(outbox, relay, heard);
    forall row | row in outbox'.attempts ensures outbox'.attempts[row] == |UsedOn(outbox', row)| {
      FinishUses(outbox, confirmed, relay, row, heard);
    }
    forall t | t in outbox'.used ensures t < |outbox'.tries| {
      if t !in outbox.used {
        var j :| 0 <= j < |relay.held| && relay.held[j] == t;
        assert IsTry(outbox, relay.held[j], relay.rows[j]);
      }
    }
    SetOfDistinct(relay.rows);
    assert SetOf(relay.rows) !! outbox.published;
  }

  lemma FinishKeepsOther(outbox: Outbox, confirmed: set<Event>, relay: Relay, other: Relay, heard: bool)
    requires relay.Publishing? && RelayOk(outbox, confirmed, relay) && |relay.held| == |relay.rows|
    requires RelayOk(outbox, confirmed, other) && RelaysApart(relay, other)
    ensures RelayOk(Finished(outbox, relay, heard), confirmed, other)
  {
    var outbox' := Finished(outbox, relay, heard);
    forall t, row | HasTry(other, t) && IsTry(outbox, t, row) ensures IsTry(outbox', t, row) {
      assert !HasTry(relay, t);
    }
    if other.Publishing? {
      forall i | 0 <= i < |other.rows| ensures other.rows[i] !in outbox'.published {
        assert Locks(other, other.rows[i]);
        assert !Locks(relay, other.rows[i]);
      }
    }
  }

  lemma FinishKeepsPublished(outbox: Outbox, confirmed: set<Event>, relay: Relay, heard: bool)
    requires relay.Publishing? && RelayOk(outbox, confirmed, relay) && |relay.held| == |relay.rows|
    requires RowsInv(outbox) && PublishedInv(outbox, confirmed)
    ensures RowsInv(Finished(outbox, relay, heard)) && PublishedInv(Finished(outbox, relay, heard), confirmed)
  {
  }

  lemma FinishKeepsRelays(outbox: Outbox, confirmed: set<Event>, relays: map<nat, Relay>, r: nat, heard: bool)
    requires RelaysInv(outbox, confirmed, relays)
    requires r in relays && relays[r].Publishing? && |relays[r].held| == |relays[r].rows|
    ensures RelaysInv(Finished(outbox, relays[r], heard), confirmed, relays[r := Idle])
  {
    var idle := relays[r := Idle];
    RelayPut(outbox, confirmed, relays, r, Idle);
    forall b | b in idle ensures RelayOk(Finished(outbox, relays[r], heard), confirmed, idle[b]) {
      if b != r {
        assert RelaysApart(relays[r], relays[b]);
        FinishKeepsOther(outbox, confirmed, relays[r], relays[b], heard);
      }
    }
  }

  lemma OwnRelay(s: State, r: nat)
    requires Inv(s) && r in s.relays
    ensures RelayOk(s.outbox, s.broker.confirmed, s.relays[r])
  {
  }

  lemma FinishKeepsInv(s: State, r: nat, heard: bool)
    requires Inv(s) && r in s.relays && s.relays[r].Publishing? && |s.relays[r].held| == |s.relays[r].rows|
    ensures Inv(FinishOne(s, r, heard))
  {
    OwnRelay(s, r);
    FinishKeepsCounts(s.outbox, s.broker.confirmed, s.relays[r], heard);
    FinishKeepsPublished(s.outbox, s.broker.confirmed, s.relays[r], heard);
    FinishKeepsRelays(s.outbox, s.broker.confirmed, s.relays, r, heard);
  }

  // ----- a counted failure

  lemma CountKeepsCounts(outbox: Outbox, row: nat, t: nat)
    requires CountsInv(outbox) && row in outbox.attempts && IsTry(outbox, t, row)
    ensures CountsInv(Counted(outbox, row, t))
  {
    var outbox' := Counted(outbox, row, t);
    forall r | r in outbox'.attempts ensures outbox'.attempts[r] == |UsedOn(outbox', r)| {
      CountUses(outbox, row, t, r);
    }
  }

  lemma CountUses(outbox: Outbox, row: nat, t: nat, r: nat)
    requires row in outbox.attempts && IsTry(outbox, t, row)
    ensures |UsedOn(Counted(outbox, row, t), r)| == |UsedOn(outbox, r)| + if r == row then 1 else 0
  {
    assert UsedOn(Counted(outbox, row, t), r) == if r == row then UsedOn(outbox, r) + {t} else UsedOn(outbox, r);
  }

  lemma CountKeepsOther(outbox: Outbox, confirmed: set<Event>, row: nat, t: nat, other: Relay)
    requires RelayOk(outbox, confirmed, other) && row in outbox.attempts && !HasTry(other, t)
    ensures RelayOk(Counted(outbox, row, t), confirmed, other)
  {
    var outbox' := Counted(outbox, row, t);
    forall u, r | HasTry(other, u) && IsTry(outbox, u, r) ensures IsTry(outbox', u, r) {
    }
  }

  lemma CountKeepsRelays(outbox: Outbox, confirmed: set<Event>, relays: map<nat, Relay>, r: nat)
    requires RelaysInv(outbox, confirmed, relays)
    requires r in relays && relays[r].Counting? && relays[r].row in outbox.attempts
    ensures RelaysInv(Counted(outbox, relays[r].row, relays[r].failed), confirmed, relays[r := Idle])
  {
    var Counting(row, t) := relays[r];
    var idle := relays[r := Idle];
    RelayPut(outbox, confirmed, relays, r, Idle);
    forall b | b in idle ensures RelayOk(Counted(outbox, row, t), confirmed, idle[b]) {
      if b != r {
        assert RelaysApart(relays[r], relays[b]);
        assert HasTry(relays[r], t);
        CountKeepsOther(outbox, confirmed, row, t, relays[b]);
      }
    }
  }

  lemma CountKeepsInv(s: State, r: nat)
    requires Inv(s) && r in s.relays && s.relays[r].Counting? && s.relays[r].row in s.outbox.attempts
    ensures Inv(s.(outbox := Counted(s.outbox, s.relays[r].row, s.relays[r].failed), relays := s.relays[r := Idle]))
  {
    OwnRelay(s, r);
    CountKeepsCounts(s.outbox, s.relays[r].row, s.relays[r].failed);
    CountKeepsRelays(s.outbox, s.broker.confirmed, s.relays, r);
  }

  // ----- every step

  /** What handlers do not touch. */
  ghost predicate SameOutbox(s: State, s': State)
  {
    && s'.outbox == s.outbox && s'.relays == s.relays
    && s'.broker.confirmed == s.broker.confirmed && s'.broker.bound == s.broker.bound
  }

  lemma SettledLeavesOutbox(s: State, tag: nat, place: Place)
    requires tag in s.handlers
    ensures SameOutbox(s, Settled(s, tag, place))
  {
  }

  lemma ReceivedLeavesOutbox(s: State, tag: nat, outcome: Outcome)
    requires tag in s.handlers
    ensures SameOutbox(s, HandleReceived(s, tag, outcome))
  {
  }

  lemma RecordedLeavesOutbox(s: State, tag: nat, outcome: Outcome)
    requires tag in s.handlers
    ensures SameOutbox(s, HandleRecorded(s, tag, outcome))
  {
  }

  lemma HandlersLeaveOutbox(s: State, tag: nat, outcome: Outcome)
    requires tag in s.handlers
    ensures SameOutbox(s, HandleOne(s, tag, outcome))
  {
    match s.handlers[tag].stage
    case Received => ReceivedLeavesOutbox(s, tag, outcome);
    case Recorded => RecordedLeavesOutbox(s, tag, outcome);
    case Applied => SettledLeavesOutbox(s, tag, Acked);
    case _ =>
  }

  lemma PlaceStep(s: State, row: nat, event: Event, createdAt: int)
    requires Inv(s)
    ensures Inv(Next(s, PlaceOrder(row, event, createdAt)))
  {
    if FreshOrder(s.outbox, row, event) {
      PlaceKeepsInv(s, row, event, createdAt);
    }
  }

  lemma ClaimStep(s: State, r: nat, rows: seq<nat>, limit: nat, userId: Option<string>)
    requires Inv(s)
    ensures Inv(Next(s, Claim(r, rows, limit, userId)))
  {
    if (r !in s.relays || s.relays[r].Idle?) && IsClaim(s.outbox, s.relays, rows, limit, userId) {
      ClaimKeepsInv(s, r, rows, limit, userId);
    }
  }

  lemma PublishStep(s: State, r: nat, msg: nat, outcome: PublishOutcome)
    requires Inv(s)
    ensures Inv(Next(s, Publish(r, msg, outcome)))
  {
    if MayPublish(s, r, msg) {
      PublishKeepsInv(s, r, msg, outcome);
    }
  }

  lemma MarkStep(s: State, r: nat)
    requires Inv(s)
    ensures Inv(Next(s, Mark(r)))
  {
    if r in s.relays && s.relays[r].Publishing? && s.relays[r].current.Some? {
      MarkKeepsInv(s, r);
    }
  }

  lemma FinishStep(s: State, r: nat, heard: bool)
    requires Inv(s)
    ensures Inv(Next(s, Finish(r, heard)))
  {
    if r in s.relays && s.relays[r].Publishing? && |s.relays[r].held| == |s.relays[r].rows| {
      FinishKeepsInv(s, r, heard);
    }
  }

  lemma CountStep(s: State, r: nat)
    requires Inv(s)
    ensures Inv(Next(s, CountAttempt(r)))
  {
    if r in s.relays && s.relays[r].Counting? && s.relays[r].row in s.outbox.attempts {
      CountKeepsInv(s, r);
    }
  }

  /** The steps of everyone else leave the outbox and the relays alone. */
  lemma OthersLeaveOutbox(s: State, a: Action)
    requires a.AssertTopology? || a.ForeignPublish? || a.Deliver? || a.Handle? || a.CloseChannel?
    ensures var s' := Next(s, a);
            s'.outbox == s.outbox && s'.relays == s.relays && s'.broker.confirmed == s.broker.confirmed
  {
    if a.Handle? && a.tag in s.handlers {
      HandlersLeaveOutbox(s, a.tag, a.ended);
    }
  }

  lemma SameKeepsInv(s: State, s': State)
    requires Inv(s)
    requires s'.outbox == s.outbox && s'.relays == s.relays && s'.broker.confirmed == s.broker.confirmed
    ensures Inv(s')
  {
  }

  lemma StepKeepsInv(s: State, a: Action)
    requires Inv(s)
    ensures Inv(Next(s, a))
  {
    match a
    case PlaceOrder(row, event, createdAt) => PlaceStep(s, row, event, createdAt);
    case Claim(r, rows, limit, userId) => ClaimStep(s, r, rows, limit, userId);
    case Publish(r, msg, outcome) => PublishStep(s, r, msg, outcome);
    case Mark(r) => MarkStep(s, r);
    case Finish(r, heard) => FinishStep(s, r, heard);
    case LoseTransaction(r) => if r in s.relays && HasNext(s.relays[r]) { OrphanKeepsInv(s, r); }
    case Drop(r) => IdleKeepsInv(s, r);
    case CountAttempt(r) => CountStep(s, r);
    case _ =>
      OthersLeaveOutbox(s, a);
      SameKeepsInv(s, Next(s, a));
  }

  lemma NoRowsInv(outbox: Outbox)
    requires outbox.orders == map[] && outbox.rows == map[] && outbox.attempts == map[] && outbox.published == {}
    ensures RowsInv(outbox)
  {
  }

  lemma NoTriesInv(outbox: Outbox)
    requires outbox.attempts == map[] && outbox.used == {} && outbox.tries == []
    requires outbox.returned == outbox.unheard == 0 && outbox.published == {}
    ensures CountsInv(outbox)
  {
  }

  lemma NoRelaysInv(outbox: Outbox, confirmed: set<Event>)
    requires outbox.published == {}
    ensures PublishedInv(outbox, confirmed) && RelaysInv(outbox, confirmed, map[])
  {
  }

  lemma InitialInv(s: State)
    requires Initial(s)
    ensures Inv(s)
  {
    NoRowsInv(s.outbox);
    NoTriesInv(s.outbox);
    NoRelaysInv(s.outbox, s.broker.confirmed);
  }

  lemma {:induction false} ExecKeepsInv(init: State, actions: seq<Action>)
    requires Initial(init)
    ensures Inv(Exec(init, actions))
  {
    if actions != [] {
      ExecKeepsInv(init, actions[..|actions| - 1]);
      StepKeepsInv(Exec(init, actions[..|actions| - 1]), actions[|actions| - 1]);
    } else {
      InitialInv(init);
    }
  }

  // ----- results

  /**
   With any number of relays and any failures: a row marked published has been accepted by the broker; no row is
   marked twice, since the counts returned by completed cycles, and those of cycles whose commit went unheard, add up
   to the number of marked rows; and a row's
   `attempts` never exceeds the publishes tried on it.
   */
  lemma RelaySafety(init: State, actions: seq<Action>)
    requires Initial(init)
    ensures var s := Exec(init, actions);
            && (forall row :: row in s.outbox.published ==>
                  row in s.outbox.rows && s.outbox.rows[row].event in s.broker.confirmed)
            && s.outbox.returned + s.outbox.unheard == |s.outbox.published|
            && s.outbox.attempts.Keys == s.outbox.rows.Keys
            && (forall row :: row in s.outbox.attempts ==> s.outbox.attempts[row] <= |TriesOn(s.outbox, row)|)
  {
    ExecKeepsInv(init, actions);
    var outbox := Exec(init, actions).outbox;
    forall row | row in outbox.attempts ensures outbox.attempts[row] <= |TriesOn(outbox, row)| {
      assert UsedOn(outbox, row) <= TriesOn(outbox, row);
      assert TriesOn(outbox, row) == UsedOn(outbox, row) + (TriesOn(outbox, row) - UsedOn(outbox, row));
    }
  }

  /** Two relays never work on the same row at the same time. */
  lemma ClaimsAreDisjoint(init: State, actions: seq<Action>, a: nat, b: nat, row: nat)
    requires Initial(init) && a != b
    requires a in Exec(init, actions).relays && b in Exec(init, actions).relays
    ensures var relays := Exec(init, actions).relays; !(Locks(relays[a], row) && Locks(relays[b], row))
  {
    ExecKeepsInv(init, actions);
    assert RelaysApart(Exec(init, actions).relays[a], Exec(init, actions).relays[b]);
  }
}
