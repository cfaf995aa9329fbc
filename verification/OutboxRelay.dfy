/** One relay cycle as the service runs it: claim, publish each row, mark it, commit or roll back. */
module OutboxRelay {
  import opened Prelude
  import opened Pipeline

  datatype RelayError = PublishFailed(row: nat) | Crashed

  class Tables {
    var rows: map<nat, Row>
    var published: set<nat>
    var attempts: map<nat, nat>
    var accepted: seq<Event> // what the broker has accepted, in order

    ghost predicate Valid()
      reads this
    {
      attempts.Keys == rows.Keys && published <= rows.Keys
    }

    constructor (rows: map<nat, Row>)
      ensures Valid() && this.rows == rows && published == {} && accepted == []
    {
      this.rows, published, accepted := rows, {}, [];
      attempts := map row | row in rows :: 0;
    }

    /** The publish-and-mark loop of one cycle, up to the publish that fails. */
    method RunCycle(claimed: seq<nat>, outcomes: seq<PublishOutcome>, crashAfterPublish: bool)
      returns (r: Result<nat, RelayError>, tried: nat)
      requires Valid()
      requires forall i :: 0 <= i < |claimed| ==> claimed[i] in rows
      requires forall i, j :: 0 <= i < j < |claimed| ==> claimed[i] != claimed[j]
      requires |outcomes| == |claimed|
      modifies this`published, this`attempts, this`accepted
      ensures CycleEnded(claimed, outcomes, crashAfterPublish, r, tried)
      ensures r.Ok? ==> published == old(published) + SetOf(claimed) && attempts == Bumped(old(attempts), claimed)
      ensures accepted == old(accepted) + Events(rows, claimed[..Sent(outcomes, tried)])
    {
      tried := 0;
      for i := 0 to |claimed|
        invariant tried == i
        invariant forall k :: 0 <= k < i ==> outcomes[k].Confirmed?
        invariant i > 0 ==> !crashAfterPublish
        invariant published == old(published) + SetOf(claimed[..i])
        invariant attempts == Bumped(old(attempts), claimed[..i])
        invariant accepted == old(accepted) + Events(rows, claimed[..i])
      {
        var row := claimed[i];
        tried := i + 1;
        MarkNext(old(attempts), rows, claimed, i);
        if !outcomes[i].FailedAndLost? {
          accepted := accepted + [rows[row].event];
        }
        if !outcomes[i].Confirmed? {
          return Err(PublishFailed(row)), tried;
        }
        if crashAfterPublish {
          return Err(Crashed), tried;
        }
        published := published + {row};
        attempts := attempts[row := attempts[row] + 1];
      }
      assert claimed[..|claimed|] == claimed;
      r := Ok(tried);
    }

    /**
     `publishPending` over the rows its SELECT claimed; `outcomes[i]` is how the publish of the i-th one ends. A cycle
     that returns has published and marked all of them. A cycle that throws has marked none, however many it had
     published before; those messages stay with the broker, and only the row whose publish failed gets an attempt.
     */
    method PublishPending(claimed: seq<nat>, outcomes: seq<PublishOutcome>, crashAfterPublish: bool)
      returns (r: Result<nat, RelayError>, tried: nat)
      requires Valid()
      requires forall i :: 0 <= i < |claimed| ==> claimed[i] in rows && claimed[i] !in published
      requires forall i, j :: 0 <= i < j < |claimed| ==> claimed[i] != claimed[j]
      requires |outcomes| == |claimed|
      modifies this`published, this`attempts, this`accepted
      ensures Valid() && CycleEnded(claimed, outcomes, crashAfterPublish, r, tried)
      ensures accepted == old(accepted) + Events(rows, claimed[..Sent(outcomes, tried)])
      ensures match r
              case Ok(n) => published == old(published) + SetOf(claimed) && attempts == Bumped(old(attempts), claimed)
              case Err(Crashed) => published == old(published) && attempts == old(attempts)
              case Err(PublishFailed(row)) =>
                && published == old(published)
                && row in old(attempts) && attempts == old(attempts)[row := old(attempts)[row] + 1]
    {
      var savedPublished, savedAttempts := published, attempts;
      r, tried := RunCycle(claimed, outcomes, crashAfterPublish);
      if r.Err? {
        published, attempts := savedPublished, savedAttempts;
        if r.error.PublishFailed? {
          attempts := attempts[r.error.row := attempts[r.error.row] + 1];
        }
      }
    }
  }

  /** How many of the claimed rows' events the broker has accepted after `tried` publishes. */
  function Sent(outcomes: seq<PublishOutcome>, tried: nat): nat
  {
    if 0 < tried <= |outcomes| && outcomes[tried - 1].FailedAndLost? then tried - 1 else tried
  }

  /** A cycle stops at the first publish that fails, or at the first one if told to crash; else it does them all. */
  ghost predicate CycleEnded(claimed: seq<nat>, outcomes: seq<PublishOutcome>, crashAfterPublish: bool,
                             r: Result<nat, RelayError>, tried: nat)
  {
    && tried <= |claimed| == |outcomes|
    && (forall i :: 0 <= i < tried - 1 ==> outcomes[i].Confirmed?)
    && match r
       case Ok(n) => n == tried == |claimed| && (n > 0 ==> outcomes[n - 1].Confirmed? && !crashAfterPublish)
       case Err(Crashed) => crashAfterPublish && tried > 0 && outcomes[tried - 1].Confirmed?
       case Err(PublishFailed(row)) => tried > 0 && row == claimed[tried - 1] && !outcomes[tried - 1].Confirmed?
  }

  function Events(rows: map<nat, Row>, claimed: seq<nat>): seq<Event>
    requires forall i :: 0 <= i < |claimed| ==> claimed[i] in rows
  {
    seq(|claimed|, i requires 0 <= i < |claimed| => rows[claimed[i]].event)
  }

  /** One more turn of the loop: what it adds to the marks, the attempts and the accepted events. */
  lemma MarkNext(attempts: map<nat, nat>, rows: map<nat, Row>, claimed: seq<nat>, i: nat)
    requires i < |claimed| && attempts.Keys == rows.Keys
    requires forall k :: 0 <= k < |claimed| ==> claimed[k] in rows
    requires forall j, k :: 0 <= j < k < |claimed| ==> claimed[j] != claimed[k]
    ensures SetOf(claimed[..i + 1]) == SetOf(claimed[..i]) + {claimed[i]}
    ensures claimed[i] in Bumped(attempts, claimed[..i])
    ensures Bumped(attempts, claimed[..i + 1])
            == Bumped(attempts, claimed[..i])[claimed[i] := Bumped(attempts, claimed[..i])[claimed[i]] + 1]
    ensures Events(rows, claimed[..i + 1]) == Events(rows, claimed[..i]) + [rows[claimed[i]].event]
  {
    assert claimed[..i + 1] == claimed[..i] + [claimed[i]];
    MarkSnoc(attempts, rows, claimed[..i], claimed[i]);
  }

  /** Marking one more row. */
  lemma MarkSnoc(attempts: map<nat, nat>, rows: map<nat, Row>, marked: seq<nat>, row: nat)
    requires row in attempts && row !in marked && row in rows
    requires forall i :: 0 <= i < |marked| ==> marked[i] in rows
    ensures SetOf(marked + [row]) == SetOf(marked) + {row}
    ensures Bumped(attempts, marked + [row]) == Bumped(attempts, marked)[row := attempts[row] + 1]
    ensures Bumped(attempts, marked)[row] == attempts[row]
    ensures Events(rows, marked + [row]) == Events(rows, marked) + [rows[row].event]
  {
    SetOfSnoc(marked, row);
  }

  lemma SetOfSnoc(xs: seq<nat>, x: nat)
    ensures SetOf(xs + [x]) == SetOf(xs) + {x}
  {
    assert (xs + [x])[|xs|] in SetOf(xs + [x]);
    forall y | y in SetOf(xs) ensures y in SetOf(xs + [x]) {
      var i :| 0 <= i < |xs| && xs[i] == y;
      assert (xs + [x])[i] == y;
    }
  }
}
