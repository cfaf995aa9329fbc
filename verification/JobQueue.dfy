/**
 Job workers over the `jobs` table: any number of `runWorker` loops, each claiming with FOR UPDATE SKIP LOCKED inside a
 transaction. A worker may die anywhere. An action that is not possible changes nothing.
 */
module JobQueue {
  import opened Prelude

  datatype Job = Job(done: bool, count: nat, worker: Option<string>)

  /** `completeJob`: an UPDATE by id, with no condition on the status. */
  function Completed(job: Job, name: string): Job
  {
    Job(true, job.count + 1, Some(name))
  }

  predicate IsPending(jobs: map<nat, Job>, j: nat)
  {
    j in jobs && !jobs[j].done
  }

  datatype Phase =
    | Ready // at the top of the loop
    | Claimed(job: nat) // holds the row lock
    | Updated(job: nat, row: Job) // ran `completeJob`, not yet committed
    | Committed(job: nat) // not yet pushed to its list
    | Checking // the claim found nothing
    | Returned
    | Crashed

  datatype Worker = Worker(name: string, ids: set<nat>, processed: seq<nat>, phase: Phase)

  /** `doneBy` is the history: which worker committed a job in this run. */
  datatype State = State(jobs: map<nat, Job>, workers: map<nat, Worker>, doneBy: map<nat, nat>)

  datatype Action =
    | Insert(job: nat)
    | Start(w: nat, name: string, ids: set<nat>)
    | Claim(w: nat, found: Option<nat>)
    | Complete(w: nat)
    | Commit(w: nat)
    | Push(w: nat)
    | Check(w: nat)
    | Crash(w: nat)

  predicate Locks(worker: Worker, j: nat)
  {
    (worker.phase.Claimed? || worker.phase.Updated?) && worker.phase.job == j
  }

  ghost predicate Locked(s: State, j: nat)
  {
    exists w :: w in s.workers && Locks(s.workers[w], j)
  }

  ghost predicate Claimable(s: State, w: nat, j: nat)
    requires w in s.workers
  {
    j in s.workers[w].ids && IsPending(s.jobs, j) && !Locked(s, j)
  }

  /** What the SELECT returns: the least claimable id, or no row. */
  ghost predicate IsClaim(s: State, w: nat, found: Option<nat>)
    requires w in s.workers
  {
    match found
    case None => forall j :: !Claimable(s, w, j)
    case Some(least) => Claimable(s, w, least) && forall j :: Claimable(s, w, j) ==> least <= j
  }

  /** A new row gets an id nobody has named before. */
  ghost predicate FreshId(s: State, j: nat)
  {
    j !in s.jobs && forall w :: w in s.workers ==> j !in s.workers[w].ids
  }

  function Go(s: State, w: nat, phase: Phase): State
    requires w in s.workers
  {
    s.(workers := s.workers[w := s.workers[w].(phase := phase)])
  }

  function ClaimOne(s: State, w: nat, found: Option<nat>): State
    requires w in s.workers
  {
    Go(s, w, if found.Some? then Claimed(found.value) else Checking)
  }

  function CompleteOne(s: State, w: nat): State
    requires w in s.workers && s.workers[w].phase.Claimed?
  {
    var j := s.workers[w].phase.job;
    if j in s.jobs then Go(s, w, Updated(j, Completed(s.jobs[j], s.workers[w].name))) else s
  }

  function CommitOne(s: State, w: nat): State
    requires w in s.workers && s.workers[w].phase.Updated?
  {
    var Updated(j, row) := s.workers[w].phase;
    Go(s, w, Committed(j)).(jobs := s.jobs[j := row], doneBy := s.doneBy[j := w])
  }

  function PushOne(s: State, w: nat): State
    requires w in s.workers && s.workers[w].phase.Committed?
  {
    var worker := s.workers[w];
    s.(workers := s.workers[w := worker.(processed := worker.processed + [worker.phase.job], phase := Ready)])
  }

  ghost predicate Drained(s: State, ids: set<nat>)
  {
    forall j :: j in ids ==> !IsPending(s.jobs, j)
  }

  ghost predicate Enabled(s: State, a: Action)
  {
    match a
    case Insert(j) => FreshId(s, j)
    case Start(w, _, _) => w !in s.workers
    case Claim(w, found) => w in s.workers && s.workers[w].phase.Ready? && IsClaim(s, w, found)
    case Complete(w) => w in s.workers && s.workers[w].phase.Claimed?
    case Commit(w) => w in s.workers && s.workers[w].phase.Updated?
    case Push(w) => w in s.workers && s.workers[w].phase.Committed?
    case Check(w) => w in s.workers && s.workers[w].phase.Checking?
    case Crash(w) => w in s.workers && !s.workers[w].phase.Returned?
  }

  ghost function Next(s: State, a: Action): State
  {
    if !Enabled(s, a) then s else
    match a
    case Insert(j) => s.(jobs := s.jobs[j := Job(false, 0, None)])
    case Start(w, name, ids) => s.(workers := s.workers[w := Worker(name, ids, [], Ready)])
    case Claim(w, found) => ClaimOne(s, w, found)
    case Complete(w) => CompleteOne(s, w)
    case Commit(w) => CommitOne(s, w)
    case Push(w) => PushOne(s, w)
    case Check(w) => Go(s, w, if Drained(s, s.workers[w].ids) then Returned else Ready)
    case Crash(w) => Go(s, w, Crashed)
  }

  ghost function Exec(s: State, actions: seq<Action>): State
  {
    if actions == [] then s
    else Next(Exec(s, actions[..|actions| - 1]), actions[|actions| - 1])
  }

  predicate CountsOnce(job: Job)
  {
    job.count == if job.done then 1 else 0
  }

  ghost predicate Initial(s: State)
  {
    && s.workers == map[] && s.doneBy == map[]
    && forall j :: j in s.jobs ==> CountsOnce(s.jobs[j])
  }

  // ----- the invariant

  /** Rows are counted once, and the history says which ones this run completed. */
  ghost predicate JobInv(init: State, s: State, j: nat)
  {
    && (j in init.jobs ==> j in s.jobs && (init.jobs[j].done ==> s.jobs[j].done))
    && (j in s.jobs ==> CountsOnce(s.jobs[j]))
    && (j in s.doneBy <==> j in s.jobs && s.jobs[j].done && (j in init.jobs ==> !init.jobs[j].done))
    && (j in s.doneBy ==> s.doneBy[j] in s.workers && Credited(s, j, s.workers[s.doneBy[j]]))
  }

  /** The worker that completed `j` has it in its list, is about to, or died. */
  ghost predicate Credited(s: State, j: nat, worker: Worker)
  {
    && j in worker.ids && j in s.jobs && s.jobs[j].worker == Some(worker.name)
    && (j in worker.processed || worker.phase == Committed(j) || worker.phase.Crashed?)
  }

  predicate NoDups(ids: seq<nat>)
  {
    forall i, k :: 0 <= i < k < |ids| ==> ids[i] != ids[k]
  }

  ghost predicate WorkerInv(s: State, w: nat)
    requires w in s.workers
  {
    var worker := s.workers[w];
    && NoDups(worker.processed)
    && (forall j :: j in worker.processed ==> j in s.doneBy && s.doneBy[j] == w)
    && match worker.phase
       case Claimed(j) => IsPending(s.jobs, j) && j in worker.ids
       case Updated(j, row) => IsPending(s.jobs, j) && j in worker.ids && row == Completed(s.jobs[j], worker.name)
       case Committed(j) => j in s.doneBy && s.doneBy[j] == w && j !in worker.processed
       case Returned => Drained(s, worker.ids)
       case _ => true
  }

  ghost predicate LocksExclusive(s: State)
  {
    forall v, w, j :: v in s.workers && w in s.workers && Locks(s.workers[v], j) && Locks(s.workers[w], j) ==> v == w
  }

  ghost predicate Inv(init: State, s: State)
  {
    && LocksExclusive(s)
    && (forall j :: JobInv(init, s, j))
    && (forall w :: w in s.workers ==> WorkerInv(s, w))
  }

  lemma ClaimKeepsExclusive(s: State, w: nat, found: Option<nat>)
    requires LocksExclusive(s) && w in s.workers && IsClaim(s, w, found)
    ensures LocksExclusive(ClaimOne(s, w, found))
  {
  }

  lemma StepKeepsExclusive(init: State, s: State, a: Action)
    requires Inv(init, s)
    ensures LocksExclusive(Next(s, a))
  {
    if a.Claim? && Enabled(s, a) {
      ClaimKeepsExclusive(s, a.w, a.found);
    }
  }

  lemma CommitKeepsJob(init: State, s: State, w: nat, j: nat)
    requires Inv(init, s) && w in s.workers && s.workers[w].phase.Updated?
    ensures JobInv(init, CommitOne(s, w), j)
  {
    var mine := s.workers[w].phase.job;
    assert JobInv(init, s, j) && JobInv(init, s, mine) && WorkerInv(s, w);
  }

  lemma StepKeepsJob(init: State, s: State, a: Action, j: nat)
    requires Inv(init, s)
    ensures JobInv(init, Next(s, a), j)
  {
    assert JobInv(init, s, j);
    if a.Commit? && Enabled(s, a) {
      CommitKeepsJob(init, s, a.w, j);
    }
  }

  lemma CommitKeepsWorker(init: State, s: State, w: nat, v: nat)
    requires Inv(init, s) && w in s.workers && s.workers[w].phase.Updated? && v in s.workers
    ensures WorkerInv(CommitOne(s, w), v)
  {
    var mine := s.workers[w].phase.job;
    assert WorkerInv(s, v) && WorkerInv(s, w) && JobInv(init, s, mine);
    assert Locks(s.workers[w], mine);
  }

  lemma PushKeepsWorker(s: State, w: nat)
    requires w in s.workers && s.workers[w].phase.Committed? && WorkerInv(s, w)
    ensures WorkerInv(PushOne(s, w), w)
  {
  }

  lemma StepKeepsWorker(init: State, s: State, a: Action, v: nat)
    requires Inv(init, s) && v in Next(s, a).workers
    ensures WorkerInv(Next(s, a), v)
  {
    if v in s.workers {
      assert WorkerInv(s, v);
    }
    if a.Commit? && Enabled(s, a) {
      CommitKeepsWorker(init, s, a.w, v);
    } else if a.Push? && Enabled(s, a) && v == a.w {
      PushKeepsWorker(s, v);
    }
  }

  lemma StepKeepsInv(init: State, s: State, a: Action)
    requires Inv(init, s)
    ensures Inv(init, Next(s, a))
  {
    StepKeepsExclusive(init, s, a);
    forall j ensures JobInv(init, Next(s, a), j) {
      StepKeepsJob(init, s, a, j);
    }
    forall w | w in Next(s, a).workers ensures WorkerInv(Next(s, a), w) {
      StepKeepsWorker(init, s, a, w);
    }
  }

  lemma {:induction false} ExecKeepsInv(init: State, actions: seq<Action>)
    requires Initial(init)
    ensures Inv(init, Exec(init, actions))
  {
    if actions != [] {
      ExecKeepsInv(init, actions[..|actions| - 1]);
      StepKeepsInv(init, Exec(init, actions[..|actions| - 1]), actions[|actions| - 1]);
    }
  }

  // ----- theorems over every run

  /** No job is processed twice: its count is 1 exactly when it is done, although `completeJob` checks no status. */
  lemma ProcessedOnce(init: State, actions: seq<Action>, j: nat)
    requires Initial(init) && j in Exec(init, actions).jobs
    ensures var job := Exec(init, actions).jobs[j]; job.count <= 1 && (job.count == 1 <==> job.done)
  {
    ExecKeepsInv(init, actions);
    assert JobInv(init, Exec(init, actions), j);
  }

  /** An id stands in the lists of all workers at most once in all, and its row names that worker. */
  lemma ListsAreDisjoint(init: State, actions: seq<Action>, v: nat, i: nat, w: nat, k: nat)
    requires Initial(init)
    requires var s := Exec(init, actions);
             && v in s.workers && i < |s.workers[v].processed| && w in s.workers && k < |s.workers[w].processed|
             && s.workers[v].processed[i] == s.workers[w].processed[k]
    ensures v == w && i == k
    ensures var s := Exec(init, actions);
            var j := s.workers[w].processed[k];
            j in s.workers[w].ids && j in s.jobs && s.jobs[j].done && s.jobs[j].worker == Some(s.workers[w].name)
  {
    ExecKeepsInv(init, actions);
    var s := Exec(init, actions);
    var j := s.workers[w].processed[k];
    assert WorkerInv(s, v) && WorkerInv(s, w) && JobInv(init, s, j);
    assert s.workers[v].processed[i] in s.workers[v].processed && j in s.workers[w].processed;
  }

  /** A worker that has returned left none of its ids pending. */
  lemma ReturnsDrained(init: State, actions: seq<Action>, w: nat)
    requires Initial(init) && w in Exec(init, actions).workers && Exec(init, actions).workers[w].phase.Returned?
    ensures Drained(Exec(init, actions), Exec(init, actions).workers[w].ids)
  {
    ExecKeepsInv(init, actions);
    assert WorkerInv(Exec(init, actions), w);
  }

  /** The ids in the lists of the workers that share the id set. */
  ghost function Listed(s: State, ids: set<nat>): set<nat>
  {
    set w, j | w in s.workers && s.workers[w].ids == ids && j in s.workers[w].processed :: j
  }

  /**
   When the workers sharing an id set have all returned, and no other worker's set meets it, their lists together hold
   exactly the ids of the set that were there and not done before.
   */
  lemma ListsCoverPending(init: State, actions: seq<Action>, ids: set<nat>, some: nat)
    requires Initial(init)
    requires var s := Exec(init, actions);
             && some in s.workers && s.workers[some].ids == ids
             && forall w :: w in s.workers ==>
                  if s.workers[w].ids == ids then s.workers[w].phase.Returned? else s.workers[w].ids !! ids
    ensures var s := Exec(init, actions);
            Listed(s, ids) == set j | j in ids && j in s.jobs && (j in init.jobs ==> !init.jobs[j].done)
    ensures ids <= init.jobs.Keys ==> Listed(Exec(init, actions), ids) == set j | j in ids && !init.jobs[j].done
  {
    ExecKeepsInv(init, actions);
    var s := Exec(init, actions);
    assert WorkerInv(s, some);
    forall j ensures j in Listed(s, ids) <==> j in ids && j in s.jobs && (j in init.jobs ==> !init.jobs[j].done) {
      assert JobInv(init, s, j);
      if j in Listed(s, ids) {
        var w :| w in s.workers && s.workers[w].ids == ids && j in s.workers[w].processed;
        assert WorkerInv(s, w);
      }
      if j in ids && j in s.jobs && (j in init.jobs ==> !init.jobs[j].done) {
        assert j in s.doneBy;
        var w := s.doneBy[j];
        assert Credited(s, j, s.workers[w]);
        assert s.workers[w].ids == ids && j in s.workers[w].processed;
      }
    }
    forall j | j in init.jobs ensures j in s.jobs {
      assert JobInv(init, s, j);
    }
  }

  /** The state once `v` has run what is left of its transaction. */
  ghost function AfterCommitOf(s: State, v: nat): State
    requires v in s.workers
  {
    if s.workers[v].phase.Claimed? then Next(Next(s, Complete(v)), Commit(v)) else Next(s, Commit(v))
  }

  /**
   "Busy now", not "empty": when a claim finds nothing although an id of the set is pending, another worker that also
   names this id has its row locked. If that worker commits, the job is done and counted once; if it dies instead, the
   row is claimable again.
   */
  lemma EmptyClaimMeansBusy(init: State, actions: seq<Action>, w: nat, j: nat) returns (v: nat)
    requires Initial(init)
    requires var s := Exec(init, actions);
             && w in s.workers && s.workers[w].phase.Ready? && IsClaim(s, w, None)
             && j in s.workers[w].ids && IsPending(s.jobs, j)
    ensures var s := Exec(init, actions);
            && v != w && v in s.workers && j in s.workers[v].ids && Locks(s.workers[v], j)
            && (var after := AfterCommitOf(s, v).jobs; j in after && after[j].done && after[j].count == 1)
            && w in Next(s, Crash(v)).workers && Claimable(Next(s, Crash(v)), w, j)
  {
    ExecKeepsInv(init, actions);
    var s := Exec(init, actions);
    assert !Claimable(s, w, j);
    v :| v in s.workers && Locks(s.workers[v], j);
    assert WorkerInv(s, v) && JobInv(init, s, j);
    CrashFrees(init, s, v, j);
  }

  lemma CrashFrees(init: State, s: State, v: nat, j: nat)
    requires Inv(init, s) && v in s.workers && Locks(s.workers[v], j)
    ensures !Locked(Next(s, Crash(v)), j)
  {
    var s' := Next(s, Crash(v));
    forall u | u in s'.workers ensures !Locks(s'.workers[u], j) {
      assert u in s.workers;
    }
  }

  // ----- the pending count

  function PendingIds(jobs: map<nat, Job>): set<nat>
  {
    set j | j in jobs && !jobs[j].done
  }

  ghost function Pending(s: State): set<nat>
  {
    PendingIds(s.jobs)
  }

  lemma CompletedIsNotPending(jobs: map<nat, Job>, j: nat, row: Job)
    requires IsPending(jobs, j) && row.done
    ensures PendingIds(jobs[j := row]) == PendingIds(jobs) - {j}
    ensures |PendingIds(jobs[j := row])| == |PendingIds(jobs)| - 1
  {
  }

  lemma InsertAddsPending(jobs: map<nat, Job>, j: nat, row: Job)
    requires j !in jobs && !row.done
    ensures |PendingIds(jobs[j := row])| == |PendingIds(jobs)| + 1 && |jobs[j := row]| == |jobs| + 1
  {
    assert PendingIds(jobs[j := row]) == PendingIds(jobs) + {j};
  }

  lemma OthersMoveNothing(s: State, a: Action)
    requires !a.Commit? && !a.Insert?
    ensures Next(s, a).jobs == s.jobs && Next(s, a).doneBy == s.doneBy
  {
  }

  /** Pending jobs leave only by commits, one each; they come only by inserts. */
  lemma StepMovesPending(init: State, s: State, a: Action)
    requires Inv(init, s)
    ensures var s' := Next(s, a);
            && |Pending(s')| + |s'.doneBy| - |s'.jobs| == |Pending(s)| + |s.doneBy| - |s.jobs|
            && (a.Commit? && Enabled(s, a) ==> |Pending(s')| == |Pending(s)| - 1)
            && (!a.Commit? ==> s'.doneBy == s.doneBy)
            && (!a.Insert? ==> Pending(s') <= Pending(s) && |s'.jobs| == |s.jobs|)
  {
    if a.Commit? {
      if Enabled(s, a) {
        CommitMovesPending(init, s, a.w);
      }
    } else if a.Insert? {
      if Enabled(s, a) {
        InsertAddsPending(s.jobs, a.job, Job(false, 0, None));
      }
    } else {
      OthersMoveNothing(s, a);
    }
  }

  lemma CommitMovesPending(init: State, s: State, w: nat)
    requires Inv(init, s) && w in s.workers && s.workers[w].phase.Updated?
    ensures var s' := CommitOne(s, w);
            && Pending(s') == Pending(s) - {s.workers[w].phase.job} && |Pending(s')| == |Pending(s)| - 1
            && |s'.doneBy| == |s.doneBy| + 1 && |s'.jobs| == |s.jobs|
  {
    var s' := CommitOne(s, w);
    var j := s.workers[w].phase.job;
    assert WorkerInv(s, w) && JobInv(init, s, j);
    CompletedIsNotPending(s.jobs, j, s.workers[w].phase.row);
    assert s'.doneBy.Keys == s.doneBy.Keys + {j};
    assert |s'.doneBy.Keys| == |s.doneBy.Keys| + 1;
    assert s'.jobs.Keys == s.jobs.Keys;
  }

  /** Over every run: jobs pending now plus jobs completed equal jobs pending at first plus jobs inserted. */
  lemma {:induction false} PendingIsConserved(init: State, actions: seq<Action>)
    requires Initial(init)
    ensures var s := Exec(init, actions);
            |Pending(s)| + |s.doneBy| == |Pending(init)| + |s.jobs| - |init.jobs|
  {
    if actions != [] {
      var n := |actions| - 1;
      PendingIsConserved(init, actions[..n]);
      ExecKeepsInv(init, actions[..n]);
      StepMovesPending(init, Exec(init, actions[..n]), actions[n]);
    }
  }

  // ----- one worker alone, as the loop it is

  /** The rows after one worker completed `ids`. */
  function AllCompleted(jobs: map<nat, Job>, ids: seq<nat>, name: string): map<nat, Job>
  {
    map j | j in jobs :: if j in ids then Completed(jobs[j], name) else jobs[j]
  }

  predicate Ascending(ids: seq<nat>)
  {
    forall i, k :: 0 <= i < k < |ids| ==> ids[i] < ids[k]
  }

  class Tables {
    var jobs: map<nat, Job>

    /** The claim's scan when nobody else holds a row. */
    method ClaimJob(ids: seq<nat>) returns (found: Option<nat>)
      ensures found.None? ==> forall j :: j in ids ==> !IsPending(jobs, j)
      ensures found.Some? ==> found.value in ids && IsPending(jobs, found.value)
      ensures found.Some? ==> forall j :: j in ids && IsPending(jobs, j) ==> found.value <= j
    {
      found := None;
      for i := 0 to |ids|
        invariant found.None? ==> forall j :: j in ids[..i] ==> !IsPending(jobs, j)
        invariant found.Some? ==> found.value in ids && IsPending(jobs, found.value)
        invariant found.Some? ==> forall j :: j in ids[..i] && IsPending(jobs, j) ==> found.value <= j
      {
        assert ids[..i + 1] == ids[..i] + [ids[i]];
        if ids[i] in jobs && !jobs[ids[i]].done && (found.None? || ids[i] < found.value) {
          found := Some(ids[i]);
        }
      }
      assert ids[..|ids|] == ids;
    }

    method CompleteJob(j: nat, name: string)
      modifies this
      ensures jobs == if j in old(jobs) then old(jobs)[j := Completed(old(jobs)[j], name)] else old(jobs)
    {
      if j in jobs {
        jobs := jobs[j := Completed(jobs[j], name)];
      }
    }

    /** Alone, a worker drains the pending ids in ascending order, each once, and touches no other row. */
    method RunWorker(ids: seq<nat>, name: string) returns (processed: seq<nat>)
      modifies this
      ensures Ascending(processed)
      ensures forall j :: j in processed <==> j in ids && IsPending(old(jobs), j)
      ensures jobs == AllCompleted(old(jobs), processed, name)
      ensures forall j :: j in ids ==> !IsPending(jobs, j)
    {
      processed := [];
      var start := jobs;
      while true
        invariant Ascending(processed)
        invariant forall j :: j in processed ==> j in ids && IsPending(start, j)
        invariant forall j, k :: j in processed && k in ids && IsPending(jobs, k) ==> j < k
        invariant jobs == AllCompleted(start, processed, name)
        decreases |PendingIds(jobs)|
      {
        var found := ClaimJob(ids);
        if found.None? {
          break;
        }
        assert forall i :: 0 <= i < |processed| ==> processed[i] in processed && processed[i] < found.value;
        CompletedIsNotPending(jobs, found.value, Completed(jobs[found.value], name));
        CompleteJob(found.value, name);
        processed := processed + [found.value];
      }
      forall j | j in ids && IsPending(start, j) ensures j in processed {
        assert !IsPending(jobs, j);
      }
    }
  }
}
