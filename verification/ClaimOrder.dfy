/** The order in which jobs are claimed. In the production store a job waits for exactly the claims of
    the jobs stamped before it; in the SQLite store the order is that of the stored text. */
module ClaimOrder {
  import opened Domain
  import opened Store
  import opened RunnerLoop
  import opened Protocol
  import opened Safety
  import opened SharedSteps
  import opened Preservation
  import opened Effects

  // ---------- MySQL: first stamped, first claimed ----------

  // The queued jobs stamped before a job.
  ghost function Ahead(db: Db, id: Id): set<Id>
    requires id in db.jobs
  {
    set j | j in db.jobs && db.jobs[j].status == JobStatus.Queued && db.jobs[j].createdAt < db.jobs[id].createdAt
  }

  function ClaimsIn(steps: seq<Step>): nat {
    if steps == [] then 0
    else ClaimsIn(steps[..|steps| - 1]) + (if steps[|steps| - 1].ClaimJob? then 1 else 0)
  }

  // In `later`, no other job has the stamp of `id`, and jobs that `earlier` did not know are stamped later.
  ghost predicate StampedInOrder(earlier: Db, later: Db, id: Id)
    requires id in later.jobs
  {
    forall j :: j in later.jobs && j != id ==>
      && later.jobs[j].createdAt != later.jobs[id].createdAt
      && (j !in earlier.jobs ==> later.jobs[j].createdAt > later.jobs[id].createdAt)
  }

  // A claim takes the oldest queued job: one of those ahead, or the job itself when none is.
  lemma ClaimTakesOneAhead(db: Db, id: Id, claimed: Id)
    requires IsQueued(db, id) && IsOldestQueued(db, claimed) && db.jobs[claimed].id == claimed
    requires forall j :: j in db.jobs && j != id ==> db.jobs[j].createdAt != db.jobs[id].createdAt
    ensures claimed == id <==> Ahead(db, id) == {}
    ensures claimed != id ==>
              var db' := PutJob(db, db.jobs[claimed].(status := Running));
              IsQueued(db', id) && db'.jobs[id] == db.jobs[id] && |Ahead(db', id)| == |Ahead(db, id)| - 1
  {
    if claimed != id {
      assert claimed in Ahead(db, id);
      var db' := PutJob(db, db.jobs[claimed].(status := Running));
      assert Ahead(db', id) == Ahead(db, id) - {claimed};
    } else {
      assert forall j :: IsQueued(db, j) ==> db.jobs[id].createdAt <= db.jobs[j].createdAt;
    }
  }

  // Any other effect leaves the queue ahead of a job as it is.
  lemma OthersDoNotOvertake(s: Shared, x: Effect, id: Id)
    requires Allowed(s, x) && KeepsQueued(s, x) && IsQueued(s.db, id)
    requires forall j :: j in After(s, x).db.jobs && j !in s.db.jobs ==> After(s, x).db.jobs[j].createdAt > s.db.jobs[id].createdAt
    ensures IsQueued(After(s, x).db, id) && After(s, x).db.jobs[id] == s.db.jobs[id]
    ensures Ahead(After(s, x).db, id) == Ahead(s.db, id)
  {
    hide Transition, Creation, JobOk, OwnsWorkdir, MaySettle, MayApprove, MayWritePlan, SourceOk, IsDoneApply;
    var s' := After(s, x);
    forall j ensures j in Ahead(s'.db, id) <==> j in Ahead(s.db, id) {
    }
  }

  // The state of the queue ahead of a job, k places long when it was looked at first, after some claims.
  ghost predicate Waiting(earlier: Db, db: Db, id: Id, claims: nat) {
    && IsQueued(earlier, id) && IsQueued(db, id)
    && db.jobs[id] == earlier.jobs[id]
    && |Ahead(db, id)| == |Ahead(earlier, id)| - claims
  }

  lemma ClaimWhileWaiting(earlier: Db, s: Shared, claimed: Id, id: Id, claims: nat)
    requires RowsOk(s) && Waiting(earlier, s.db, id, claims) && IsOldestQueued(s.db, claimed)
    requires var db' := PutJob(s.db, s.db.jobs[claimed].(status := Running));
             forall j :: j in db'.jobs && j != id ==> db'.jobs[j].createdAt != db'.jobs[id].createdAt
    ensures claims == |Ahead(earlier, id)| ==> claimed == id
    ensures claims < |Ahead(earlier, id)| ==>
              claimed != id && Waiting(earlier, PutJob(s.db, s.db.jobs[claimed].(status := Running)), id, claims + 1)
  {
    IdsAreKeys(s, claimed);
    hide RowsOk, Ahead;
    var db' := PutJob(s.db, s.db.jobs[claimed].(status := Running));
    forall j | j in s.db.jobs && j != id ensures s.db.jobs[j].createdAt != s.db.jobs[id].createdAt {
      assert db'.jobs[j].createdAt == s.db.jobs[j].createdAt && db'.jobs[id].createdAt == s.db.jobs[id].createdAt;
    }
    ClaimTakesOneAhead(s.db, id, claimed);
    AheadEmpty(s.db, id);
  }

  lemma OtherWhileWaiting(earlier: Db, s: Shared, x: Effect, id: Id, claims: nat)
    requires Allowed(s, x) && KeepsQueued(s, x) && Waiting(earlier, s.db, id, claims)
    requires earlier.jobs.Keys <= s.db.jobs.Keys
    requires id in After(s, x).db.jobs && StampedInOrder(earlier, After(s, x).db, id)
    ensures Waiting(earlier, After(s, x).db, id, claims)
  {
    hide Allowed, Ahead, After, KeepsQueued;
    KeysKept(s, x);
    SameRow(s, x, id);
    OthersDoNotOvertake(s, x, id);
  }

  lemma StepWhileWaiting(earlier: Db, w: World, step: Step, id: Id, claims: nat)
    requires Inv(w) && Enabled(w, step) && Waiting(earlier, w.shared.db, id, claims)
    requires earlier.jobs.Keys <= w.shared.db.jobs.Keys
    requires id in Exec(w, step).shared.db.jobs && StampedInOrder(earlier, Exec(w, step).shared.db, id)
    ensures step.ClaimJob? && claims == |Ahead(earlier, id)| ==> step.job == id
    ensures step.ClaimJob? && claims < |Ahead(earlier, id)| ==>
              step.job != id && Waiting(earlier, Exec(w, step).shared.db, id, claims + 1)
    ensures !step.ClaimJob? ==> Waiting(earlier, Exec(w, step).shared.db, id, claims)
    ensures earlier.jobs.Keys <= Exec(w, step).shared.db.jobs.Keys
  {
    hide *;
    var x := StepEffect(w, step);
    StepAllowed(w, step, x);
    QueueKept(w, step, x);
    KeysKept(w.shared, x);
    if step.ClaimJob? {
      ClaimIsOldest(w, step);
      InvParts(w);
      ClaimedStore(w.shared, x, step.job);
      StampsDiffer(earlier, Exec(w, step).shared.db, id);
      ClaimWhileWaiting(earlier, w.shared, step.job, id, claims);
    } else {
      OtherWhileWaiting(earlier, w.shared, x, id, claims);
    }
  }

  lemma ClaimedStore(s: Shared, x: Effect, j: Id)
    requires j in s.db.jobs && x == JobWrite(s.db.jobs[j].(status := Running))
    ensures After(s, x).db == PutJob(s.db, s.db.jobs[j].(status := Running))
  {
  }

  lemma StampsDiffer(earlier: Db, db: Db, id: Id)
    requires id in db.jobs && StampedInOrder(earlier, db, id)
    ensures forall j :: j in db.jobs && j != id ==> db.jobs[j].createdAt != db.jobs[id].createdAt
  {
  }

  lemma QueueKept(w: World, step: Step, x: Effect)
    requires Enabled(w, step) && Explains(w, step, x)
    ensures step.ClaimJob? ==> step.job in w.shared.db.jobs && x == JobWrite(w.shared.db.jobs[step.job].(status := Running))
    ensures !step.ClaimJob? ==> KeepsQueued(w.shared, x)
  {
    hide Allowed, After, Exec, DecidedBy, AboutToSettle;
  }

  lemma ClaimIsOldest(w: World, step: Step)
    requires Enabled(w, step) && step.ClaimJob?
    ensures IsOldestQueued(w.shared.db, step.job)
  {
  }

  lemma AheadEmpty(db: Db, id: Id)
    requires id in db.jobs
    ensures Ahead(db, id) == {} <==> |Ahead(db, id)| == 0
  {
  }

  lemma KeysKept(s: Shared, x: Effect)
    requires Allowed(s, x)
    ensures s.db.jobs.Keys <= After(s, x).db.jobs.Keys
  {
    hide Transition, Creation, JobOk, OwnsWorkdir, MaySettle, MayApprove, MayWritePlan, SourceOk, IsDoneApply;
  }

  lemma SameRow(s: Shared, x: Effect, id: Id)
    requires Allowed(s, x) && KeepsQueued(s, x) && IsQueued(s.db, id)
    ensures id in After(s, x).db.jobs && After(s, x).db.jobs[id] == s.db.jobs[id]
  {
    hide Transition, Creation, JobOk, OwnsWorkdir, MaySettle, MayApprove, MayWritePlan, SourceOk, IsDoneApply;
  }

  /** A job that is queued with k older queued jobs stays queued through the next k claims, whoever
      makes them, and the (k+1)-th claim takes it: stamps are distinct and later jobs stamped later. */
  lemma {:induction false} ClaimedInTurn(run: seq<World>, steps: seq<Step>, i: nat, n: nat, id: Id)
    requires IsTrace(run, steps) && i <= n < |steps|
    requires IsQueued(run[i].shared.db, id)
    requires forall m :: i <= m <= n + 1 ==>
               id in run[m].shared.db.jobs && StampedInOrder(run[i].shared.db, run[m].shared.db, id)
    requires ClaimsIn(steps[i..n]) <= |Ahead(run[i].shared.db, id)|
    ensures IsQueued(run[n].shared.db, id)
    ensures steps[n].ClaimJob? ==>
              (steps[n].job == id <==> ClaimsIn(steps[i..n]) == |Ahead(run[i].shared.db, id)|)
  {
    hide *;
    TraceLength(run, steps);
    WaitsWhile(run, steps, i, n, id);
    TraceStep(run, steps, n);
    StepWhileWaiting(run[i].shared.db, run[n], steps[n], id, ClaimsIn(steps[i..n]));
    StillQueued(run[i].shared.db, run[n].shared.db, id, ClaimsIn(steps[i..n]));
  }

  lemma StillQueued(earlier: Db, db: Db, id: Id, claims: nat)
    requires Waiting(earlier, db, id, claims)
    ensures IsQueued(db, id)
  {
  }

  lemma WaitsFromNow(db: Db, steps: seq<Step>, i: nat, id: Id)
    requires IsQueued(db, id) && i <= |steps|
    ensures Waiting(db, db, id, ClaimsIn(steps[i..i]))
  {
    assert steps[i..i] == [];
  }

  lemma {:induction false} WaitsWhile(run: seq<World>, steps: seq<Step>, i: nat, n: nat, id: Id)
    requires IsTrace(run, steps) && i <= n <= |steps|
    requires IsQueued(run[i].shared.db, id)
    requires forall m :: i <= m <= n ==>
               id in run[m].shared.db.jobs && StampedInOrder(run[i].shared.db, run[m].shared.db, id)
    requires ClaimsIn(steps[i..n]) <= |Ahead(run[i].shared.db, id)|
    ensures Waiting(run[i].shared.db, run[n].shared.db, id, ClaimsIn(steps[i..n]))
    ensures run[i].shared.db.jobs.Keys <= run[n].shared.db.jobs.Keys
  {
    hide *;
    TraceLength(run, steps);
    if i == n {
      WaitsFromNow(run[i].shared.db, steps, i, id);
    } else {
      ClaimsInLast(steps, i, n);
      WaitsWhile(run, steps, i, n - 1, id);
      TraceStep(run, steps, n - 1);
      StepWhileWaiting(run[i].shared.db, run[n - 1], steps[n - 1], id, ClaimsIn(steps[i..n - 1]));
    }
  }

  lemma ClaimsInLast(steps: seq<Step>, i: nat, n: nat)
    requires i < n <= |steps|
    ensures ClaimsIn(steps[i..n]) == ClaimsIn(steps[i..n - 1]) + (if steps[n - 1].ClaimJob? then 1 else 0)
  {
    assert steps[i..n][..n - i - 1] == steps[i..n - 1];
  }
}
