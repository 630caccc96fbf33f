/** What a runner that stops leaves behind: a job nobody will ever take up again. */
module Crashes {
  import opened Domain
  import opened Store
  import opened Handlers
  import opened RunnerLoop
  import opened Protocol
  import opened Safety
  import opened RunnerSteps
  import opened Preservation
  import opened Effects
  import opened Guarantees
  import opened Progress

  // A job that has left the queue, whose result is outstanding, and that no runner is at.
  ghost predicate Stranded(w: World, j: Id) {
    && j in w.shared.db.jobs && w.shared.db.jobs[j].status != JobStatus.Queued && j !in w.shared.settled
    && forall r :: Holds(w, r) ==> w.runners[r].job.id != j
  }

  // ---------- Nobody comes back to it ----------

  lemma MoveStaysAway(w: World, r: nat, c: Choice, q: nat, j: Id)
    requires Enabled(w, RunnerMove(r, c)) && (forall i :: Holds(w, i) ==> w.runners[i].job.id != j)
    requires Holds(Exec(w, RunnerMove(r, c)), q)
    ensures Exec(w, RunnerMove(r, c)).runners[q].job.id != j
  {
    hide Advance;
    var job, stage := w.runners[r].job, w.runners[r].stage;
    MoveKeepsErrand(w.shared, job, stage, c);
    if q == r {
      if stage.Auditing? {
        AuditingEnds(w.shared, job, stage, c);
      }
      assert Holds(w, r);
    } else {
      assert Holds(w, q);
    }
  }

  lemma AuditingEnds(s: Shared, job: Job, stage: Stage, c: Choice)
    requires stage.Auditing?
    ensures Advance(s, job, stage, c).runner == Idle
  {
  }

  // A claim takes a job that is still queued.
  lemma ClaimStaysAway(w: World, step: Step, q: nat, j: Id)
    requires Inv(w) && Enabled(w, step) && !step.RunnerMove? && Stranded(w, j)
    requires Holds(Exec(w, step), q)
    ensures Exec(w, step).runners[q].job.id != j
  {
    hide Inv, Exec, Enabled;
    RunnersAfter(w, step, q);
    if step.ClaimJob? {
      ClaimedWasQueued(w, step);
    }
  }

  lemma RunnersAfter(w: World, step: Step, q: nat)
    requires Enabled(w, step) && !step.RunnerMove? && Holds(Exec(w, step), q)
    ensures || (Holds(w, q) && Exec(w, step).runners[q] == w.runners[q])
            || (step.ClaimJob? && step.job in w.shared.db.jobs
                && Exec(w, step).runners[q].job.id == w.shared.db.jobs[step.job].id)
            || (step.ClaimJob? && step.job in w.shared.db.jobs && w.shared.db.jobs[step.job].id != step.job)
  {
    hide CreateDecision, Decide, LegacyJob, DerivedJob, Bundle;
  }

  lemma ClaimedWasQueued(w: World, step: Step)
    requires Inv(w) && Enabled(w, step) && step.ClaimJob?
    ensures step.job in w.shared.db.jobs && w.shared.db.jobs[step.job].id == step.job
    ensures w.shared.db.jobs[step.job].status == JobStatus.Queued
  {
    hide Inv;
    IdIsKey(w, step.job);
  }

  lemma OthersSettle(w: World, step: Step, x: Effect, j: Id)
    requires Stranded(w, j) && Enabled(w, step) && Explains(w, step, x)
    ensures j !in After(w.shared, x).settled
  {
    hide Allowed, Exec, DecidedBy;
    if x.Settlement? {
      SettlerStage(w, step, x);
      assert Holds(w, step.runner);
    }
  }

  lemma StaysOffTheQueue(w: World, x: Effect, j: Id)
    requires Allowed(w.shared, x) && j in w.shared.db.jobs && w.shared.db.jobs[j].status != JobStatus.Queued
    ensures j in After(w.shared, x).db.jobs && After(w.shared, x).db.jobs[j].status != JobStatus.Queued
  {
    hide Allowed, After;
    EffectIsMonotone(w.shared, x);
  }

  lemma StepKeepsStranded(w: World, step: Step, x: Effect, j: Id)
    requires Inv(w) && Enabled(w, step) && Explains(w, step, x) && Stranded(w, j)
    ensures Stranded(Exec(w, step), j)
  {
    hide Inv, Enabled, Explains, Allowed, After, Exec;
    StepAllowed(w, step, x);
    StaysOffTheQueue(w, x, j);
    OthersSettle(w, step, x, j);
    var w' := Exec(w, step);
    forall q | Holds(w', q) ensures w'.runners[q].job.id != j {
      if step.RunnerMove? {
        MoveStaysAway(w, step.runner, step.choice, q, j);
      } else {
        ClaimStaysAway(w, step, q, j);
      }
    }
  }

  // ---------- The crash ----------

  ghost predicate OnlyHolder(w: World, r: nat, j: Id) {
    && j in w.shared.db.jobs && w.shared.db.jobs[j].status != JobStatus.Queued && j !in w.shared.settled
    && forall q :: Holds(w, q) && q != r ==> w.runners[q].job.id != j
  }

  lemma HolderIsOnly(w: World, r: nat)
    requires Inv(w) && Holds(w, r)
    ensures OnlyHolder(w, r, w.runners[r].job.id)
  {
    hide StoreOk, RequestsOk, RunnerOk;
    HeldRow(w, r);
  }

  lemma CrashStrands(w: World, r: nat, j: Id)
    requires OnlyHolder(w, r, j)
    ensures Stranded(Exec(w, Crash(r)), j)
  {
  }

  lemma HeldRow(w: World, r: nat)
    requires Inv(w) && Holds(w, r)
    ensures var job := w.runners[r].job;
            && job.id in w.shared.db.jobs && w.shared.db.jobs[job.id].status != JobStatus.Queued && job.id !in w.shared.settled
            && w.shared.db.jobs[job.id].env == job.env
  {
    hide StoreOk, RequestsOk;
    assert RunnerOk(w.shared, w.runners[r]);
  }

  lemma {:induction false} StrandedForGood(run: seq<World>, steps: seq<Step>, i: nat, n: nat, r: nat)
    requires IsTrace(run, steps) && i < n <= |steps| && steps[i] == Crash(r) && Holds(run[i], r)
    ensures r in run[i].runners && run[i].runners[r].Busy? && Stranded(run[n], run[i].runners[r].job.id)
  {
    hide *;
    TraceLength(run, steps);
    TraceStep(run, steps, n - 1);
    HeldIsThere(run[i], r);
    if n == i + 1 {
      HolderIsOnly(run[i], r);
      CrashStrands(run[i], r, run[i].runners[r].job.id);
    } else {
      StrandedForGood(run, steps, i, n - 1, r);
      var x := StepEffect(run[n - 1], steps[n - 1]);
      StepKeepsStranded(run[n - 1], steps[n - 1], x, run[i].runners[r].job.id);
    }
  }

  /** A runner that stops while it holds a job of an environment leaves that environment busy with that
      job for ever: nobody takes the job up again, and no request or runner changes it. */
  lemma CrashLeavesBusy(run: seq<World>, steps: seq<Step>, i: nat, n: nat, r: nat)
    requires IsTrace(run, steps) && i < n <= |steps| && steps[i] == Crash(r)
    requires Holds(run[i], r) && run[i].runners[r].job.env != NONE
    ensures var job := run[i].runners[r].job;
            && job.env in run[n].shared.db.envs
            && run[n].shared.db.envs[job.env].lastJob == job.id
            && IsEnvironmentBusy(run[n].shared.db.envs[job.env].status)
            && job.id !in run[n].shared.settled
  {
    hide IsTrace, Stranded, Inv, RowsOk, OnlyLastUnsettled, Monotone, Exec, Enabled;
    TraceLength(run, steps);
    TraceIsRun(run, steps);
    StrandedForGood(run, steps, i, n, r);
    RunKeepsInv(run, i);
    RunKeepsInv(run, n);
    HeldRow(run[i], r);
    RunIsMonotone(run, i, n);
    StrandedRow(run[i].shared, run[n], run[i].runners[r].job.id);
    InvParts(run[n]);
    HeldJobIsLast(run[n].shared, run[i].runners[r].job.id);
  }

  lemma StrandedRow(s: Shared, w: World, j: Id)
    requires Monotone(s, w.shared) && j in s.db.jobs && Stranded(w, j)
    ensures j in w.shared.db.jobs && j !in w.shared.settled && w.shared.db.jobs[j].env == s.db.jobs[j].env
  {
  }
}
