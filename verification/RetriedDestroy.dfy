/** A retry of a failed destroy plan can never succeed: the retry clears the environment's workdir,
    which a destroy plan needs. */
module RetriedDestroy {
  import opened Domain
  import opened Validation
  import opened Store
  import opened Handlers
  import opened RunnerLoop
  import opened Protocol
  import opened Safety
  import opened SharedSteps
  import opened RunnerSteps
  import opened Preservation
  import opened Effects

  predicate IsRetriedDestroyPlan(job: Job) {
    job.env != NONE && job.typ == Plan && job.operation == Destroy && job.retryCount > 0
  }

  predicate NeverPrepared(stage: Stage) {
    stage.Start? || stage.SaveFailure? || stage.ReportFailure? || stage.CommitFailure? || stage.Auditing?
  }

  ghost predicate RowsDoomed(s: Shared) {
    forall j :: j in s.db.jobs && IsRetriedDestroyPlan(s.db.jobs[j]) ==>
      && s.db.jobs[j].status != Done
      && (j !in s.settled && s.db.jobs[j].env in s.db.envs ==> s.db.envs[s.db.jobs[j].env].workdir == NONE)
  }

  ghost predicate RunnersDoomed(w: World) {
    forall r :: r in w.runners && w.runners[r].Busy? && IsRetriedDestroyPlan(w.runners[r].job) ==>
      NeverPrepared(w.runners[r].stage)
  }

  // ---------- The rows ----------

  ghost predicate NoneFinishes(x: Effect) {
    x.JobWrite? && IsRetriedDestroyPlan(x.job) ==> x.job.status != Done
  }

  lemma QueueingDoomed(s: Shared, env: Environment, job: Job, event: AuditEvent)
    requires RowsOk(s) && OnlyLastUnsettled(s) && RowsDoomed(s) && Allowed(s, Queueing(env, job, event))
    ensures RowsDoomed(After(s, Queueing(env, job, event)))
  {
    hide SourceOk, OwnsWorkdir, PlanFileIs, IsDoneApply, StatusOk, ArtifactOk, JobOk;
    var s' := After(s, Queueing(env, job, event));
    forall j | j in s'.db.jobs && IsRetriedDestroyPlan(s'.db.jobs[j])
      ensures s'.db.jobs[j].status != Done
      ensures j !in s'.settled && s'.db.jobs[j].env in s'.db.envs ==> s'.db.envs[s'.db.jobs[j].env].workdir == NONE
    {
      if j != job.id && s.db.jobs[j].env == env.id {
        OldJobsSettled(s, env.id, j);
      }
    }
  }

  // Every job of an environment that is not busy has been settled.
  lemma OldJobsSettled(s: Shared, e: Id, j: Id)
    requires RowsOk(s) && OnlyLastUnsettled(s)
    requires j in s.db.jobs && s.db.jobs[j].env == e && e != NONE
    ensures e in s.db.envs && (!IsEnvironmentBusy(s.db.envs[e].status) ==> j in s.settled)
  {
    hide StatusOk, ArtifactOk, SourceOk;
    assert JobOk(s, s.db.jobs[j]);
    assert EnvOk(s, s.db.envs[e]);
  }

  lemma UpdateDoomed(s: Shared, x: Effect)
    requires RowsOk(s) && OnlyLastUnsettled(s) && RowsDoomed(s) && Allowed(s, x) && (x.Approval? || x.Settlement?)
    ensures RowsDoomed(After(s, x))
  {
    hide JobOk, EnvOk;
    var s' := After(s, x);
    forall j | j in s'.db.jobs && IsRetriedDestroyPlan(s'.db.jobs[j])
      ensures s'.db.jobs[j].status != Done
      ensures j !in s'.settled && s'.db.jobs[j].env in s'.db.envs ==> s'.db.envs[s'.db.jobs[j].env].workdir == NONE
    {
      if s.db.jobs[j].env == x.env.id && x.Approval? {
        OldJobsSettled(s, x.env.id, j);
      }
    }
  }

  lemma WriteDoomed(s: Shared, x: Effect)
    requires RowsDoomed(s) && Allowed(s, x) && NoneFinishes(x) && !x.Queueing? && !x.Approval? && !x.Settlement?
    ensures RowsDoomed(After(s, x))
  {
    hide JobOk, OwnsWorkdir, MayWritePlan;
  }

  lemma EffectDoomed(s: Shared, x: Effect)
    requires RowsOk(s) && OnlyLastUnsettled(s) && RowsDoomed(s) && Allowed(s, x) && NoneFinishes(x)
    ensures RowsDoomed(After(s, x))
  {
    hide *;
    match x
    case Queueing(env, job, event) => QueueingDoomed(s, env, job, event);
    case Approval(_, _) => UpdateDoomed(s, x);
    case Settlement(_, _) => UpdateDoomed(s, x);
    case _ => WriteDoomed(s, x);
  }

  // ---------- The runners ----------

  lemma MoveDoomed(s: Shared, job: Job, stage: Stage, c: Choice)
    requires IsRetriedDestroyPlan(job) && NeverPrepared(stage)
    requires stage.Start? && job.env in s.db.envs ==> s.db.envs[job.env].workdir == NONE
    ensures var m := Advance(s, job, stage, c);
            m.runner.Busy? ==> NeverPrepared(m.runner.stage)
  {
    hide Validate, Normalize, AfterSuccess, AfterFailure, PutJob, PutEnvironment, AppendAudit, CasHolds;
  }

  lemma MoveKeepsKind(s: Shared, job: Job, stage: Stage, c: Choice)
    ensures var m := Advance(s, job, stage, c);
            m.runner.Busy? ==> (IsRetriedDestroyPlan(m.runner.job) <==> IsRetriedDestroyPlan(job))
  {
    hide Advance;
    MoveKeepsErrand(s, job, stage, c);
  }

  // A runner at the start of its job holds the stored row.
  lemma StartRow(w: World, r: nat)
    requires Inv(w) && r in w.runners && w.runners[r].Busy? && w.runners[r].stage.Start?
    ensures var job := w.runners[r].job;
            job.id in w.shared.db.jobs && w.shared.db.jobs[job.id] == job && job.id !in w.shared.settled
  {
    hide StoreOk, RequestsOk;
    assert RunnerOk(w.shared, w.runners[r]);
  }

  lemma RunnerMoveDoomed(w: World, r: nat, c: Choice)
    requires Inv(w) && RowsDoomed(w.shared) && RunnersDoomed(w) && Enabled(w, RunnerMove(r, c))
    ensures RunnersDoomed(Exec(w, RunnerMove(r, c)))
  {
    hide Inv, Advance, IsRetriedDestroyPlan, NeverPrepared;
    var job, stage := w.runners[r].job, w.runners[r].stage;
    if stage.Start? {
      StartRow(w, r);
    }
    MoveKeepsKind(w.shared, job, stage, c);
    if IsRetriedDestroyPlan(job) {
      MoveDoomed(w.shared, job, stage, c);
    }
  }

  lemma OthersDoomed(w: World, step: Step)
    requires RunnersDoomed(w) && Enabled(w, step) && !step.RunnerMove?
    ensures RunnersDoomed(Exec(w, step))
  {
    hide CommitDecision, CreateCommit, InsertLegacy, CreateDecision, Decide, LegacyJob, DerivedJob,
         IsRetriedDestroyPlan;
    SameRunnersAfter(w, step);
  }

  lemma SameRunnersAfter(w: World, step: Step)
    requires Enabled(w, step) && !step.RunnerMove?
    ensures forall r :: r in Exec(w, step).runners ==>
              || (r in w.runners && Exec(w, step).runners[r] == w.runners[r])
              || Exec(w, step).runners[r] == Idle
              || (Exec(w, step).runners[r].Busy? && Exec(w, step).runners[r].stage.Start?)
  {
    hide CreateDecision, Decide, LegacyJob, DerivedJob, Bundle;
  }

  // ---------- Every run ----------

  lemma StepFinishesNone(w: World, step: Step, x: Effect)
    requires Enabled(w, step) && Explains(w, step, x) && RunnersDoomed(w)
    ensures NoneFinishes(x)
  {
    hide Allowed, After, Exec, DecidedBy, AboutToSettle, IsRetriedDestroyPlan;
  }

  lemma {:induction false} RunDoomed(run: seq<World>, n: nat)
    requires IsRun(run) && n < |run|
    ensures RowsDoomed(run[n].shared) && RunnersDoomed(run[n])
  {
    hide *;
    if n == 0 {
      RunStart(run);
      NoneDoomed();
    } else {
      RunDoomed(run, n - 1);
      var step, x := RunStep(run, n - 1);
      StepAllowed(run[n - 1], step, x);
      StepFinishesNone(run[n - 1], step, x);
      InvParts(run[n - 1]);
      EffectDoomed(run[n - 1].shared, x);
      if step.RunnerMove? {
        RunnerMoveDoomed(run[n - 1], step.runner, step.choice);
      } else {
        OthersDoomed(run[n - 1], step);
      }
    }
  }

  lemma NoneDoomed()
    ensures RowsDoomed(EMPTY_WORLD.shared) && RunnersDoomed(EMPTY_WORLD)
  {
  }

  predicate TakesUpRetriedDestroy(runner: Runner) {
    runner.Busy? && runner.stage.Start? && IsRetriedDestroyPlan(runner.job)
  }

  predicate FailsAtStart(s: Shared, job: Job, c: Choice) {
    var m := Advance(s, job, Start, c);
    m.runner.Busy? && m.runner.stage.SaveFailure?
  }

  /** No retry of a destroy plan is ever done; a runner that takes one up fails it before preparing a
      workdir, whatever the outside world does. */
  lemma RetriedDestroyPlanNeverSucceeds(w: World)
    requires Reachable(w)
    ensures forall j :: j in w.shared.db.jobs && IsRetriedDestroyPlan(w.shared.db.jobs[j]) ==> w.shared.db.jobs[j].status != Done
    ensures forall r, c :: r in w.runners && TakesUpRetriedDestroy(w.runners[r]) ==>
              FailsAtStart(w.shared, w.runners[r].job, c)
  {
    hide Next, Inv;
    var run :| IsRun(run) && run[|run| - 1] == w;
    RunDoomed(run, |run| - 1);
    ReachableInv(w);
    hide IsRun, Reachable;
    forall r, c | r in w.runners && TakesUpRetriedDestroy(w.runners[r])
      ensures FailsAtStart(w.shared, w.runners[r].job, c)
    {
      StartRow(w, r);
      StartFails(w.shared, w.runners[r].job, c);
    }
  }

  lemma StartFails(s: Shared, job: Job, c: Choice)
    requires IsRetriedDestroyPlan(job) && (job.env in s.db.envs ==> s.db.envs[job.env].workdir == NONE)
    ensures FailsAtStart(s, job, c)
  {
    hide Validate, Normalize;
  }

  /** A destroy plan that the runner can take up at all is prepared if and only if its environment
      still has a workdir. */
  lemma DestroyPlanNeedsWorkdir(w: World, r: nat, c: Choice)
    requires Reachable(w) && r in w.runners && w.runners[r].Busy? && w.runners[r].stage == Start && c.ok
    requires w.runners[r].job.env != NONE && w.runners[r].job.typ == Plan && w.runners[r].job.operation == Destroy
    ensures w.runners[r].job.env in w.shared.db.envs
    ensures var m := Advance(w.shared, w.runners[r].job, Start, c);
            && m.runner.Busy?
            && (m.runner.stage == SaveWorkdir <==> w.shared.db.envs[w.runners[r].job.env].workdir != NONE)
            && (m.runner.stage.SaveFailure? <==> w.shared.db.envs[w.runners[r].job.env].workdir == NONE)
  {
    hide Reachable, Inv;
    ReachableInv(w);
    InvParts(w);
    StartRow(w, r);
    OldJobsSettled(w.shared, w.runners[r].job.env, w.runners[r].job.id);
    hide RowsOk, OnlyLastUnsettled;
  }
}
