/** How an environment comes to be destroyed: only through a confirmed destroy request and an approval. */
module Provenance {
  import opened Wrappers
  import opened Domain
  import opened Validation
  import opened Handlers
  import opened RunnerLoop
  import opened Protocol
  import opened History
  import opened Safety
  import opened SharedSteps
  import opened RunnerSteps
  import opened Preservation
  import opened Effects
  import opened Guarantees
  import opened RetriedDestroy

  // ---------- Where destroy plans come from ----------

  // The audit table holds a destroy request of environment e that created this job.
  ghost predicate DestroyWasRequested(audit: seq<AuditEvent>, e: Id, job: Id) {
    exists i :: 0 <= i < |audit| && IsDestroyRequest(audit[i], e, job)
  }

  predicate IsDestroyRequest(event: AuditEvent, e: Id, job: Id) {
    event.env == e && event.action.DestroyRequested? && event.action.job == job
  }

  ghost predicate IsDestroyPlan(s: Shared, j: Id) {
    j in s.db.jobs && s.db.jobs[j].env != NONE && s.db.jobs[j].typ == Plan && s.db.jobs[j].operation == Destroy
  }

  ghost predicate IsFirstDestroyPlan(s: Shared, j: Id) {
    IsDestroyPlan(s, j) && s.db.jobs[j].retryCount == 0
  }

  // A destroy plan that retries nothing is the job of a destroy request.
  ghost predicate OriginsOk(s: Shared) {
    forall j :: IsFirstDestroyPlan(s, j) ==> DestroyWasRequested(s.db.audit, s.db.jobs[j].env, j)
  }

  lemma StillRequested(audit: seq<AuditEvent>, event: AuditEvent, e: Id, job: Id)
    requires DestroyWasRequested(audit, e, job)
    ensures DestroyWasRequested(audit + [event], e, job)
  {
    var i :| 0 <= i < |audit| && IsDestroyRequest(audit[i], e, job);
    assert (audit + [event])[i] == audit[i];
  }

  lemma NewDestroyPlan(s: Shared, env: Environment, job: Job, event: AuditEvent)
    requires Allowed(s, Queueing(env, job, event))
    requires job.typ == Plan && job.operation == Destroy && job.retryCount == 0
    ensures DestroyWasRequested(s.db.audit + [event], env.id, job.id)
  {
    hide SourceOk, OwnsWorkdir, PlanFileIs, IsDoneApply;
    assert IsDestroyRequest((s.db.audit + [event])[|s.db.audit|], env.id, job.id);
  }

  lemma QueueingKeepsOrigins(s: Shared, env: Environment, job: Job, event: AuditEvent)
    requires OriginsOk(s) && Allowed(s, Queueing(env, job, event))
    ensures OriginsOk(After(s, Queueing(env, job, event)))
  {
    var s' := After(s, Queueing(env, job, event));
    hide SourceOk, OwnsWorkdir, DestroyWasRequested, Transition, Creation, PlanFileIs, IsDoneApply;
    forall j | IsFirstDestroyPlan(s', j) ensures DestroyWasRequested(s'.db.audit, s'.db.jobs[j].env, j) {
      if j == job.id {
        NewDestroyPlan(s, env, job, event);
      } else {
        assert IsFirstDestroyPlan(s, j);
        StillRequested(s.db.audit, event, s.db.jobs[j].env, j);
      }
    }
  }

  // An effect that adds no environment job and at most one audit row.
  lemma OtherEffectKeepsOrigins(s: Shared, x: Effect)
    requires OriginsOk(s) && Allowed(s, x) && !x.Queueing?
    ensures OriginsOk(After(s, x))
  {
    hide JobOk, OwnsWorkdir, MaySettle, MayApprove, MayWritePlan, DestroyWasRequested;
    var s' := After(s, x);
    forall j | IsFirstDestroyPlan(s', j) ensures DestroyWasRequested(s'.db.audit, s'.db.jobs[j].env, j) {
      assert IsFirstDestroyPlan(s, j);
      if x.Approval? || x.Report? {
        StillRequested(s.db.audit, x.event, s.db.jobs[j].env, j);
      }
    }
  }

  lemma {:induction false} RunOrigins(run: seq<World>, n: nat)
    requires IsRun(run) && n < |run|
    ensures OriginsOk(run[n].shared)
  {
    hide *;
    if n == 0 {
      RunStart(run);
      NoOrigins();
    } else {
      RunOrigins(run, n - 1);
      var step, x := RunStep(run, n - 1);
      StepAllowed(run[n - 1], step, x);
      if x.Queueing? {
        QueueingKeepsOrigins(run[n - 1].shared, x.env, x.job, x.event);
      } else {
        OtherEffectKeepsOrigins(run[n - 1].shared, x);
      }
    }
  }

  lemma NoOrigins()
    ensures OriginsOk(EMPTY_WORLD.shared)
  {
  }

  // ---------- Where an audit row comes from ----------

  // The world in which an audit row was about to be appended.
  ghost predicate Appends(run: seq<World>, m: nat, event: AuditEvent) {
    m + 1 < |run| && run[m + 1].shared.db.audit == run[m].shared.db.audit + [event]
  }

  lemma EffectAppends(s: Shared, x: Effect)
    ensures After(s, x).db.audit == s.db.audit + (if x.Queueing? || x.Approval? || x.Report? then [x.event] else [])
  {
  }

  lemma {:induction false} EventOrigin(run: seq<World>, n: nat, i: nat) returns (m: nat)
    requires IsRun(run) && n < |run| && i < |run[n].shared.db.audit|
    ensures m < n && Appends(run, m, run[n].shared.db.audit[i])
  {
    hide *;
    if n == 0 {
      RunStart(run);
      NoRows();
      assert false;
    } else {
      var step, x := RunStep(run, n - 1);
      StepAllowed(run[n - 1], step, x);
      EffectAppends(run[n - 1].shared, x);
      if i < |run[n - 1].shared.db.audit| {
        m := EventOrigin(run, n - 1, i);
      } else {
        m := n - 1;
        AppendsNow(run, m, run[n].shared.db.audit[i]);
      }
    }
  }

  lemma NoRows()
    ensures EMPTY_WORLD.shared.db.audit == []
  {
  }

  lemma AppendsNow(run: seq<World>, m: nat, event: AuditEvent)
    requires m + 1 < |run| && run[m + 1].shared.db.audit == run[m].shared.db.audit + [event]
    ensures Appends(run, m, event)
  {
  }

  /** The step from w commits an admin's destroy request of environment e, which is neither busy nor
      destroyed and whose name the request confirms, creating this plan. */
  ghost predicate ConfirmsDestroy(w: World, step: Step, e: Id, plan: Id) {
    && step.CommitRequest? && step.job == plan && step.client in w.requests
    && var rq := w.requests[step.client].rq;
       && rq.env == e && rq.body.DestroyBody? && rq.user.isAdmin
       && e in w.shared.db.envs && rq.body.confirmation == w.shared.db.envs[e].name
       && CanQueueDestroy(w.shared.db.envs[e].status)
  }

  /** The step from w commits an admin's approval of a plan that waits for it. */
  ghost predicate GrantsApproval(w: World, step: Step, e: Id, plan: Id) {
    && step.CommitRequest? && step.client in w.requests
    && var rq := w.requests[step.client].rq;
       && rq.env == e && rq.body.ApproveBody? && rq.user.isAdmin
       && e in w.shared.db.envs && w.shared.db.envs[e].status == PendingApproval
       && w.shared.db.envs[e].lastPlanJob == plan
  }

  lemma DestroyGuardPassed(env: Environment, job: Option<Job>, rq: Request, id: Id, now: nat)
    requires Decide(env, job, rq, id, now).Commit? && Decide(env, job, rq, id, now).event.action.DestroyRequested?
    ensures rq.body.DestroyBody? && rq.user.isAdmin && rq.body.confirmation == env.name && CanQueueDestroy(env.status)
    ensures Decide(env, job, rq, id, now).event.action.job == id && Decide(env, job, rq, id, now).event.env == env.id
  {
    hide Validate, Normalize;
  }

  lemma ApproveGuardPassed(env: Environment, job: Option<Job>, rq: Request, id: Id, now: nat)
    requires Decide(env, job, rq, id, now).Commit? && Decide(env, job, rq, id, now).event.action.PlanApproved?
    ensures rq.body.ApproveBody? && rq.user.isAdmin && env.status == PendingApproval
    ensures Decide(env, job, rq, id, now).event.action.plan == env.lastPlanJob && Decide(env, job, rq, id, now).event.env == env.id
  {
    hide Validate, Normalize;
  }

  lemma DecidedOrigin(w: World, step: Step, x: Effect, event: AuditEvent)
    requires Inv(w) && DecidedBy(w, step, x) && event == x.event
    ensures event.action.DestroyRequested? ==> ConfirmsDestroy(w, step, event.env, event.action.job)
    ensures event.action.PlanApproved? ==> GrantsApproval(w, step, event.env, event.action.plan)
  {
    hide Inv, Decide;
    var p := w.requests[step.client];
    assert p.env.id == p.rq.env by { SnapshotIds(w, step.client); }
    if event.action.DestroyRequested? {
      DestroyGuardPassed(p.env, p.job, p.rq, step.job, step.now);
    } else if event.action.PlanApproved? {
      ApproveGuardPassed(p.env, p.job, p.rq, step.job, step.now);
    }
  }

  lemma SnapshotIds(w: World, k: nat)
    requires Inv(w) && k in w.requests
    ensures w.requests[k].env.id == w.requests[k].rq.env
  {
    hide StoreOk, RunnersOk, LegacyOk;
    assert SnapshotOk(w.shared, w.requests[k]);
  }

  lemma StepOrigin(w: World, step: Step, x: Effect, event: AuditEvent)
    requires Inv(w) && Enabled(w, step) && Explains(w, step, x)
    requires Exec(w, step).shared.db.audit == w.shared.db.audit + [event]
    ensures event.action.DestroyRequested? ==> ConfirmsDestroy(w, step, event.env, event.action.job)
    ensures event.action.PlanApproved? ==> GrantsApproval(w, step, event.env, event.action.plan)
  {
    hide *;
    StepAllowed(w, step, x);
    EffectAppends(w.shared, x);
    if event.action.DestroyRequested? || event.action.PlanApproved? {
      assert w.shared.db.audit + [event] == After(w.shared, x).db.audit;
      assert (w.shared.db.audit + [event])[|w.shared.db.audit|] == event;
      AppendedByRequest(w, step, x);
      DecidedOrigin(w, step, x, event);
    }
  }

  lemma AppendedByRequest(w: World, step: Step, x: Effect)
    requires Enabled(w, step) && Explains(w, step, x)
    requires x.Queueing? || x.Approval? || x.Report?
    requires x.event.action.DestroyRequested? || x.event.action.PlanApproved?
    ensures DecidedBy(w, step, x)
  {
    hide After, Exec, Decide, MayQueue, MayApprove, Transition;
  }

  // ---------- The main results ----------

  /** A destroyed environment got there by a finished destroy apply of a destroy plan; that very plan
      was created by an admin's destroy request that confirmed the environment's name, and was later
      approved by an admin while it was waiting. */
  lemma DestroyedMeansConfirmedAndApproved(run: seq<World>, n: nat, e: Id)
      returns (confirmed: nat, request: Step, approved: nat, approval: Step)
    requires IsRun(run) && n < |run|
    requires e in run[n].shared.db.envs && run[n].shared.db.envs[e].status == Destroyed
    ensures var s := run[n].shared; var env := s.db.envs[e];
            && env.lastJob in s.db.jobs
            && var apply := s.db.jobs[env.lastJob];
               && apply.env == e && apply.typ == Apply && apply.status == Done && apply.operation == Destroy
               && apply.source in s.db.jobs
               && var plan := s.db.jobs[apply.source];
                  && plan.env == e && plan.typ == Plan && plan.status == Done && plan.operation == Destroy
                  && confirmed < approved < n
                  && Enabled(run[confirmed], request) && run[confirmed + 1] == Exec(run[confirmed], request)
                  && ConfirmsDestroy(run[confirmed], request, e, apply.source)
                  && Enabled(run[approved], approval) && run[approved + 1] == Exec(run[approved], approval)
                  && GrantsApproval(run[approved], approval, e, apply.source)
  {
    hide *;
    RunKeepsInv(run, n);
    RunOrigins(run, n);
    RunDoomed(run, n);
    var s := run[n].shared;
    InvParts(run[n]);
    DestroyedFacts(s, e);
    var source := s.db.jobs[s.db.envs[e].lastJob].source;
    var i := RequestRow(s, source);
    confirmed, request := RowOrigin(run, n, i);
    var j := ApprovalRow(s.db.audit, source);
    approved, approval := RowOrigin(run, n, j);
    ApprovalOfSameEnvironment(run, approved, n, approval, s.db.audit[j].env, source);
    ConfirmedFirst(run, confirmed, request, approved, approval, e, source);
  }

  // The plan an approval names exists by then, while the request that creates it draws it fresh.
  lemma ConfirmedFirst(run: seq<World>, confirmed: nat, request: Step, approved: nat, approval: Step, e: Id, plan: Id)
    requires IsRun(run) && confirmed < |run| && approved < |run|
    requires Enabled(run[confirmed], request) && ConfirmsDestroy(run[confirmed], request, e, plan)
    requires GrantsApproval(run[approved], approval, e, plan)
    ensures confirmed < approved
  {
    hide *;
    RunKeepsInv(run, approved);
    InvParts(run[approved]);
    ApprovedPlanBelongs(run[approved], approval, e, plan);
    CreatedFresh(run[confirmed], request, e, plan);
    if approved <= confirmed {
      RunIsMonotone(run, approved, confirmed);
      JobsKeepEnvironment(run[approved].shared, run[confirmed].shared, plan);
    }
  }

  lemma CreatedFresh(w: World, step: Step, e: Id, plan: Id)
    requires Enabled(w, step) && ConfirmsDestroy(w, step, e, plan)
    ensures plan !in w.shared.db.jobs
  {
  }

  // The plan an approval names is a job of the environment it was granted in, then and ever after.
  lemma ApprovalOfSameEnvironment(run: seq<World>, m: nat, n: nat, step: Step, e: Id, plan: Id)
    requires IsRun(run) && m <= n < |run| && GrantsApproval(run[m], step, e, plan)
    ensures plan in run[n].shared.db.jobs && run[n].shared.db.jobs[plan].env == e
  {
    hide *;
    RunKeepsInv(run, m);
    InvParts(run[m]);
    ApprovedPlanBelongs(run[m], step, e, plan);
    RunIsMonotone(run, m, n);
    JobsKeepEnvironment(run[m].shared, run[n].shared, plan);
  }

  lemma ApprovedPlanBelongs(w: World, step: Step, e: Id, plan: Id)
    requires RowsOk(w.shared) && GrantsApproval(w, step, e, plan)
    ensures plan in w.shared.db.jobs && w.shared.db.jobs[plan].env == e
  {
    hide JobOk, ArtifactOk;
    assert EnvOk(w.shared, w.shared.db.envs[e]);
  }

  lemma JobsKeepEnvironment(s: Shared, s': Shared, j: Id)
    requires Monotone(s, s') && j in s.db.jobs
    ensures j in s'.db.jobs && s'.db.jobs[j].env == s.db.jobs[j].env
  {
  }

  lemma DestroyedFacts(s: Shared, e: Id)
    requires RowsOk(s) && e in s.db.envs && s.db.envs[e].status == Destroyed
    ensures e != NONE && s.db.envs[e].lastJob in s.db.jobs
    ensures var apply := s.db.jobs[s.db.envs[e].lastJob];
            && apply.env == e && apply.typ == Apply && apply.status == Done && apply.operation == Destroy
            && IsDestroyPlan(s, apply.source)
            && var plan := s.db.jobs[apply.source];
               plan.env == e && plan.typ == Plan && plan.status == Done && plan.operation == Destroy
    ensures Count(s.db.audit, ApprovalsOf(s.db.jobs[s.db.envs[e].lastJob].source)) == 1
  {
    hide ArtifactOk;
    assert EnvOk(s, s.db.envs[e]);
    assert JobOk(s, s.db.jobs[s.db.envs[e].lastJob]);
  }

  // A finished destroy plan is no retry, so a destroy request created it.
  lemma RequestRow(s: Shared, plan: Id) returns (i: nat)
    requires OriginsOk(s) && RowsDoomed(s) && IsDestroyPlan(s, plan) && s.db.jobs[plan].status == Done
    ensures i < |s.db.audit| && s.db.audit[i].env == s.db.jobs[plan].env
    ensures s.db.audit[i].action.DestroyRequested? && s.db.audit[i].action.job == plan
  {
    assert IsFirstDestroyPlan(s, plan);
    i :| 0 <= i < |s.db.audit| && IsDestroyRequest(s.db.audit[i], s.db.jobs[plan].env, plan);
  }

  lemma {:induction false} ApprovalRow(audit: seq<AuditEvent>, plan: Id) returns (i: nat)
    requires Count(audit, ApprovalsOf(plan)) > 0
    ensures i < |audit| && audit[i].action.PlanApproved? && audit[i].action.plan == plan
  {
    if Matches(audit[|audit| - 1], ApprovalsOf(plan)) {
      i := |audit| - 1;
    } else {
      i := ApprovalRow(audit[..|audit| - 1], plan);
    }
  }

  lemma RowOrigin(run: seq<World>, n: nat, i: nat) returns (m: nat, step: Step)
    requires IsRun(run) && n < |run| && i < |run[n].shared.db.audit|
    ensures m < n && Enabled(run[m], step) && run[m + 1] == Exec(run[m], step)
    ensures var event := run[n].shared.db.audit[i];
            && (event.action.DestroyRequested? ==> ConfirmsDestroy(run[m], step, event.env, event.action.job))
            && (event.action.PlanApproved? ==> GrantsApproval(run[m], step, event.env, event.action.plan))
  {
    hide *;
    m := EventOrigin(run, n, i);
    var x;
    AppendsMeans(run, m, run[n].shared.db.audit[i]);
    step, x := RunStep(run, m);
    StepOrigin(run[m], step, x, run[n].shared.db.audit[i]);
  }

  lemma AppendsMeans(run: seq<World>, m: nat, event: AuditEvent)
    requires Appends(run, m, event)
    ensures m + 1 < |run| && run[m + 1].shared.db.audit == run[m].shared.db.audit + [event]
  {
  }

  /** The only step that makes an environment destroyed is its runner's report of a finished apply of
      a destroy job. */
  lemma DestroyedByItsApply(w: World, step: Step, e: Id)
    requires Reachable(w) && Enabled(w, step)
    requires e in Exec(w, step).shared.db.envs && Exec(w, step).shared.db.envs[e].status == Destroyed
    requires e in w.shared.db.envs ==> w.shared.db.envs[e].status != Destroyed
    ensures e in w.shared.db.envs && step.RunnerMove? && step.runner in w.runners && w.runners[step.runner].Busy?
    ensures var job := w.runners[step.runner].job;
            && w.runners[step.runner].stage.CommitSuccess? && w.shared.db.envs[e].lastJob == job.id
            && job.typ == Apply && job.operation == Destroy && job.status == Done
  {
    hide *;
    ReachableInv(w);
    var x := StepEffect(w, step);
    StepAllowed(w, step, x);
    DestroyedBySettlement(w.shared, x, e);
    SettlerStage(w, step, x);
    SettlerSucceeded(w, step, x, e);
  }

  lemma DestroyedBySettlement(s: Shared, x: Effect, e: Id)
    requires Allowed(s, x)
    requires e in After(s, x).db.envs && After(s, x).db.envs[e].status == Destroyed
    requires e in s.db.envs ==> s.db.envs[e].status != Destroyed
    ensures x.Settlement? && e == x.env.id && e in s.db.envs && x.env.status == Destroyed && s.db.envs[e].lastJob == x.job.id
    ensures x.job.typ == Apply && x.job.operation == Destroy && x.job.status == Done
  {
    hide MayInsert, MaySave, MayWritePlan, SourceOk, OwnsWorkdir;
  }

  lemma SettlerSucceeded(w: World, step: Step, x: Effect, e: Id)
    requires Inv(w) && Enabled(w, step) && Explains(w, step, x) && x.Settlement? && step.RunnerMove? && step.runner in w.runners
    requires e in w.shared.db.envs && x.env.id == e && x.env.status == Destroyed
    ensures w.runners[step.runner].Busy? && w.runners[step.runner].stage.CommitSuccess?
  {
    hide Reachable, StoreOk, RequestsOk, MaySettle;
    var runner := w.runners[step.runner];
    assert RunnerOk(w.shared, runner);
    assert Exec(w, step).shared.db.envs == w.shared.db.envs[e := x.env];
    if runner.stage.CommitFailure? {
      FailureIsFailed(w.shared, runner.job, runner.stage.message, runner.stage.env, step.choice);
    }
  }

  // A failure report leaves every environment as it was or failed.
  lemma FailureIsFailed(s: Shared, job: Job, message: Failure, env: Environment, c: Choice)
    ensures var s' := Advance(s, job, CommitFailure(message, env), c).shared;
            forall e :: e in s'.db.envs ==> s'.db.envs[e].status == Failed || (e in s.db.envs && s'.db.envs[e] == s.db.envs[e])
  {
  }

  /** An environment leaves destroyed only by a plan request that creates it again. */
  lemma DestroyedIsLeftByCreatePlan(w: World, step: Step, e: Id)
    requires Reachable(w) && Enabled(w, step)
    requires e in w.shared.db.envs && w.shared.db.envs[e].status == Destroyed
    requires e in Exec(w, step).shared.db.envs ==> Exec(w, step).shared.db.envs[e] != w.shared.db.envs[e]
    ensures var s, s' := w.shared, Exec(w, step).shared;
            && step.CommitRequest? && e in s'.db.envs
            && s'.db.envs[e].status == Planning && s'.db.envs[e].operation == Create
            && s'.db.audit == s.db.audit + [s'.db.audit[|s.db.audit|]]
            && s'.db.audit[|s.db.audit|].env == e && s'.db.audit[|s.db.audit|].action == PlanRequested(step.job, Create)
  {
    hide *;
    ReachableInv(w);
    var x := StepEffect(w, step);
    StepAllowed(w, step, x);
    LeftByCreatePlan(w.shared, x, e);
    RequestedStep(w, step, x);
  }

  lemma LeftByCreatePlan(s: Shared, x: Effect, e: Id)
    requires Allowed(s, x) && e in s.db.envs && s.db.envs[e].status == Destroyed
    requires e in After(s, x).db.envs ==> After(s, x).db.envs[e] != s.db.envs[e]
    ensures var s' := After(s, x);
            && x.Queueing? && x.event.action.PlanRequested? && e in s'.db.envs
            && s'.db.envs[e].status == Planning && s'.db.envs[e].operation == Create
            && s'.db.audit == s.db.audit + [x.event]
            && x.event.env == e && x.event.action == PlanRequested(x.job.id, Create)
  {
    hide MayInsert, MaySave, MayWritePlan, SourceOk, OwnsWorkdir;
  }

  lemma RequestedStep(w: World, step: Step, x: Effect)
    requires Enabled(w, step) && Explains(w, step, x) && x.Queueing? && x.event.action.PlanRequested?
    ensures step.CommitRequest? && x.event.action.job == step.job
  {
    hide Validate, Normalize, Exec, After, Allowed;
  }
}
