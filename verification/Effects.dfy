/** What a step can do to the shared state: at most one of seven kinds of write, each bound by the
    lifecycle's rules. */
module Effects {
  import opened Wrappers
  import opened Domain
  import opened Validation
  import opened Store
  import opened Handlers
  import opened RunnerLoop
  import opened Protocol
  import opened Safety
  import opened SharedSteps
  import opened RunnerSteps
  import opened ApiSteps
  import opened Preservation

  datatype Effect =
    | Nothing
    | Queueing(env: Environment, job: Job, event: AuditEvent)   // environment, job and audit row at once
    | Approval(env: Environment, event: AuditEvent)
    | Legacy(job: Job)
    | JobWrite(job: Job)
    | PlanWrite(job: Job)
    | Settlement(env: Environment, job: Job)
    | Report(event: AuditEvent)

  function After(s: Shared, x: Effect): Shared {
    match x
    case Nothing => s
    case Queueing(env, job, event) => WithShared(s, Bundle(s.db, env, Some(job), event))
    case Approval(env, event) => WithShared(s, Bundle(s.db, env, None, event))
    case Legacy(job) => WithShared(s, PutJob(s.db, job))
    case JobWrite(job) => WithShared(s, PutJob(s.db, job))
    case PlanWrite(job) => s.(plans := s.plans[job.workdir := job.id])
    case Settlement(env, job) => Shared(PutEnvironment(s.db, env), s.plans, s.settled + {job.id})
    case Report(event) => WithShared(s, AppendAudit(s.db, event))
  }

  // Nothing of an earlier attempt is left.
  predicate StartsOver(env: Environment) {
    && env.approval == NotRequested && env.approvedBy == NONE
    && env.lastError == NoFailure && env.planPath == NoPlan && env.outputs == ""
  }

  // A first job of its kind: nothing retried yet, no source, no artifact.
  predicate FirstPlan(job: Job, env: Environment) {
    && job.typ == Plan && job.operation == env.operation && job.workdir == NONE && job.planPath == NoPlan
    && job.source == NONE && job.retryCount == 0 && job.maxRetries == env.maxRetries
  }

  // The lifecycle's rules for a request that adds a job to an environment that has the row `before`
  // and the last job `last`.
  predicate Transition(before: Environment, last: Job, env: Environment, job: Job, action: Action) {
    && env.id == before.id && env.createdBy == before.createdBy
    && env.revision == before.revision + 1 && env.maxRetries == before.maxRetries
    && env.lastJob == job.id
    && match action
       case PlanRequested(j, operation) =>
         && j == job.id == env.lastPlanJob && env.status == Planning && operation == env.operation
         && operation != Destroy && (before.status == Destroyed ==> operation == Create)
         && StartsOver(env) && env.workdir == NONE && env.retryCount == before.retryCount
         && env.lastApplyJob == before.lastApplyJob && FirstPlan(job, env)
       case DestroyRequested(j, confirmation, _) =>
         && j == job.id == env.lastPlanJob && env.status == Planning && env.operation == Destroy
         && before.status != Destroyed && confirmation == before.name == env.name
         && StartsOver(env) && env.workdir == before.workdir && env.retryCount == before.retryCount
         && env.lastApplyJob == before.lastApplyJob && FirstPlan(job, env)
       case ApplyRequested(j) =>
         && j == job.id && before.status == Approved
         && env == before.(spec := env.spec, status := Applying, lastApplyJob := job.id, lastJob := job.id, revision := before.revision + 1)
         && job.typ == Apply && job.operation == env.operation && job.source == before.lastPlanJob
         && job.retryCount == 0 && job.maxRetries == env.maxRetries
       case RetryRequested(j) =>
         && j == job.id && before.status == Failed && last.status == Broken
         && env.status == (if job.typ == Apply then Applying else Planning)
         && StartsOver(env) && env.workdir == NONE && env.lastPlanJob == NONE && env.lastApplyJob == before.lastApplyJob
         && env.operation == before.operation && env.spec == before.spec && env.name == before.name
         && before.retryCount < before.maxRetries && env.retryCount == before.retryCount + 1
         && job == last.(id := job.id, status := JobStatus.Queued, createdAt := job.createdAt, spec := job.spec, error := NoFailure,
                         retryCount := last.retryCount + 1, requestedBy := job.requestedBy)
       case _ => false
  }

  // A new environment with its first plan job.
  predicate Creation(env: Environment, job: Job, action: Action) {
    && action == EnvironmentCreated(job.id) && job.typ == Plan
    && env.revision == 1 && env.status == Planning && env.operation == job.operation == Create
    && env.retryCount == 0 && job.retryCount == 0 && env.maxRetries == 3 && job.maxRetries == 3
  }

  ghost predicate Allowed(s: Shared, x: Effect) {
    match x
    case Nothing => true
    case Queueing(env, job, event) =>
      && MayQueue(s, env, job) && event.env == env.id
      && (if env.id in s.db.envs
          then
            && s.db.envs[env.id].lastJob in s.db.jobs
            && Transition(s.db.envs[env.id], s.db.jobs[s.db.envs[env.id].lastJob], env, job, event.action)
          else Creation(env, job, event.action))
    case Approval(env, event) =>
      && MayApprove(s, env) && event.env == env.id && event.action.PlanApproved?
      && event.action.plan == s.db.envs[env.id].lastJob && env.revision == s.db.envs[env.id].revision + 1
    case Legacy(job) => MayInsert(s, job)
    case JobWrite(job) => MaySave(s, job)
    case PlanWrite(job) => MayWritePlan(s, job)
    case Settlement(env, job) =>
      && MaySettle(s, env, job) && job.id !in s.settled
      && (env == AfterSuccess(s.db.envs[env.id], job) || exists message :: env == AfterFailure(s.db.envs[env.id], job, message))
    case Report(event) => ReportsOutcome(event)
  }

  // ---------- Requests ----------

  lemma DecisionTransition(env: Environment, job: Option<Job>, rq: Request, id: Id, now: nat)
    requires Decide(env, job, rq, id, now).Commit? && !rq.body.ApproveBody?
    requires rq.body.ApplyBody? && job.Some? ==> job.value.id == env.lastPlanJob
    ensures var d := Decide(env, job, rq, id, now);
            && d.job.Some? && d.event.env == env.id
            && (rq.body.RetryBody? ==> job.Some?)
            && forall last :: (rq.body.RetryBody? ==> last == job.value) ==> Transition(env, last, d.env, d.job.value, d.event.action)
  {
    hide Validate, Normalize;
  }

  lemma ApprovalEvent(env: Environment, job: Option<Job>, rq: Request, id: Id, now: nat)
    requires Decide(env, job, rq, id, now).Commit? && rq.body.ApproveBody?
    ensures var d := Decide(env, job, rq, id, now);
            d.job.None? && d.event.env == env.id && d.event.action.PlanApproved? && d.event.action.plan == env.lastPlanJob
  {
    hide Validate, Normalize;
  }

  lemma CreationShape(raw: EnvironmentSpec, template: string, user: User, e: Id, id: Id, now: nat)
    requires CreateDecision(raw, template, user, e, id, now).Commit?
    ensures var d := CreateDecision(raw, template, user, e, id, now);
            d.env.id == e && d.job.Some? && d.event.env == e && Creation(d.env, d.job.value, d.event.action)
  {
    hide Validate, Normalize;
  }

  lemma LastJobStored(s: Shared, e: Id)
    requires RowsOk(s) && e in s.db.envs
    ensures var env := s.db.envs[e];
            && env.id == e != NONE && env.lastJob in s.db.jobs
            && var last := s.db.jobs[env.lastJob];
               last.id == env.lastJob && last.env == e && last.operation == env.operation
    ensures s.db.envs[e].status == Approved ==> s.db.envs[e].lastPlanJob == s.db.envs[e].lastJob
  {
    hide JobOk;
    assert EnvOk(s, s.db.envs[e]);
  }

  function EffectOf(d: Decision): Effect
    requires d.Commit?
  {
    if d.job.Some? then Queueing(d.env, d.job.value, d.event) else Approval(d.env, d.event)
  }

  lemma AcceptedEffect(s: Shared, rq: Request, id: Id, now: nat)
    requires StoreOk(s) && rq.env in s.db.envs && id != NONE && id !in s.db.jobs
    requires DecideNow(s, rq, id, now).Commit?
    ensures Allowed(s, EffectOf(DecideNow(s, rq, id, now)))
  {
    hide OnlyLastUnsettled, SettledOk, ApprovalsOk, AppliesOk, EnvOk, JobOk, Clean, Bundle, MayQueue, MayApprove, Transition,
         PlanDecision, ApproveDecision, ApplyDecision, RetryDecision, DestroyDecision;
    var d := DecideNow(s, rq, id, now);
    var env := s.db.envs[rq.env];
    var job := LookupJob(s.db, JobToRead(env, rq.body));
    LastJobStored(s, rq.env);
    DecisionShape(env, job, rq, id, now);
    assert StoredSpec(s, env.spec);
    if rq.body.ApproveBody? {
      ApproveApproves(s, rq);
      ApprovalEvent(env, job, rq, id, now);
    } else {
      AcceptedQueues(s, rq, id, now);
      if rq.body.ApplyBody? {
        ApplyReadsPlan(s, rq);
      }
      DecisionTransition(env, job, rq, id, now);
    }
  }

  lemma ApplyReadsPlan(s: Shared, rq: Request)
    requires RowsOk(s) && rq.env in s.db.envs && rq.body.ApplyBody?
    ensures var env := s.db.envs[rq.env];
            LookupJob(s.db, env.lastPlanJob).Some? ==> LookupJob(s.db, env.lastPlanJob).value.id == env.lastPlanJob
  {
    hide EnvOk, JobOk;
  }

  predicate AboutToSettle(runner: Runner, job: Job) {
    runner.Busy? && runner.job == job && (runner.stage.CommitSuccess? || runner.stage.CommitFailure?)
  }

  lemma CommitEffect(w: World, k: nat, id: Id, now: nat) returns (x: Effect)
    requires Inv(w) && Enabled(w, CommitRequest(k, id, now))
    ensures Allowed(w.shared, x) && Exec(w, CommitRequest(k, id, now)).shared == After(w.shared, x)
    ensures var p := w.requests[k];
            var d := Decide(p.env, p.job, p.rq, id, now);
            x == Nothing || (d.Commit? && x == EffectOf(d) && p.env == w.shared.db.envs[p.rq.env])
  {
    hide StoreOk, RunnersOk, RequestsOk, Decide, CasHolds, SnapshotOk, Transition, MayQueue, MayApprove;
    var p := w.requests[k];
    var d := Decide(p.env, p.job, p.rq, id, now);
    SnapshotHolds(w, k);
    x := Nothing;
    if d.Commit? && CasHolds(w.shared.db, d.env) {
      CurrentEffect(w.shared, p, id, now);
      x := EffectOf(d);
    }
  }

  lemma CurrentEffect(s: Shared, p: Pending, id: Id, now: nat)
    requires StoreOk(s) && SnapshotOk(s, p) && p.RowsRead? && id != NONE && id !in s.db.jobs
    requires Decide(p.env, p.job, p.rq, id, now).Commit? && CasHolds(s.db, Decide(p.env, p.job, p.rq, id, now).env)
    ensures Allowed(s, EffectOf(Decide(p.env, p.job, p.rq, id, now)))
    ensures p.env == s.db.envs[p.rq.env]
    ensures Decide(p.env, p.job, p.rq, id, now).env.id in s.db.envs
  {
    hide StoreOk, Decide, Bundle, Allowed, After;
    RowsStillCurrent(s, p, id, now);
    AcceptedEffect(s, p.rq, id, now);
  }

  lemma CreateEffect(w: World, step: Step) returns (x: Effect)
    requires Inv(w) && step.CreateEnv? && Enabled(w, step)
    ensures Allowed(w.shared, x) && Exec(w, step).shared == After(w.shared, x)
    ensures x.Nothing? || (x.Queueing? && x.event.action.EnvironmentCreated?)
  {
    hide RunnersOk, RequestsOk, StoreOk, MayQueue, Clean, CreateDecision, Bundle;
    var d := CreateDecision(step.spec, step.template, step.user, step.env, step.job, step.now);
    x := Nothing;
    if d.Commit? {
      CreateQueues(w.shared, step.spec, step.template, step.user, step.env, step.job, step.now);
      CreationShape(step.spec, step.template, step.user, step.env, step.job, step.now);
      x := Queueing(d.env, d.job.value, d.event);
    }
  }

  lemma LegacyEffect(w: World, step: Step) returns (x: Effect)
    requires Inv(w) && (step.CreateLegacy? || step.CommitLegacy?) && Enabled(w, step)
    ensures Allowed(w.shared, x) && Exec(w, step).shared == After(w.shared, x)
    ensures x.Nothing? || x.Legacy?
  {
    hide OnlyLastUnsettled, SettledOk, ApprovalsOk, AppliesOk, SpecsOk, RunnersOk, RowsOk, SnapshotOk, MayInsert,
         Clean, DerivedJob, LegacyOk, LegacyJob;
    x := Nothing;
    match step
    case CreateLegacy(typ, spec, user, id, now) =>
      var job := LegacyJob(typ, spec, user, id, now);
      if job.Some? {
        LegacyInserts(w.shared, typ, spec, user, id, now);
        x := Legacy(job.value);
      }
    case CommitLegacy(k, id, now) =>
      var p := w.legacy[k];
      var job := DerivedJob(p.kind, p.user, p.src, id, now);
      if job.Some? {
        DerivedInserts(w.shared, p.kind, p.user, p.src, id, now);
        x := Legacy(job.value);
      }
  }

  // ---------- Runners ----------

  lemma MayMoveParts(s: Shared, job: Job, stage: Stage)
    requires MayMove(s, job, stage)
    ensures RowsOk(s) && OnlyLastUnsettled(s) && RunnerOk(s, Busy(job, stage))
  {
    hide RowsOk, OnlyLastUnsettled, SettledOk, ApprovalsOk, AppliesOk, RunnerOk, Clean;
  }

  lemma HeldRowRuns(s: Shared, job: Job, stage: Stage)
    requires MayMove(s, job, stage)
    requires stage == SaveWorkdir || stage == SavePlanPath || stage == SaveApply || stage == SaveDone || stage.SaveFailure?
    ensures job.id in s.db.jobs && s.db.jobs[job.id].status == Running
    ensures stage != SaveDone ==> job.status == Running
  {
    hide SharedOk, Clean, ReadyToApply, ReadyToPlan, SameJob;
  }

  lemma WriteEffect(s: Shared, job: Job, stage: Stage, c: Choice) returns (x: Effect)
    requires StoreOk(s) && MayMove(s, job, stage)
    requires stage == SaveWorkdir || stage == SavePlanPath || stage == SaveApply || stage == SaveDone || stage.SaveFailure? || stage.RunPlan?
    ensures Allowed(s, x) && Advance(s, job, stage, c).shared == After(s, x)
    ensures x.Nothing? || x.JobWrite? || x.PlanWrite?
    ensures KeepsQueued(s, x)
    ensures x.JobWrite? && x.job.status == Done ==> stage == SaveDone && x.job == job
  {
    hide StoreOk, MayMove, RowsOk, RunnerOk, MaySave, MayWritePlan, Advance;
    MayMoveParts(s, job, stage);
    if !stage.RunPlan? {
      HeldRowRuns(s, job, stage);
    }
    if stage.RunPlan? {
      RunPlanMove(s, job, c);
      x := if Advance(s, job, stage, c).shared == s then Nothing else PlanWrite(job);
    } else if stage.SaveFailure? {
      SaveFailureMove(s, job, stage.message, c);
      x := if Advance(s, job, stage, c).shared == s then Nothing else JobWrite(job.(status := Broken, error := stage.message));
    } else if CannotSave(s, job, stage, c) {
      CannotSaveLooks(s, job, c);
      x := Nothing;
    } else {
      SaveMove(s, job, stage, c);
      x := JobWrite(job);
    }
  }

  lemma SettleEffect(s: Shared, job: Job, stage: Stage, c: Choice) returns (x: Effect)
    requires StoreOk(s) && MayMove(s, job, stage) && (stage.CommitSuccess? || stage.CommitFailure?)
    ensures Allowed(s, x) && Advance(s, job, stage, c).shared == After(s, x) && x.Settlement? && x.job == job
  {
    hide StoreOk, MayMove, RowsOk, OnlyLastUnsettled, RunnerOk, MaySettle, Advance;
    MayMoveParts(s, job, stage);
    if stage.CommitSuccess? {
      CommitSuccessMove(s, job, stage.env, c);
      x := Settlement(AfterSuccess(stage.env, job), job);
    } else {
      CommitFailureMove(s, job, stage.message, stage.env, c);
      x := Settlement(AfterFailure(stage.env, job, stage.message), job);
    }
  }

  lemma MoveEffect(s: Shared, job: Job, stage: Stage, c: Choice) returns (x: Effect)
    requires StoreOk(s) && MayMove(s, job, stage)
    ensures Allowed(s, x) && Advance(s, job, stage, c).shared == After(s, x)
    ensures x.Settlement? ==> (stage.CommitSuccess? || stage.CommitFailure?) && x.job == job
    ensures !x.Queueing? && !x.Approval? && !x.Legacy?
    ensures KeepsQueued(s, x)
    ensures x.JobWrite? && x.job.status == Done ==> stage == SaveDone && x.job == job
  {
    hide OnlyLastUnsettled, RowsOk, SettledOk, ApprovalsOk, AppliesOk, SpecsOk, StartApply, StartPlan,
         StartDestroyPlan, MaySettle, MaySave, MayWritePlan, HolderOk, Clean;
    match stage
    case Auditing(event) => x := Report(event);
    case CommitSuccess(_) => x := SettleEffect(s, job, stage, c);
    case CommitFailure(_, _) => x := SettleEffect(s, job, stage, c);
    case SaveWorkdir => x := WriteEffect(s, job, stage, c);
    case SavePlanPath => x := WriteEffect(s, job, stage, c);
    case SaveApply => x := WriteEffect(s, job, stage, c);
    case SaveDone => x := WriteEffect(s, job, stage, c);
    case SaveFailure(_) => x := WriteEffect(s, job, stage, c);
    case RunPlan => x := WriteEffect(s, job, stage, c);
    case _ => LooksOnly(s, job, stage, c); x := Nothing;
  }

  lemma LooksOnly(s: Shared, job: Job, stage: Stage, c: Choice)
    requires stage == Start || stage == Init || stage == RunApply || stage == ReportSuccess || stage.ReportFailure?
    ensures Advance(s, job, stage, c).shared == s
  {
    hide Validate, Normalize;
  }

  lemma ClaimEffect(w: World, r: nat, j: Id) returns (x: Effect)
    requires Inv(w) && Enabled(w, ClaimJob(r, j))
    ensures Allowed(w.shared, x) && Exec(w, ClaimJob(r, j)).shared == After(w.shared, x)
    ensures x == JobWrite(w.shared.db.jobs[j].(status := Running))
  {
    hide OnlyLastUnsettled, RowsOk, SettledOk, ApprovalsOk, AppliesOk, SpecsOk, MaySave, RunnersOk, RequestsOk;
    ClaimSaves(w.shared, j);
    x := JobWrite(w.shared.db.jobs[j].(status := Running));
  }

  // How the request behind an effect was decided: on the rows it read, which are the current ones.
  ghost predicate DecidedBy(w: World, step: Step, x: Effect) {
    && step.CommitRequest? && step.client in w.requests && w.requests[step.client].RowsRead?
    && var p := w.requests[step.client];
       && p.rq.env in w.shared.db.envs && p.env == w.shared.db.envs[p.rq.env]
       && Decide(p.env, p.job, p.rq, step.job, step.now).Commit?
       && x == EffectOf(Decide(p.env, p.job, p.rq, step.job, step.now))
  }

  // The runner that has run its job successfully and is about to say so.
  predicate AboutToFinish(w: World, r: nat, job: Job) {
    r in w.runners && w.runners[r].Busy? && w.runners[r].stage.SaveDone? && w.runners[r].job == job
  }

  // Only a claim takes a job from the queue.
  predicate KeepsQueued(s: Shared, x: Effect) {
    x.JobWrite? ==> x.job.id in s.db.jobs && s.db.jobs[x.job.id].status == Running
  }

  ghost predicate Explains(w: World, step: Step, x: Effect)
    requires Enabled(w, step)
  {
    && Allowed(w.shared, x) && Exec(w, step).shared == After(w.shared, x)
    && (x.Settlement? ==> step.RunnerMove? && step.runner in w.runners && AboutToSettle(w.runners[step.runner], x.job))
    && ((x.Queueing? && !x.event.action.EnvironmentCreated?) || x.Approval? ==> DecidedBy(w, step, x))
    && (step.ClaimJob? ==> x == JobWrite(w.shared.db.jobs[step.job].(status := Running)))
    && (!step.ClaimJob? ==> KeepsQueued(w.shared, x))
    && (x.JobWrite? && x.job.status == Done ==> step.RunnerMove? && AboutToFinish(w, step.runner, x.job))
  }

  /** Every step of a reachable world has one of the allowed effects. */
  lemma StepEffect(w: World, step: Step) returns (x: Effect)
    requires Inv(w) && Enabled(w, step)
    ensures Explains(w, step, x)
  {
    match step
    case CommitRequest(k, id, now) => hide *; x := CommitRequestEffect(w, k, id, now);
    case RunnerMove(r, c) => hide *; x := RunnerEffect(w, r, c);
    case CreateEnv(_, _, _, _, _, _) => hide *; x := InsertionEffect(w, step);
    case CreateLegacy(_, _, _, _, _) => hide *; x := InsertionEffect(w, step);
    case CommitLegacy(_, _, _) => hide *; x := InsertionEffect(w, step);
    case ClaimJob(r, j) => hide *; x := ClaimingEffect(w, r, j);
    case ReadEnv(_, _) => x := Nothing; hide *; LocalEffect(w, step);
    case ReadJob(_) => x := Nothing; hide *; LocalEffect(w, step);
    case ReadLegacy(_, _, _, _) => x := Nothing; hide *; LocalEffect(w, step);
    case Crash(_) => x := Nothing; hide *; LocalEffect(w, step);
  }

  lemma LocalEffect(w: World, step: Step)
    requires Enabled(w, step) && (step.ReadEnv? || step.ReadJob? || step.ReadLegacy? || step.Crash?)
    ensures Explains(w, step, Nothing)
  {
  }

  lemma InsertionEffect(w: World, step: Step) returns (x: Effect)
    requires Inv(w) && Enabled(w, step) && (step.CreateEnv? || step.CreateLegacy? || step.CommitLegacy?)
    ensures Explains(w, step, x)
  {
    hide Inv, Allowed, After, Exec, Enabled;
    if step.CreateEnv? {
      x := CreateEffect(w, step);
    } else {
      x := LegacyEffect(w, step);
    }
  }

  lemma ClaimingEffect(w: World, r: nat, j: Id) returns (x: Effect)
    requires Inv(w) && Enabled(w, ClaimJob(r, j))
    ensures Explains(w, ClaimJob(r, j), x)
  {
    hide Inv, Allowed, After;
    x := ClaimEffect(w, r, j);
  }

  lemma RunnerEffect(w: World, r: nat, c: Choice) returns (x: Effect)
    requires Inv(w) && Enabled(w, RunnerMove(r, c))
    ensures Explains(w, RunnerMove(r, c), x)
  {
    hide RunnersOk, RequestsOk, StoreOk, MayMove, Allowed, After, Advance;
    HolderCanMove(w, r);
    x := MoveEffect(w.shared, w.runners[r].job, w.runners[r].stage, c);
  }

  lemma CommitRequestEffect(w: World, k: nat, id: Id, now: nat) returns (x: Effect)
    requires Inv(w) && Enabled(w, CommitRequest(k, id, now))
    ensures Explains(w, CommitRequest(k, id, now), x)
  {
    hide StoreOk, RunnersOk, Exec, Allowed, After, Decide;
    x := CommitEffect(w, k, id, now);
    assert SnapshotOk(w.shared, w.requests[k]);
    DecidedEffects(w, k, id, now, x);
  }

  lemma DecidedEffects(w: World, k: nat, id: Id, now: nat, x: Effect)
    requires DecidedBy(w, CommitRequest(k, id, now), x) || x == Nothing
    ensures !x.Settlement?
  {
    hide Decide;
  }

  // The step that leads from one world of a run to the next, with its effect.
  lemma RunStep(run: seq<World>, n: nat) returns (step: Step, x: Effect)
    requires IsRun(run) && n + 1 < |run|
    ensures Inv(run[n]) && Enabled(run[n], step) && run[n + 1] == Exec(run[n], step) && Explains(run[n], step, x)
  {
    hide Inv, Exec, Enabled, Explains;
    RunKeepsInv(run, n);
    assert Next(run[n], run[n + 1]);
    step :| Enabled(run[n], step) && run[n + 1] == Exec(run[n], step);
    x := StepEffect(run[n], step);
  }

  lemma RunStart(run: seq<World>)
    requires IsRun(run)
    ensures run[0] == EMPTY_WORLD
  {
    hide Next;
  }

  lemma StepAllowed(w: World, step: Step, x: Effect)
    requires Enabled(w, step) && Explains(w, step, x)
    ensures Allowed(w.shared, x) && Exec(w, step).shared == After(w.shared, x)
  {
    hide Allowed, After, Exec, DecidedBy, AboutToSettle;
  }

  lemma {:induction false} TraceIsRun(run: seq<World>, steps: seq<Step>)
    requires IsTrace(run, steps)
    ensures IsRun(run)
  {
    hide Enabled, Exec;
    forall i | 0 <= i < |run| - 1 ensures Next(run[i], run[i + 1]) {
      assert Enabled(run[i], steps[i]) && run[i + 1] == Exec(run[i], steps[i]);
    }
  }

  lemma TraceLength(run: seq<World>, steps: seq<Step>)
    requires IsTrace(run, steps)
    ensures |run| == |steps| + 1
  {
  }

  lemma TraceStep(run: seq<World>, steps: seq<Step>, n: nat)
    requires IsTrace(run, steps) && n < |steps|
    ensures Inv(run[n]) && Enabled(run[n], steps[n]) && run[n + 1] == Exec(run[n], steps[n])
  {
    hide Inv, Enabled, Exec;
    TraceIsRun(run, steps);
    RunKeepsInv(run, n);
  }
}
