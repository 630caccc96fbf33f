/** internal/api/environments.go (bundled path) and the job-creating routes of internal/api/jobs.go.

    What a handler decides is a function of the environment row and the job row it read; the
    handlers themselves are the methods of module Api. */
module Handlers {
  import opened Wrappers
  import opened Domain
  import opened Validation

  datatype Body =
    | PlanBody(spec: Option<EnvironmentSpec>, template: string, operation: Option<Operation>)
    | ApproveBody(comment: string)
    | ApplyBody
    | RetryBody
    | DestroyBody(confirmation: string, comment: string)

  datatype Request = Request(env: Id, user: User, expected: Option<int>, body: Body)

  datatype Reason =
    | AdminRequired | NotFound | InvalidSpec(error: SpecError) | RevisionMismatch | JobNotLoaded
    | DestroyRouteOnly | EnvironmentBusy | DestroyedNeedsCreate | CreateNotAllowed | UpdateNotAllowed
    | NoPlanToApprove | NotAwaitingApproval | PlanNotDone
    | ApprovalRequired | NotApprovedForApply | ArtifactNotReady
    | NoJobToRetry | LastJobNotFailed | BudgetExhausted | DestroyedCannotRetry | NotFailed
    | ConfirmationMismatch | AlreadyDestroyed
    | ChangedConcurrently | CreateFailed

  datatype Decision = Reject(reason: Reason) | Commit(env: Environment, job: Option<Job>, event: AuditEvent)

  function DefaultPlanOperation(env: Environment): Operation {
    if env.status == Draft || env.status == Destroyed then Create else Update
  }

  function PlanAccess(env: Environment, operation: Operation): Option<Reason> {
    if operation == Destroy then Some(DestroyRouteOnly)
    else if IsEnvironmentBusy(env.status) then Some(EnvironmentBusy)
    else if env.status == Destroyed && operation != Create then Some(DestroyedNeedsCreate)
    else if operation == Create && !CanQueuePlan(env.status, operation) then Some(CreateNotAllowed)
    else if operation == Update && !CanQueuePlan(env.status, operation) then Some(UpdateNotAllowed)
    else None
  }

  function RetryAccess(user: User, env: Environment, lastJob: Job): Option<Reason> {
    if lastJob.typ == Apply && !user.isAdmin then Some(AdminRequired)
    else if lastJob.operation == Destroy && !user.isAdmin then Some(AdminRequired)
    else if env.status == Destroyed then Some(DestroyedCannotRetry)
    else if !CanRetry(env.status) then Some(NotFailed)
    else None
  }

  function DestroyAccess(env: Environment): Option<Reason> {
    if CanQueueDestroy(env.status) then None
    else if env.status == Destroyed then Some(AlreadyDestroyed)
    else Some(EnvironmentBusy)
  }

  predicate RevisionAsExpected(env: Environment, expected: Option<int>) {
    expected.None? || expected.value == env.revision
  }

  // resetEnvironmentAttemptState
  function ResetAttempt(env: Environment): Environment {
    env.(approval := NotRequested, approvedBy := NONE, lastError := NoFailure, workdir := NONE,
         planPath := NoPlan, outputs := "", lastPlanJob := NONE)
  }

  function NewPlanJob(env: Environment, template: string, requestedBy: Id, id: Id, now: nat): Job {
    Job(id, Plan, Queued, now, env.id, env.operation, env.spec,
        if template == "" then "basic" else template,
        NONE, NoPlan, "", NONE, 0, env.maxRetries, requestedBy, NoFailure)
  }

  function NewApplyJob(env: Environment, planJob: Job, requestedBy: Id, id: Id, now: nat): Job {
    Job(id, Apply, Queued, now, env.id, env.operation, env.spec, planJob.template,
        planJob.workdir, planJob.planPath, "", planJob.id, 0, env.maxRetries, requestedBy, NoFailure)
  }

  function RetryJob(last: Job, requestedBy: Id, id: Id, now: nat): Job {
    last.(id := id, status := Queued, createdAt := now, spec := Normalize(last.spec), error := NoFailure,
          retryCount := last.retryCount + 1, requestedBy := requestedBy)
  }

  // normalizeAndValidateEnvironmentSpecForMutation; its extra check that both CIDRs are present is
  // implied by Validate.
  predicate Admits(spec: EnvironmentSpec) {
    Validate(Normalize(spec)).None?
  }

  // ---------- What each handler writes once its guards have passed ----------

  function PlanMutation(env: Environment, spec: EnvironmentSpec, operation: Operation, template: string, user: Id,
                        id: Id, now: nat): Decision {
    var env' := ResetAttempt(env.(spec := spec, name := spec.environmentName, operation := operation,
                                  status := Planning)).(revision := env.revision + 1);
    Commit(env'.(lastPlanJob := id, lastJob := id), Some(NewPlanJob(env', template, user, id, now)),
           AuditEvent(env.id, user, PlanRequested(id, operation)))
  }

  function ApplyMutation(env: Environment, spec: EnvironmentSpec, planJob: Job, user: Id, id: Id, now: nat): Decision {
    var env' := env.(spec := spec);
    Commit(env'.(status := Applying, lastApplyJob := id, lastJob := id, revision := env.revision + 1),
           Some(NewApplyJob(env', planJob, user, id, now)),
           AuditEvent(env.id, user, ApplyRequested(id)))
  }

  function RetryMutation(env: Environment, retry: Job, user: Id): Decision {
    var env' := env.(retryCount := env.retryCount + 1, lastJob := retry.id,
                     status := if retry.typ == Apply then Applying else Planning);
    Commit(ResetAttempt(env').(revision := env.revision + 1), Some(retry),
           AuditEvent(env.id, user, RetryRequested(retry.id)))
  }

  function DestroyMutation(env: Environment, spec: EnvironmentSpec, confirmation: string, comment: string, user: Id,
                           id: Id, now: nat): Decision {
    var env' := ResetAttempt(env.(spec := spec, operation := Destroy, status := Planning))
                .(workdir := env.workdir, revision := env.revision + 1);
    Commit(env'.(lastPlanJob := id, lastJob := id), Some(NewPlanJob(env', "", user, id, now)),
           AuditEvent(env.id, user, DestroyRequested(id, confirmation, comment)))
  }

  // ---------- The guards, in source order ----------

  function RequestedSpec(env: Environment, rq: Request): EnvironmentSpec
    requires rq.body.PlanBody?
  {
    Normalize(if rq.body.spec.Some? then rq.body.spec.value else env.spec)
  }

  function RequestedOperation(env: Environment, rq: Request): Operation
    requires rq.body.PlanBody?
  {
    if rq.body.operation.Some? then rq.body.operation.value else DefaultPlanOperation(env)
  }

  function PlanGuard(env: Environment, rq: Request): Option<Reason>
    requires rq.body.PlanBody?
  {
    var error := Validate(RequestedSpec(env, rq));
    var access := PlanAccess(env, RequestedOperation(env, rq));
    if error.Some? then Some(InvalidSpec(error.value))
    else if access.Some? then access
    else if !RevisionAsExpected(env, rq.expected) then Some(RevisionMismatch)
    else None
  }

  function ApproveGuard(env: Environment, job: Option<Job>, rq: Request): Option<Reason> {
    if !rq.user.isAdmin then Some(AdminRequired)
    else if env.lastPlanJob == NONE then Some(NoPlanToApprove)
    else if !CanApprovePlan(env.status, env.approval) then Some(NotAwaitingApproval)
    else if job.None? then Some(JobNotLoaded)
    else if job.value.status != Done then Some(PlanNotDone)
    else if !RevisionAsExpected(env, rq.expected) then Some(RevisionMismatch)
    else None
  }

  function ApplyGuard(env: Environment, job: Option<Job>, rq: Request): Option<Reason> {
    var error := Validate(Normalize(env.spec));
    if !rq.user.isAdmin then Some(AdminRequired)
    else if env.approval != Granted then Some(ApprovalRequired)
    else if !RevisionAsExpected(env, rq.expected) then Some(RevisionMismatch)
    else if !CanQueueApply(env.status, env.approval, env.operation) then Some(NotApprovedForApply)
    else if error.Some? then Some(InvalidSpec(error.value))
    else if job.None? then Some(JobNotLoaded)
    else if job.value.status != Done || job.value.planPath == NoPlan || job.value.workdir == NONE then Some(ArtifactNotReady)
    else None
  }

  function RetryGuard(env: Environment, job: Option<Job>, rq: Request): Option<Reason> {
    if env.lastJob == NONE then Some(NoJobToRetry)
    else if !RevisionAsExpected(env, rq.expected) then Some(RevisionMismatch)
    else if job.None? then Some(JobNotLoaded)
    else if job.value.status != Broken then Some(LastJobNotFailed)
    else if env.retryCount >= env.maxRetries then Some(BudgetExhausted)
    else RetryAccess(rq.user, env, job.value)
  }

  function DestroyGuard(env: Environment, rq: Request): Option<Reason>
    requires rq.body.DestroyBody?
  {
    if !rq.user.isAdmin then Some(AdminRequired)
    else if rq.body.confirmation != env.name then Some(ConfirmationMismatch)
    else if DestroyAccess(env).Some? then DestroyAccess(env)
    else if !RevisionAsExpected(env, rq.expected) then Some(RevisionMismatch)
    else None
  }

  // ---------- The handlers' decisions ----------

  function PlanDecision(env: Environment, rq: Request, id: Id, now: nat): Decision
    requires rq.body.PlanBody?
  {
    match PlanGuard(env, rq)
    case Some(reason) => Reject(reason)
    case None => PlanMutation(env, RequestedSpec(env, rq), RequestedOperation(env, rq), rq.body.template, rq.user.id, id, now)
  }

  function ApproveDecision(env: Environment, job: Option<Job>, rq: Request): Decision
    requires rq.body.ApproveBody?
  {
    match ApproveGuard(env, job, rq)
    case Some(reason) => Reject(reason)
    case None =>
      Commit(env.(approval := Granted, status := Approved, approvedBy := rq.user.id, revision := env.revision + 1),
             None,
             AuditEvent(env.id, rq.user.id, PlanApproved(env.lastPlanJob, rq.body.comment)))
  }

  function ApplyDecision(env: Environment, job: Option<Job>, rq: Request, id: Id, now: nat): Decision {
    match ApplyGuard(env, job, rq)
    case Some(reason) => Reject(reason)
    case None => ApplyMutation(env, Normalize(env.spec), job.value, rq.user.id, id, now)
  }

  function RetryDecision(env: Environment, job: Option<Job>, rq: Request, id: Id, now: nat): Decision {
    match RetryGuard(env, job, rq)
    case Some(reason) => Reject(reason)
    case None => RetryMutation(env, RetryJob(job.value, rq.user.id, id, now), rq.user.id)
  }

  function DestroyDecision(env: Environment, rq: Request, id: Id, now: nat): Decision
    requires rq.body.DestroyBody?
  {
    match DestroyGuard(env, rq)
    case Some(reason) => Reject(reason)
    case None => DestroyMutation(env, Normalize(env.spec), rq.body.confirmation, rq.body.comment, rq.user.id, id, now)
  }

  // The job row a handler reads after the environment row, NONE when it reads none.
  function JobToRead(env: Environment, body: Body): Id {
    match body
    case ApproveBody(_) => env.lastPlanJob
    case ApplyBody => env.lastPlanJob
    case RetryBody => env.lastJob
    case _ => NONE
  }

  function Decide(env: Environment, job: Option<Job>, rq: Request, id: Id, now: nat): Decision {
    match rq.body
    case PlanBody(_, _, _) => PlanDecision(env, rq, id, now)
    case ApproveBody(_) => ApproveDecision(env, job, rq)
    case ApplyBody => ApplyDecision(env, job, rq, id, now)
    case RetryBody => RetryDecision(env, job, rq, id, now)
    case DestroyBody(_, _) => DestroyDecision(env, rq, id, now)
  }

  // ---------- Creation ----------

  function NewEnvironment(spec: EnvironmentSpec, user: User, id: Id, jobId: Id): Environment {
    Environment(id, spec.environmentName, Planning, Create, NotRequested, spec, user.id, NONE,
                jobId, NONE, jobId, NoFailure, 0, 3, NONE, NoPlan, "", 1)
  }

  function CreateDecision(raw: EnvironmentSpec, template: string, user: User, id: Id, jobId: Id, now: nat): Decision {
    var spec := Normalize(raw);
    if Validate(spec).Some? then Reject(InvalidSpec(Validate(spec).value))
    else
      var env := NewEnvironment(spec, user, id, jobId);
      Commit(env, Some(NewPlanJob(env, template, user.id, jobId, now)), AuditEvent(id, user.id, EnvironmentCreated(jobId)))
  }

  // ---------- Legacy job routes (internal/api/jobs.go) ----------

  datatype LegacyKind = LegacyPlan | LegacyApply

  function LegacyJob(typ: JobType, raw: EnvironmentSpec, user: User, id: Id, now: nat): Option<Job> {
    var spec := Normalize(raw);
    if Validate(spec).Some? || typ == Apply then None
    else Some(Job(id, typ, Queued, now, NONE, Create, spec, "", NONE, NoPlan, "", NONE, 0, 3, user.id, NoFailure))
  }

  // handlePlan and handleApply with buildDerivedJob, on the source row they read.
  function DerivedJob(kind: LegacyKind, user: User, src: Job, id: Id, now: nat): Option<Job> {
    var spec := Normalize(src.spec);
    if src.env != NONE || Validate(spec).Some? then None
    else match kind
      case LegacyPlan =>
        Some(Job(id, Plan, Queued, now, src.env, src.operation, spec, src.template,
                 NONE, NoPlan, "", src.id, 0, src.maxRetries, src.requestedBy, NoFailure))
      case LegacyApply =>
        if !user.isAdmin || src.typ != Plan || src.status != Done || src.planPath == NoPlan || src.workdir == NONE then None
        else Some(Job(id, Apply, Queued, now, src.env, src.operation, spec, src.template,
                      src.workdir, src.planPath, "", src.id, 0, src.maxRetries, src.requestedBy, NoFailure))
  }

  // ---------- What callers can rely on ----------

  predicate ApprovesOrApplies(rq: Request) {
    rq.body.ApproveBody? || rq.body.ApplyBody?
  }

  /** A reset leaves nothing to approve or to apply, whoever asks and whatever job row is read, and
      touches nothing but the traces of the attempt. */
  lemma ResetLeavesNothing(env: Environment, job: Option<Job>, rq: Request, id: Id, now: nat)
    requires ApprovesOrApplies(rq)
    ensures Decide(ResetAttempt(env), job, rq, id, now).Reject?
    ensures ResetAttempt(env).(approval := env.approval, approvedBy := env.approvedBy, lastError := env.lastError,
                               workdir := env.workdir, planPath := env.planPath, outputs := env.outputs,
                               lastPlanJob := env.lastPlanJob) == env
  {
    hide Validate, Normalize;
  }

  /** A derived job belongs to no environment and names its source. A derived plan carries no artifact
      and cannot be applied before it has run; a derived apply takes over the artifact of a done plan,
      and only for an admin. */
  lemma DerivedJobArtifact(kind: LegacyKind, user: User, src: Job, id: Id, now: nat)
    requires DerivedJob(kind, user, src, id, now).Some?
    ensures var job := DerivedJob(kind, user, src, id, now).value;
            && src.env == job.env == NONE && job.source == src.id && job.retryCount == 0
            && (kind.LegacyPlan? ==>
                  && job.workdir == NONE && job.planPath == NoPlan
                  && forall other, id', now' :: DerivedJob(LegacyApply, other, job, id', now').None?)
            && (kind.LegacyApply? ==>
                  && user.isAdmin && src.typ == Plan && src.status == Done
                  && job.workdir == src.workdir != NONE && job.planPath == src.planPath == PlanBin)
  {
    hide Validate, Normalize;
  }
}
