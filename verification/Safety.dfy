/** The invariant of the whole system. */
module Safety {
  import opened Domain
  import opened Validation
  import opened Handlers
  import opened RunnerLoop
  import opened Protocol
  import opened History

  // ---------- Rows ----------

  ghost predicate Clean(spec: EnvironmentSpec) {
    Normalize(spec) == spec && Validate(spec).None?
  }

  // A workdir belongs to the environment of the job it was created for.
  ghost predicate OwnsWorkdir(s: Shared, job: Job) {
    job.workdir != NONE ==> job.workdir in s.db.jobs && s.db.jobs[job.workdir].env == job.env
  }

  ghost predicate PlanFileIs(s: Shared, plan: Id) {
    plan in s.db.jobs && s.db.jobs[plan].workdir in s.plans && s.plans[s.db.jobs[plan].workdir] == plan
  }

  // The source of an apply job is a finished plan; for an environment, of the same environment,
  // operation and spec, and approved.
  ghost predicate SourceOk(s: Shared, job: Job) {
    && job.source in s.db.jobs
    && var src := s.db.jobs[job.source];
       && src.typ == Plan && src.status == Done && src.env == job.env
       && (job.env != NONE ==>
             && src.operation == job.operation && src.spec == job.spec
             && job.source in s.settled
             && Count(s.db.audit, ApprovalsOf(job.source)) == 1)
  }

  ghost predicate JobOk(s: Shared, job: Job) {
    && job.id != NONE
    && (job.env == NONE ==> job.operation == Create)
    && (job.env != NONE ==> job.env in s.db.envs && job.typ != EnvironmentCreate)
    && OwnsWorkdir(s, job)
    && (job.status == Done && job.typ != Apply ==> job.workdir != NONE && job.planPath == PlanBin)
    && (job.env == NONE && job.status == Done && job.typ != Apply ==>
          job.workdir == job.id && job.id in s.plans && s.plans[job.id] == job.id)
    && (job.typ == Apply ==> SourceOk(s, job))
  }

  ghost predicate StatusOk(s: Shared, env: Environment, last: Job) {
    match env.status
    case Planning => last.typ == Plan
    case Applying => last.typ == Apply
    case PendingApproval =>
      && last.typ == Plan && last.status == Done && env.lastPlanJob == env.lastJob
      && env.approval == Pending && Count(s.db.audit, ApprovalsOf(env.lastJob)) == 0
    case Approved =>
      && last.typ == Plan && last.status == Done && env.lastPlanJob == env.lastJob
      && env.approval == Granted && Count(s.db.audit, ApprovalsOf(env.lastJob)) == 1
    case Active => last.typ == Apply && last.status == Done && env.operation != Destroy
    case Destroyed => last.typ == Apply && last.status == Done && env.operation == Destroy
    case Failed => last.status == Broken || last.status == Running
    case Draft => false
    case Destroying => false
  }

  // The plan file that the next approval, apply or retry relies on is the last one written.
  ghost predicate ArtifactOk(s: Shared, last: Job) {
    && (last.typ == Plan && last.status == Done ==> PlanFileIs(s, last.id))
    && (last.typ == Apply && last.status != Done ==> PlanFileIs(s, last.source))
  }

  ghost predicate EnvOk(s: Shared, env: Environment) {
    && env.id != NONE
    && env.lastJob in s.db.jobs
    && var last := s.db.jobs[env.lastJob];
       && last.env == env.id
       && env.spec == last.spec && env.operation == last.operation
       && (env.lastJob in s.settled <==> !IsEnvironmentBusy(env.status))
       && StatusOk(s, env, last)
       && ArtifactOk(s, last)
       && (env.workdir != NONE ==> env.workdir in s.db.jobs && s.db.jobs[env.workdir].env == env.id)
  }

  ghost predicate RowsOk(s: Shared) {
    && (forall j :: j in s.db.jobs ==> s.db.jobs[j].id == j && JobOk(s, s.db.jobs[j]))
    && (forall e :: e in s.db.envs ==> s.db.envs[e].id == e && EnvOk(s, s.db.envs[e]))
  }

  // Every environment job but the last one has been settled.
  ghost predicate OnlyLastUnsettled(s: Shared) {
    forall j :: j in s.db.jobs && s.db.jobs[j].env in s.db.envs && s.db.envs[s.db.jobs[j].env].lastJob != j ==> j in s.settled
  }

  ghost predicate SettledOk(s: Shared) {
    forall j :: j in s.settled ==> j in s.db.jobs && s.db.jobs[j].env != NONE && s.db.jobs[j].status != Queued
  }

  ghost predicate ApprovalsOk(s: Shared) {
    forall p :: Count(s.db.audit, ApprovalsOf(p)) > 0 ==>
      && Count(s.db.audit, ApprovalsOf(p)) == 1
      && p in s.settled && p in s.db.jobs && s.db.jobs[p].typ == Plan
  }

  ghost predicate IsManagedApply(s: Shared, a: Id) {
    a in s.db.jobs && s.db.jobs[a].typ == Apply && s.db.jobs[a].env in s.db.envs
  }

  // An unfinished attempt, under way or failed, to apply a plan.
  ghost predicate Attempting(s: Shared, env: Environment, plan: Id) {
    && env.lastJob in s.db.jobs
    && s.db.jobs[env.lastJob].typ == Apply
    && s.db.jobs[env.lastJob].status != Done
    && s.db.jobs[env.lastJob].source == plan
  }

  // An apply job uses the plan of an earlier job, and while a plan's apply is being attempted no
  // apply of that plan has succeeded.
  ghost predicate ApplyOk(s: Shared, a: Id)
    requires IsManagedApply(s, a)
  {
    var env := s.db.envs[s.db.jobs[a].env];
    && s.db.jobs[a].source != env.lastJob
    && (Attempting(s, env, s.db.jobs[a].source) ==> s.db.jobs[a].status != Done)
  }

  ghost predicate IsDoneApply(s: Shared, a: Id, plan: Id) {
    IsManagedApply(s, a) && s.db.jobs[a].source == plan && s.db.jobs[a].status == Done
  }

  ghost predicate AppliesOk(s: Shared) {
    && (forall a :: IsManagedApply(s, a) ==> ApplyOk(s, a))
    && (forall a, b, plan :: IsDoneApply(s, a, plan) && IsDoneApply(s, b, plan) ==> a == b)
  }

  ghost predicate SharedOk(s: Shared) {
    RowsOk(s) && OnlyLastUnsettled(s) && SettledOk(s) && ApprovalsOk(s) && AppliesOk(s)
  }

  ghost predicate StoredSpec(s: Shared, spec: EnvironmentSpec) {
    || (exists j :: j in s.db.jobs && s.db.jobs[j].spec == spec)
    || (exists e :: e in s.db.envs && s.db.envs[e].spec == spec)
  }

  // Every stored spec is normalized and valid.
  ghost predicate SpecsOk(s: Shared) {
    forall spec :: StoredSpec(s, spec) ==> Clean(spec)
  }

  // ---------- Runners ----------

  ghost predicate SameJob(job: Job, row: Job) {
    && job.id == row.id && job.typ == row.typ && job.env == row.env && job.operation == row.operation
    && job.spec == row.spec && job.source == row.source && job.createdAt == row.createdAt
    && job.retryCount == row.retryCount && job.maxRetries == row.maxRetries
  }

  ghost predicate ReadyToPlan(job: Job) {
    && job.typ != Apply && job.workdir != NONE
    && (job.env == NONE || job.operation != Destroy ==> job.workdir == job.id)
  }

  ghost predicate ReadyToApply(s: Shared, job: Job) {
    && job.typ == Apply && job.source in s.db.jobs
    && job.workdir == s.db.jobs[job.source].workdir && job.planPath == PlanBin
  }

  ghost predicate AtStage(s: Shared, job: Job, stage: Stage)
    requires job.id in s.db.jobs
  {
    var row := s.db.jobs[job.id];
    match stage
    case Start => row == job && job.status == Running
    case SaveWorkdir => row.status == Running && job.status == Running && ReadyToPlan(job)
    case Init => row.status == Running && job.status == Running && ReadyToPlan(job)
    case SavePlanPath => row.status == Running && job.status == Running && ReadyToPlan(job) && job.planPath == PlanBin
    case RunPlan => row.status == Running && job.status == Running && ReadyToPlan(job) && job.planPath == PlanBin
    case SaveApply => row.status == Running && job.status == Running && ReadyToApply(s, job)
    case RunApply => row.status == Running && job.status == Running && ReadyToApply(s, job)
    case SaveDone =>
      && row.status == Running && job.status == Done
      && (job.typ != Apply ==> ReadyToPlan(job) && job.planPath == PlanBin && job.workdir in s.plans && s.plans[job.workdir] == job.id)
    case ReportSuccess => row == job && job.status == Done
    case CommitSuccess(env) => row == job && job.status == Done && job.env in s.db.envs && env == s.db.envs[job.env]
    case SaveFailure(_) => row.status == Running && job.status == Running
    case ReportFailure(_) => (row == job || row.status == Running) && job.status == Broken
    case CommitFailure(_, env) =>
      (row == job || row.status == Running) && job.status == Broken && job.env in s.db.envs && env == s.db.envs[job.env]
    case Auditing(_) => true
  }

  // A runner that has not yet settled its job.
  ghost predicate Holding(runner: Runner) {
    runner.Busy? && !runner.stage.Auditing?
  }

  // The only audit rows a runner writes: never that a result was ignored or lost a race.
  predicate ReportsOutcome(event: AuditEvent) {
    event.action.JobSucceeded? || event.action.JobFailed?
  }

  ghost predicate RunnerOk(s: Shared, runner: Runner) {
    if Holding(runner) then HolderOk(s, runner.job, runner.stage)
    else runner.Busy? ==> ReportsOutcome(runner.stage.event)
  }

  ghost predicate HolderOk(s: Shared, job: Job, stage: Stage) {
    && job.id in s.db.jobs
    && SameJob(job, s.db.jobs[job.id])
    && job.id !in s.settled
    && OwnsWorkdir(s, job)
    && AtStage(s, job, stage)
  }

  // No finished job's result was ignored, and no runner lost a compare-and-set.
  ghost predicate NothingDropped(audit: seq<AuditEvent>) {
    forall i :: 0 <= i < |audit| ==> !audit[i].action.JobIgnored? && !audit[i].action.JobConflict?
  }

  ghost predicate Holds(w: World, r: nat) {
    r in w.runners && Holding(w.runners[r])
  }

  ghost predicate RunnersOk(w: World) {
    && (forall r :: r in w.runners ==> RunnerOk(w.shared, w.runners[r]))
    && (forall r, r' :: Holds(w, r) && Holds(w, r') && r != r' ==> w.runners[r].job.id != w.runners[r'].job.id)
  }

  // ---------- Requests in flight ----------

  ghost predicate FinalRow(s: Shared, job: Job) {
    job.id in s.db.jobs && (job.status == Done || job.status == Broken ==> s.db.jobs[job.id] == job)
  }

  ghost predicate SnapshotOk(s: Shared, p: Pending) {
    && p.env.id == p.rq.env && p.env.id in s.db.envs
    && p.env.revision <= s.db.envs[p.env.id].revision
    && (p.env.revision == s.db.envs[p.env.id].revision ==> p.env == s.db.envs[p.env.id])
    && (p.RowsRead? && p.job.Some? ==> p.job.value.id == JobToRead(p.env, p.rq.body) && FinalRow(s, p.job.value))
  }

  ghost predicate LegacyOk(s: Shared, src: Job) {
    FinalRow(s, src) && s.db.jobs[src.id].env == src.env && (src.env == NONE ==> src.operation == Create)
  }

  ghost predicate RequestsOk(w: World) {
    && (forall k :: k in w.requests ==> SnapshotOk(w.shared, w.requests[k]))
    && (forall k :: k in w.legacy ==> LegacyOk(w.shared, w.legacy[k].src))
  }

  ghost predicate StoreOk(s: Shared) {
    SharedOk(s) && SpecsOk(s) && NothingDropped(s.db.audit)
  }

  ghost predicate Inv(w: World) {
    StoreOk(w.shared) && RunnersOk(w) && RequestsOk(w)
  }
}
