/** cmd/runner/main.go: one pass of the job loop as a machine whose every move touches the shared
    store or the shared plan files at most once. */
module RunnerLoop {
  import opened Domain
  import opened Validation
  import opened Store

  // Where the runner stands in its loop body. `job` in a Busy state is the runner's local copy.
  datatype Stage =
    | Start                                     // claimed; nothing done yet
    | SaveWorkdir                               // about to persist the chosen workdir
    | Init                                      // about to run tofu init and validate
    | SavePlanPath                              // about to persist the plan path
    | RunPlan                                   // about to run tofu plan
    | SaveApply                                 // about to persist the source's workdir and plan path
    | RunApply                                  // about to check the plan file and run tofu apply
    | SaveDone                                  // about to mark the job done
    | ReportSuccess                             // about to load the environment after success
    | CommitSuccess(env: Environment)           // about to update the environment after success
    | SaveFailure(message: Failure)              // failJob: about to mark the job failed
    | ReportFailure(message: Failure)            // failJob: about to load the environment
    | CommitFailure(message: Failure, env: Environment)
    | Auditing(event: AuditEvent)               // about to record the audit event

  datatype Runner = Idle | Busy(job: Job, stage: Stage)

  // What the outside world decides at a move: whether the command or preparation succeeds, the
  // text it yields, and one side effect: at Start, that the provider was there and it is the workdir
  // that could not be made; at SaveWorkdir of a destroy plan, `ok` is that the write succeeded; at RunPlan, that a failing plan command still overwrote the plan file;
  // at RunApply, that outputs were available; at SaveFailure, that the job write was lost.
  datatype Choice = Choice(ok: bool, text: string, side: bool)

  // The shared state a runner touches. `plans` maps a workdir to the job that last wrote its plan
  // file; `settled` records the jobs whose runner has updated the environment.
  datatype Shared = Shared(db: Db, plans: map<Id, Id>, settled: set<Id>)

  datatype Move = Move(shared: Shared, runner: Runner)

  function Fail(s: Shared, job: Job, message: Failure): Move {
    Move(s, Busy(job, SaveFailure(message)))
  }

  function WithTemplate(job: Job): Job {
    if job.template == "" then job.(template := "basic") else job
  }

  function StartApply(s: Shared, job: Job): Move {
    if job.source == NONE then Fail(s, job, ApplyWithoutSource)
    else if job.source !in s.db.jobs then Fail(s, job, SourceNotLoaded)
    else
      var src := s.db.jobs[job.source];
      if src.typ != Plan || src.status != Done then Fail(s, job, SourceNotDonePlan)
      else if src.workdir == NONE || src.planPath == NoPlan then Fail(s, job, SourceWithoutArtifact)
      else Move(s, Busy(job.(workdir := src.workdir, planPath := src.planPath, template := src.template, error := NoFailure), SaveApply))
  }

  // prepareDestroyPlanJob up to its store write.
  function StartDestroyPlan(s: Shared, job: Job): Move {
    if job.env == NONE then Fail(s, job, DestroyWithoutEnvironment)
    else if job.env !in s.db.envs then Fail(s, job, EnvironmentNotLoaded)
    else if s.db.envs[job.env].workdir == NONE then Fail(s, job, NoAppliedWorkdir)
    else Move(s, Busy(job.(workdir := s.db.envs[job.env].workdir, error := NoFailure), SaveWorkdir))
  }

  predicate MakesWorkdir(job: Job) {
    job.typ != Apply && job.operation != Destroy
  }

  function StartPlan(s: Shared, job: Job, c: Choice): Move {
    var spec := Normalize(job.spec);
    var job' := job.(spec := spec);
    if Validate(spec).Some? then Fail(s, job', SpecRefused)
    else if !c.ok then Fail(s, job', OutsideFailure(c.text))
    else Move(s, Busy(job'.(workdir := job.id, error := NoFailure), SaveWorkdir))
  }

  function SuccessStatus(job: Job, current: EnvironmentStatus): EnvironmentStatus {
    match job.typ
    case Plan => PendingApproval
    case Apply => if job.operation == Destroy then Destroyed else Active
    case EnvironmentCreate => current
  }

  // recordRunnerEnvironmentSuccess on the environment row it loaded.
  function AfterSuccess(env: Environment, job: Job): Environment {
    env.(lastJob := job.id, lastError := NoFailure, workdir := job.workdir, planPath := job.planPath,
         outputs := job.outputs, revision := env.revision + 1,
         lastPlanJob := if job.typ == Plan then job.id else env.lastPlanJob,
         lastApplyJob := if job.typ == Apply then job.id else env.lastApplyJob,
         status := SuccessStatus(job, env.status),
         approval := if job.typ == Plan then Pending else env.approval)
  }

  // failJob on the environment row it loaded.
  function AfterFailure(env: Environment, job: Job, message: Failure): Environment {
    env.(status := Failed, lastError := message, lastJob := job.id, revision := env.revision + 1)
  }

  function RunnerEvent(job: Job, action: Action): AuditEvent {
    AuditEvent(job.env, NONE, action)
  }

  // Loading the environment at the end of a job; the row is kept for the compare-and-set.
  function LoadEnvironment(s: Shared, job: Job, next: Environment -> Stage): Move {
    if job.env == NONE || job.env !in s.db.envs then Move(s, Idle)
    else
      var env := s.db.envs[job.env];
      if env.lastJob != NONE && env.lastJob != job.id
      then Move(s, Busy(job, Auditing(RunnerEvent(job, JobIgnored(job.id)))))
      else Move(s, Busy(job, next(env)))
  }

  function UpdateFromJob(s: Shared, job: Job, env': Environment, success: Action): Move {
    if CasHolds(s.db, env')
    then Move(Shared(PutEnvironment(s.db, env'), s.plans, s.settled + {job.id}),
              Busy(job, Auditing(RunnerEvent(job, success))))
    else Move(s, Busy(job, Auditing(RunnerEvent(job, JobConflict(job.id)))))
  }

  function SaveJob(s: Shared, job: Job, next: Stage): Move {
    if job.id in s.db.jobs then Move(s.(db := PutJob(s.db, job)), Busy(job, next))
    else Move(s, Idle)
  }

  // prepareDestroyPlanJob hands an error of its store write to failJob; every other failed write ends
  // the runner's work on the job at once.
  predicate CannotSave(s: Shared, job: Job, stage: Stage, c: Choice) {
    stage.SaveWorkdir? && job.operation == Destroy && (!c.ok || job.id !in s.db.jobs)
  }

  /** One move of a runner that holds a job. */
  function Advance(s: Shared, job: Job, stage: Stage, c: Choice): Move {
    match stage
    case Start =>
      if !c.ok && !(c.side && MakesWorkdir(job)) then Fail(s, job, OutsideFailure(c.text))
      else if job.typ == Apply then StartApply(s, job)
      else if job.operation == Destroy then StartDestroyPlan(s, WithTemplate(job))
      else StartPlan(s, WithTemplate(job), c)
    case SaveWorkdir =>
      if CannotSave(s, job, stage, c) then Fail(s, job, MetadataNotSaved) else SaveJob(s, job, Init)
    case Init =>
      if c.ok then Move(s, Busy(job.(planPath := PlanBin), SavePlanPath)) else Fail(s, job, OutsideFailure(c.text))
    case SavePlanPath => SaveJob(s, job, RunPlan)
    case RunPlan =>
      var written := s.(plans := s.plans[job.workdir := job.id]);
      if c.ok then Move(written, Busy(job.(status := Done, error := NoFailure), SaveDone))
      else Fail(if c.side then written else s, job, OutsideFailure(c.text))
    case SaveApply => SaveJob(s, job, RunApply)
    case RunApply =>
      if job.workdir !in s.plans then Fail(s, job, PlanFileMissing)
      else if !c.ok then Fail(s, job, OutsideFailure(c.text))
      else Move(s, Busy(job.(outputs := if job.operation != Destroy && c.side then c.text else job.outputs,
                             status := Done, error := NoFailure), SaveDone))
    case SaveDone => SaveJob(s, job, ReportSuccess)
    case ReportSuccess => LoadEnvironment(s, job, env => CommitSuccess(env))
    case CommitSuccess(env) => UpdateFromJob(s, job, AfterSuccess(env, job), JobSucceeded(job.id))
    case SaveFailure(message) =>
      var failed := job.(status := Broken, error := message);
      var saved := if c.side || job.id !in s.db.jobs then s else s.(db := PutJob(s.db, failed));
      Move(saved, Busy(failed, ReportFailure(message)))
    case ReportFailure(message) => LoadEnvironment(s, job, env => CommitFailure(message, env))
    case CommitFailure(message, env) => UpdateFromJob(s, job, AfterFailure(env, job, message), JobFailed(job.id, message))
    case Auditing(event) => Move(s.(db := AppendAudit(s.db, event)), Idle)
  }
}
