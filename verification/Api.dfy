/** The request handlers of internal/api/environments.go and internal/api/jobs.go as the methods they
    are: each loads its rows, checks its guards one after the other, assigns the environment's fields
    and issues one bundled mutation. */
module Api {
  import opened Wrappers
  import opened Domain
  import opened Validation
  import opened Store
  import opened Handlers

  datatype Response = Refused(reason: Reason) | Accepted(env: Environment, job: Option<Job>)
  datatype JobResponse = NotCreated | Created(job: Job)

  // What a decision makes of the database and the caller.
  ghost predicate Carries(before: Db, after: Db, d: Decision, r: Response) {
    match d
    case Reject(reason) => r == Refused(reason) && after == before
    case Commit(env, job, event) => r == Accepted(env, job) && after == Bundle(before, env, job, event)
  }

  predicate ForAdmins(body: Body) {
    body.ApproveBody? || body.ApplyBody? || body.DestroyBody?
  }

  /** The decision on the rows that are stored; the admin check of a route precedes its first read. */
  function Answer(db: Db, rq: Request, id: Id, now: nat): Decision {
    if ForAdmins(rq.body) && !rq.user.isAdmin then Reject(AdminRequired)
    else if rq.env !in db.envs then Reject(NotFound)
    else
      var env := db.envs[rq.env];
      Decide(env, LookupJob(db, JobToRead(env, rq.body)), rq, id, now)
  }

  predicate Keyed(db: Db) {
    forall e :: e in db.envs ==> db.envs[e].id == e
  }

  class Server {
    const db: Database

    constructor (db: Database)
      ensures this.db == db
    {
      this.db := db;
    }

    method NormalizeAndValidate(spec: EnvironmentSpec) returns (normalized: EnvironmentSpec, error: Option<SpecError>)
      ensures normalized == Normalize(spec) && error == Validate(normalized)
    {
      var instances := new Instance[|spec.instances|](i requires 0 <= i < |spec.instances| => spec.instances[i]);
      var groups := new string[|spec.securityGroups|](i requires 0 <= i < |spec.securityGroups| => spec.securityGroups[i]);
      assert spec.instances == instances[..] && spec.securityGroups == groups[..];
      normalized := NormalizeEnvironmentSpec(spec, instances, groups);
      error := ValidateEnvironmentSpec(normalized);
    }

    method HandleCreate(raw: EnvironmentSpec, template: string, user: User, id: Id, jobId: Id, now: nat) returns (r: Response)
      modifies db
      ensures var d := CreateDecision(raw, template, user, id, jobId, now);
              if d.Commit? && (id in old(db.envs) || jobId in old(db.jobs))
              then r == Refused(CreateFailed) && db.Contents() == old(db.Contents())
              else Carries(old(db.Contents()), db.Contents(), d, r)
    {
      var spec, error := NormalizeAndValidate(raw);
      if error.Some? { return Refused(InvalidSpec(error.value)); }
      var env := Environment(id, spec.environmentName, Planning, Create, NotRequested, spec, user.id, NONE,
                             NONE, NONE, NONE, NoFailure, 0, 3, NONE, NoPlan, "", 1);
      var job := NewPlanJob(env, template, user.id, jobId, now);
      env := env.(lastPlanJob := job.id);
      env := env.(lastJob := job.id);
      var ok := db.CreateEnvironmentWithJobAndAudit(env, job, AuditEvent(id, user.id, EnvironmentCreated(job.id)));
      if !ok { return Refused(CreateFailed); }
      r := Accepted(env, Some(job));
    }

    // resetEnvironmentAttemptState
    method ResetAttemptState(before: Environment) returns (env: Environment)
      ensures env == ResetAttempt(before)
    {
      env := before.(approval := NotRequested);
      env := env.(approvedBy := NONE);
      env := env.(lastError := NoFailure);
      env := env.(workdir := NONE);
      env := env.(planPath := NoPlan);
      env := env.(outputs := "");
      env := env.(lastPlanJob := NONE);
    }

    method HandlePlan(rq: Request, id: Id, now: nat) returns (r: Response)
      requires rq.body.PlanBody? && Keyed(db.Contents()) && id !in db.jobs
      modifies db
      ensures Carries(old(db.Contents()), db.Contents(), Answer(old(db.Contents()), rq, id, now), r)
    {
      hide Validate, Normalize;
      var loaded := db.GetEnvironment(rq.env);
      if loaded.None? { return Refused(NotFound); }
      var env := loaded.value;
      if rq.body.spec.Some? { env := env.(spec := rq.body.spec.value); }
      var spec, error := NormalizeAndValidate(env.spec);
      if error.Some? { return Refused(InvalidSpec(error.value)); }
      env := env.(spec := spec);
      var operation;
      if rq.body.operation.Some? { operation := rq.body.operation.value; } else { operation := DefaultPlanOperation(env); }
      var access := PlanAccess(env, operation);
      if access.Some? { return Refused(access.value); }
      if !RevisionAsExpected(env, rq.expected) { return Refused(RevisionMismatch); }
      env := env.(name := env.spec.environmentName);
      env := env.(operation := operation);
      env := env.(status := Planning);
      env := ResetAttemptState(env);
      env := env.(revision := env.revision + 1);
      var job := NewPlanJob(env, rq.body.template, rq.user.id, id, now);
      env := env.(lastPlanJob := job.id);
      env := env.(lastJob := job.id);
      var ok := db.UpdateEnvironmentWithJobAndAudit(env, job, AuditEvent(env.id, rq.user.id, PlanRequested(job.id, operation)));
      if !ok { return Refused(ChangedConcurrently); }
      r := Accepted(env, Some(job));
    }

    method HandleApprove(rq: Request, id: Id, now: nat) returns (r: Response)
      requires rq.body.ApproveBody? && Keyed(db.Contents())
      modifies db
      ensures Carries(old(db.Contents()), db.Contents(), Answer(old(db.Contents()), rq, id, now), r)
    {
      if !rq.user.isAdmin { return Refused(AdminRequired); }
      var loaded := db.GetEnvironment(rq.env);
      if loaded.None? { return Refused(NotFound); }
      var env := loaded.value;
      if env.lastPlanJob == NONE { return Refused(NoPlanToApprove); }
      if !CanApprovePlan(env.status, env.approval) { return Refused(NotAwaitingApproval); }
      var job := db.GetJob(env.lastPlanJob);
      if job.None? { return Refused(JobNotLoaded); }
      if job.value.status != Done { return Refused(PlanNotDone); }
      if !RevisionAsExpected(env, rq.expected) { return Refused(RevisionMismatch); }
      env := env.(approval := Granted);
      env := env.(status := Approved);
      env := env.(approvedBy := rq.user.id);
      env := env.(revision := env.revision + 1);
      var ok := db.UpdateEnvironmentWithAudit(env, AuditEvent(env.id, rq.user.id, PlanApproved(env.lastPlanJob, rq.body.comment)));
      if !ok { return Refused(ChangedConcurrently); }
      r := Accepted(env, None);
    }

    method HandleApply(rq: Request, id: Id, now: nat) returns (r: Response)
      requires rq.body.ApplyBody? && Keyed(db.Contents()) && id !in db.jobs
      modifies db
      ensures Carries(old(db.Contents()), db.Contents(), Answer(old(db.Contents()), rq, id, now), r)
    {
      hide Validate, Normalize;
      if !rq.user.isAdmin { return Refused(AdminRequired); }
      var loaded := db.GetEnvironment(rq.env);
      if loaded.None? { return Refused(NotFound); }
      var env := loaded.value;
      if env.approval != Granted { return Refused(ApprovalRequired); }
      if !RevisionAsExpected(env, rq.expected) { return Refused(RevisionMismatch); }
      if !CanQueueApply(env.status, env.approval, env.operation) { return Refused(NotApprovedForApply); }
      var spec, error := NormalizeAndValidate(env.spec);
      if error.Some? { return Refused(InvalidSpec(error.value)); }
      env := env.(spec := spec);
      var planJob := db.GetJob(env.lastPlanJob);
      if planJob.None? { return Refused(JobNotLoaded); }
      if planJob.value.status != Done || planJob.value.planPath == NoPlan || planJob.value.workdir == NONE {
        return Refused(ArtifactNotReady);
      }
      var job := Job(id, Apply, JobStatus.Queued, now, env.id, env.operation, env.spec, planJob.value.template,
                     planJob.value.workdir, planJob.value.planPath, "", planJob.value.id, 0, env.maxRetries, rq.user.id, NoFailure);
      env := env.(status := Applying);
      env := env.(lastApplyJob := job.id);
      env := env.(lastJob := job.id);
      env := env.(revision := env.revision + 1);
      var ok := db.UpdateEnvironmentWithJobAndAudit(env, job, AuditEvent(env.id, rq.user.id, ApplyRequested(job.id)));
      if !ok { return Refused(ChangedConcurrently); }
      r := Accepted(env, Some(job));
    }

    method HandleRetry(rq: Request, id: Id, now: nat) returns (r: Response)
      requires rq.body.RetryBody? && Keyed(db.Contents()) && id !in db.jobs
      modifies db
      ensures Carries(old(db.Contents()), db.Contents(), Answer(old(db.Contents()), rq, id, now), r)
    {
      hide Normalize;
      var loaded := db.GetEnvironment(rq.env);
      if loaded.None? { return Refused(NotFound); }
      var env := loaded.value;
      if env.lastJob == NONE { return Refused(NoJobToRetry); }
      if !RevisionAsExpected(env, rq.expected) { return Refused(RevisionMismatch); }
      var lastJob := db.GetJob(env.lastJob);
      if lastJob.None? { return Refused(JobNotLoaded); }
      if lastJob.value.status != Broken { return Refused(LastJobNotFailed); }
      if env.retryCount >= env.maxRetries { return Refused(BudgetExhausted); }
      var access := RetryAccess(rq.user, env, lastJob.value);
      if access.Some? { return Refused(access.value); }
      var retryJob := lastJob.value;
      retryJob := retryJob.(spec := Normalize(retryJob.spec));
      retryJob := retryJob.(id := id);
      retryJob := retryJob.(status := JobStatus.Queued);
      retryJob := retryJob.(createdAt := now);
      retryJob := retryJob.(error := NoFailure);
      retryJob := retryJob.(retryCount := lastJob.value.retryCount + 1);
      retryJob := retryJob.(requestedBy := rq.user.id);
      env := env.(retryCount := env.retryCount + 1);
      env := env.(lastJob := retryJob.id);
      if retryJob.typ == Apply {
        env := env.(status := Applying);
      } else {
        env := env.(status := Planning);
      }
      env := ResetAttemptState(env);
      env := env.(revision := env.revision + 1);
      var ok := db.UpdateEnvironmentWithJobAndAudit(env, retryJob, AuditEvent(env.id, rq.user.id, RetryRequested(retryJob.id)));
      if !ok { return Refused(ChangedConcurrently); }
      r := Accepted(env, Some(retryJob));
    }

    method HandleDestroy(rq: Request, id: Id, now: nat) returns (r: Response)
      requires rq.body.DestroyBody? && Keyed(db.Contents()) && id !in db.jobs
      modifies db
      ensures Carries(old(db.Contents()), db.Contents(), Answer(old(db.Contents()), rq, id, now), r)
    {
      hide Normalize;
      if !rq.user.isAdmin { return Refused(AdminRequired); }
      var loaded := db.GetEnvironment(rq.env);
      if loaded.None? { return Refused(NotFound); }
      var env := loaded.value;
      if rq.body.confirmation != env.name { return Refused(ConfirmationMismatch); }
      var access := DestroyAccess(env);
      if access.Some? { return Refused(access.value); }
      if !RevisionAsExpected(env, rq.expected) { return Refused(RevisionMismatch); }
      var appliedWorkdir := env.workdir;
      env := env.(spec := Normalize(env.spec));
      env := env.(operation := Destroy);
      env := env.(status := Planning);
      env := ResetAttemptState(env);
      env := env.(workdir := appliedWorkdir);
      env := env.(revision := env.revision + 1);
      var job := NewPlanJob(env, "", rq.user.id, id, now);
      env := env.(lastPlanJob := job.id);
      env := env.(lastJob := job.id);
      var ok := db.UpdateEnvironmentWithJobAndAudit(
        env, job, AuditEvent(env.id, rq.user.id, DestroyRequested(job.id, rq.body.confirmation, rq.body.comment)));
      if !ok { return Refused(ChangedConcurrently); }
      r := Accepted(env, Some(job));
    }

    // ---------- internal/api/jobs.go ----------

    // What a legacy route makes of the job it has built, if it has built one.
    twostate predicate Inserts(job: Option<Job>, r: JobResponse)
      reads db
    {
      if job.Some? && job.value.id !in old(db.jobs)
      then r == Created(job.value) && db.Contents() == PutJob(old(db.Contents()), job.value)
      else r == NotCreated && db.Contents() == old(db.Contents())
    }

    method HandleJobs(typ: JobType, raw: EnvironmentSpec, user: User, id: Id, now: nat) returns (r: JobResponse)
      modifies db
      ensures Inserts(LegacyJob(typ, raw, user, id, now), r)
    {
      hide Validate, Normalize;
      var spec, error := NormalizeAndValidate(raw);
      if error.Some? { return NotCreated; }
      if typ == Apply { return NotCreated; }
      var job := Job(id, typ, JobStatus.Queued, now, NONE, Create, spec, "", NONE, NoPlan, "", NONE, 0, 3, user.id, NoFailure);
      var ok := db.CreateJob(job);
      if !ok { return NotCreated; }
      r := Created(job);
    }

    // buildDerivedJob
    method BuildDerivedJob(src: Job, typ: JobType, id: Id, now: nat) returns (job: Job)
      ensures job == Job(id, typ, JobStatus.Queued, now, src.env, src.operation, src.spec, src.template,
                         if typ == Apply then src.workdir else NONE, if typ == Apply then src.planPath else NoPlan,
                         "", if typ == EnvironmentCreate then NONE else src.id, 0, src.maxRetries, src.requestedBy, NoFailure)
    {
      job := Job(id, typ, JobStatus.Queued, now, src.env, src.operation, src.spec, src.template,
                 NONE, NoPlan, "", NONE, 0, src.maxRetries, src.requestedBy, NoFailure);
      match typ {
        case Plan => job := job.(source := src.id);
        case Apply =>
          job := job.(workdir := src.workdir);
          job := job.(planPath := src.planPath);
          job := job.(source := src.id);
        case EnvironmentCreate =>
      }
    }

    method HandleJobPlan(srcId: Id, user: User, id: Id, now: nat) returns (r: JobResponse)
      modifies db
      ensures Inserts(if srcId in old(db.jobs) then DerivedJob(LegacyPlan, user, old(db.jobs)[srcId], id, now) else None, r)
    {
      hide Validate, Normalize;
      var loaded := db.GetJob(srcId);
      if loaded.None? { return NotCreated; }
      var src := loaded.value;
      var spec, error := NormalizeAndValidate(src.spec);
      if error.Some? { return NotCreated; }
      src := src.(spec := spec);
      if src.env != NONE { return NotCreated; }
      var job := BuildDerivedJob(src, Plan, id, now);
      var ok := db.CreateJob(job);
      if !ok { return NotCreated; }
      r := Created(job);
    }

    method HandleJobApply(srcId: Id, user: User, id: Id, now: nat) returns (r: JobResponse)
      modifies db
      ensures Inserts(if srcId in old(db.jobs) then DerivedJob(LegacyApply, user, old(db.jobs)[srcId], id, now) else None, r)
    {
      hide Validate, Normalize;
      if !user.isAdmin { return NotCreated; }
      var loaded := db.GetJob(srcId);
      if loaded.None? { return NotCreated; }
      var src := loaded.value;
      if src.typ != Plan { return NotCreated; }
      if src.status != Done { return NotCreated; }
      if src.planPath == NoPlan || src.workdir == NONE { return NotCreated; }
      if src.env != NONE { return NotCreated; }
      var spec, error := NormalizeAndValidate(src.spec);
      if error.Some? { return NotCreated; }
      src := src.(spec := spec);
      var job := BuildDerivedJob(src, Apply, id, now);
      var ok := db.CreateJob(job);
      if !ok { return NotCreated; }
      r := Created(job);
    }
  }
}
