/** The rows each request leaves, field by field, in terms of the rows stored before it; and the reason
    it is given when it is refused. */
module Commits {
  import opened Wrappers
  import opened Domain
  import opened Validation
  import opened Store
  import opened Handlers
  import opened RunnerLoop
  import opened Protocol
  import opened Safety
  import opened Preservation
  import opened Guarantees
  import Api

  // The world after a request that nobody interrupts.
  ghost function Handled(w: World, k: nat, rq: Request, id: Id, now: nat): World
    requires Reachable(w) && k !in w.requests && rq.env in w.shared.db.envs && Fresh(w, id)
  {
    UninterruptedRequest(w, k, rq, id, now);
    Exec(Exec(Exec(w, ReadEnv(k, rq)), ReadJob(k)), CommitRequest(k, id, now))
  }

  // One environment row replaced, at most one job row added, one audit row appended, nothing else.
  predicate Stores(db: Db, db': Db, env: Environment, job: Option<Job>, event: AuditEvent) {
    && db'.envs == db.envs[env.id := env]
    && db'.jobs == (if job.Some? then db.jobs[job.value.id := job.value] else db.jobs)
    && db'.audit == db.audit + [event]
  }

  lemma BundleStores(db: Db, env: Environment, job: Option<Job>, event: AuditEvent)
    ensures Stores(db, Bundle(db, env, job, event), env, job, event)
  {
  }

  // The stored rows a decision is taken on.
  lemma HandledStores(w: World, k: nat, rq: Request, id: Id, now: nat)
    requires Reachable(w) && k !in w.requests && rq.env in w.shared.db.envs && Fresh(w, id)
    ensures var d := DecideNow(w.shared, rq, id, now);
            if d.Commit? then Stores(w.shared.db, Handled(w, k, rq, id, now).shared.db, d.env, d.job, d.event)
            else Handled(w, k, rq, id, now).shared.db == w.shared.db
    ensures w.shared.db.envs[rq.env].id == rq.env && RowFacts(w.shared, rq.env)
  {
    var d := DecideNow(w.shared, rq, id, now);
    hide Reachable, Enabled, Exec, Inv, Stores, DecideNow, Bundle, RowFacts, Fresh;
    UninterruptedRequest(w, k, rq, id, now);
    ReachableInv(w);
    StoredFacts(w, rq.env);
    if d.Commit? {
      BundleStores(w.shared.db, d.env, d.job, d.event);
    }
  }

  // ---------- Plan ----------

  // What a plan request plans: what it says, or else by the state the environment is in.
  function PlannedOperation(env: Environment, requested: Option<Operation>): Operation {
    match requested
    case Some(operation) => operation
    case None => if env.status == Destroyed then Create else Update
  }

  lemma PlanDecided(s: Shared, rq: Request, id: Id, now: nat)
    requires rq.env in s.db.envs && rq.body.PlanBody? && RowFacts(s, rq.env) && DecideNow(s, rq, id, now).Commit?
    ensures var env := s.db.envs[rq.env];
            var operation := PlannedOperation(env, rq.body.operation);
            var spec := if rq.body.spec.Some? then Normalize(rq.body.spec.value) else env.spec;
            DecideNow(s, rq, id, now) == Commit(
              env.(spec := spec, name := spec.environmentName, operation := operation, status := Planning,
                   approval := NotRequested, approvedBy := NONE, lastError := NoFailure, workdir := NONE,
                   planPath := NoPlan, outputs := "", lastPlanJob := id, lastJob := id, revision := env.revision + 1),
              Some(Job(id, Plan, Queued, now, env.id, operation, spec,
                       if rq.body.template == "" then "basic" else rq.body.template,
                       NONE, NoPlan, "", NONE, 0, env.maxRetries, rq.user.id, NoFailure)),
              AuditEvent(env.id, rq.user.id, PlanRequested(id, operation)))
  {
    hide Validate, Normalize, ArtifactOk;
  }

  /** A committed plan request: the environment is planning the given spec, normalized, or its own; a
      request that names no operation plans a create for a destroyed environment and an update for any
      other. Everything of the last attempt is gone from the row. */
  lemma PlanCommits(w: World, k: nat, rq: Request, id: Id, now: nat)
    requires Reachable(w) && k !in w.requests && rq.env in w.shared.db.envs && Fresh(w, id) && rq.body.PlanBody?
    requires DecideNow(w.shared, rq, id, now).Commit?
    ensures var db, env := w.shared.db, w.shared.db.envs[rq.env];
            var operation := PlannedOperation(env, rq.body.operation);
            var spec := if rq.body.spec.Some? then Normalize(rq.body.spec.value) else env.spec;
            Stores(db, Handled(w, k, rq, id, now).shared.db,
              env.(spec := spec, name := spec.environmentName, operation := operation, status := Planning,
                   approval := NotRequested, approvedBy := NONE, lastError := NoFailure, workdir := NONE,
                   planPath := NoPlan, outputs := "", lastPlanJob := id, lastJob := id, revision := env.revision + 1),
              Some(Job(id, Plan, Queued, now, rq.env, operation, spec,
                       if rq.body.template == "" then "basic" else rq.body.template,
                       NONE, NoPlan, "", NONE, 0, env.maxRetries, rq.user.id, NoFailure)),
              AuditEvent(rq.env, rq.user.id, PlanRequested(id, operation)))
  {
    hide *;
    HandledStores(w, k, rq, id, now);
    PlanDecided(w.shared, rq, id, now);
  }

  /** A plan request that names neither operation nor spec is accepted exactly when the environment is
      not busy and the expected revision, if any, is the stored one; what is stored then is a create
      for a destroyed environment and an update for any other. */
  lemma PlanWithoutOperation(w: World, k: nat, rq: Request, id: Id, now: nat)
    requires Reachable(w) && k !in w.requests && rq.env in w.shared.db.envs && Fresh(w, id)
    requires rq.body.PlanBody? && rq.body.operation.None? && rq.body.spec.None?
    ensures var env, db' := w.shared.db.envs[rq.env], Handled(w, k, rq, id, now).shared.db;
            var accepted := !IsEnvironmentBusy(env.status) && (rq.expected.None? || rq.expected.value == env.revision);
            && (accepted <==> db' != w.shared.db)
            && (accepted ==>
                  && rq.env in db'.envs && id in db'.jobs
                  && db'.envs[rq.env].operation == db'.jobs[id].operation
                  && db'.jobs[id].operation == if env.status == Destroyed then Create else Update)
  {
    hide Reachable, Handled, DecideNow, IsEnvironmentBusy, RowFacts;
    PlanAcceptedWhen(w, rq, id, now);
    HandledStores(w, k, rq, id, now);
    if DecideNow(w.shared, rq, id, now).Commit? {
      PlanCommits(w, k, rq, id, now);
    }
  }

  // ---------- Approve ----------

  lemma ApproveDecided(s: Shared, rq: Request, id: Id, now: nat)
    requires rq.env in s.db.envs && rq.body.ApproveBody? && DecideNow(s, rq, id, now).Commit?
    ensures var env := s.db.envs[rq.env];
            DecideNow(s, rq, id, now) == Commit(
              env.(approval := Granted, status := Approved, approvedBy := rq.user.id, revision := env.revision + 1), None,
              AuditEvent(env.id, rq.user.id, PlanApproved(env.lastPlanJob, rq.body.comment)))
  {
    hide Validate, Normalize;
  }

  /** A committed approval records who approved which plan, and changes nothing else. */
  lemma ApproveCommits(w: World, k: nat, rq: Request, id: Id, now: nat)
    requires Reachable(w) && k !in w.requests && rq.env in w.shared.db.envs && Fresh(w, id) && rq.body.ApproveBody?
    requires DecideNow(w.shared, rq, id, now).Commit?
    ensures var db, env := w.shared.db, w.shared.db.envs[rq.env];
            Stores(db, Handled(w, k, rq, id, now).shared.db,
              env.(approval := Granted, status := Approved, approvedBy := rq.user.id, revision := env.revision + 1), None,
              AuditEvent(rq.env, rq.user.id, PlanApproved(env.lastPlanJob, rq.body.comment)))
  {
    hide *;
    HandledStores(w, k, rq, id, now);
    ApproveDecided(w.shared, rq, id, now);
  }

  // ---------- Apply ----------

  lemma ApplyDecided(s: Shared, rq: Request, id: Id, now: nat)
    requires rq.env in s.db.envs && rq.body.ApplyBody? && RowFacts(s, rq.env) && DecideNow(s, rq, id, now).Commit?
    requires s.db.envs[rq.env].id == rq.env
    ensures var env := s.db.envs[rq.env];
            && env.lastPlanJob in s.db.jobs
            && var plan := s.db.jobs[env.lastPlanJob];
               DecideNow(s, rq, id, now) == Commit(
                 env.(status := Applying, lastApplyJob := id, lastJob := id, revision := env.revision + 1),
                 Some(plan.(id := id, typ := Apply, status := Queued, createdAt := now, outputs := "", source := env.lastPlanJob,
                            retryCount := 0, maxRetries := env.maxRetries, requestedBy := rq.user.id, error := NoFailure)),
                 AuditEvent(env.id, rq.user.id, ApplyRequested(id)))
  {
    hide Validate, Normalize, ArtifactOk;
  }

  /** A committed apply queues a job that is the approved plan's row over again, its environment,
      operation, spec, template, workdir and plan path included, but for being a new apply of it. */
  lemma ApplyCommits(w: World, k: nat, rq: Request, id: Id, now: nat)
    requires Reachable(w) && k !in w.requests && rq.env in w.shared.db.envs && Fresh(w, id) && rq.body.ApplyBody?
    requires DecideNow(w.shared, rq, id, now).Commit?
    ensures var db, env := w.shared.db, w.shared.db.envs[rq.env];
            && env.lastPlanJob in db.jobs
            && var plan := db.jobs[env.lastPlanJob];
               Stores(db, Handled(w, k, rq, id, now).shared.db,
                 env.(status := Applying, lastApplyJob := id, lastJob := id, revision := env.revision + 1),
                 Some(plan.(id := id, typ := Apply, status := Queued, createdAt := now, outputs := "", source := env.lastPlanJob,
                            retryCount := 0, maxRetries := env.maxRetries, requestedBy := rq.user.id, error := NoFailure)),
                 AuditEvent(rq.env, rq.user.id, ApplyRequested(id)))
  {
    hide *;
    HandledStores(w, k, rq, id, now);
    ApplyDecided(w.shared, rq, id, now);
  }

  // ---------- Retry ----------

  lemma RetryDecided(s: Shared, rq: Request, id: Id, now: nat)
    requires rq.env in s.db.envs && rq.body.RetryBody? && RowFacts(s, rq.env) && DecideNow(s, rq, id, now).Commit?
    ensures var env := s.db.envs[rq.env];
            && env.lastJob in s.db.jobs
            && var last := s.db.jobs[env.lastJob];
               DecideNow(s, rq, id, now) == Commit(
                 env.(status := if last.typ == Apply then Applying else Planning, retryCount := env.retryCount + 1,
                      approval := NotRequested, approvedBy := NONE, lastError := NoFailure, workdir := NONE,
                      planPath := NoPlan, outputs := "", lastPlanJob := NONE, lastJob := id, revision := env.revision + 1),
                 Some(last.(id := id, status := Queued, createdAt := now, error := NoFailure,
                            retryCount := last.retryCount + 1, requestedBy := rq.user.id)),
                 AuditEvent(env.id, rq.user.id, RetryRequested(id)))
  {
    hide Validate, ArtifactOk;
  }

  /** A committed retry queues the failed job over again under a new name, stamped when it is asked
      for, without its error and counted once more; the row forgets the attempt. */
  lemma RetryCommits(w: World, k: nat, rq: Request, id: Id, now: nat)
    requires Reachable(w) && k !in w.requests && rq.env in w.shared.db.envs && Fresh(w, id) && rq.body.RetryBody?
    requires DecideNow(w.shared, rq, id, now).Commit?
    ensures var db, env := w.shared.db, w.shared.db.envs[rq.env];
            && env.lastJob in db.jobs
            && var last := db.jobs[env.lastJob];
               Stores(db, Handled(w, k, rq, id, now).shared.db,
                 env.(status := if last.typ == Apply then Applying else Planning, retryCount := env.retryCount + 1,
                      approval := NotRequested, approvedBy := NONE, lastError := NoFailure, workdir := NONE,
                      planPath := NoPlan, outputs := "", lastPlanJob := NONE, lastJob := id, revision := env.revision + 1),
                 Some(last.(id := id, status := Queued, createdAt := now, error := NoFailure,
                            retryCount := last.retryCount + 1, requestedBy := rq.user.id)),
                 AuditEvent(rq.env, rq.user.id, RetryRequested(id)))
  {
    hide *;
    HandledStores(w, k, rq, id, now);
    RetryDecided(w.shared, rq, id, now);
  }

  // ---------- Destroy ----------

  lemma DestroyDecided(s: Shared, rq: Request, id: Id, now: nat)
    requires rq.env in s.db.envs && rq.body.DestroyBody? && RowFacts(s, rq.env) && DecideNow(s, rq, id, now).Commit?
    ensures var env := s.db.envs[rq.env];
            DecideNow(s, rq, id, now) == Commit(
              env.(operation := Destroy, status := Planning, approval := NotRequested, approvedBy := NONE,
                   lastError := NoFailure, planPath := NoPlan, outputs := "", lastPlanJob := id, lastJob := id,
                   revision := env.revision + 1),
              Some(Job(id, Plan, Queued, now, env.id, Destroy, env.spec, "basic",
                       NONE, NoPlan, "", NONE, 0, env.maxRetries, rq.user.id, NoFailure)),
              AuditEvent(env.id, rq.user.id, DestroyRequested(id, env.name, rq.body.comment)))
  {
    hide Validate, ArtifactOk;
  }

  /** A committed destroy request plans the destruction of what is there: the environment keeps its
      spec, its name and its workdir. */
  lemma DestroyCommits(w: World, k: nat, rq: Request, id: Id, now: nat)
    requires Reachable(w) && k !in w.requests && rq.env in w.shared.db.envs && Fresh(w, id) && rq.body.DestroyBody?
    requires DecideNow(w.shared, rq, id, now).Commit?
    ensures var db, env := w.shared.db, w.shared.db.envs[rq.env];
            Stores(db, Handled(w, k, rq, id, now).shared.db,
              env.(operation := Destroy, status := Planning, approval := NotRequested, approvedBy := NONE,
                   lastError := NoFailure, planPath := NoPlan, outputs := "", lastPlanJob := id, lastJob := id,
                   revision := env.revision + 1),
              Some(Job(id, Plan, Queued, now, rq.env, Destroy, env.spec, "basic",
                       NONE, NoPlan, "", NONE, 0, env.maxRetries, rq.user.id, NoFailure)),
              AuditEvent(rq.env, rq.user.id, DestroyRequested(id, env.name, rq.body.comment)))
  {
    hide *;
    HandledStores(w, k, rq, id, now);
    DestroyDecided(w.shared, rq, id, now);
  }

  // ---------- Create ----------

  /** A spec is refused with the validator's error on its normalized form, or stored normalized with a
      first plan of it. */
  lemma CreateCommits(w: World, spec: EnvironmentSpec, template: string, user: User, e: Id, id: Id, now: nat)
    requires Enabled(w, CreateEnv(spec, template, user, e, id, now))
    ensures var db' := Exec(w, CreateEnv(spec, template, user, e, id, now)).shared.db;
            var clean := Normalize(spec);
            if Validate(clean).Some? then db' == w.shared.db
            else Stores(w.shared.db, db',
              Environment(e, clean.environmentName, Planning, Create, NotRequested, clean, user.id, NONE,
                          id, NONE, id, NoFailure, 0, 3, NONE, NoPlan, "", 1),
              Some(Job(id, Plan, Queued, now, e, Create, clean, if template == "" then "basic" else template,
                       NONE, NoPlan, "", NONE, 0, 3, user.id, NoFailure)),
              AuditEvent(e, user.id, EnvironmentCreated(id)))
  {
    hide Validate, Normalize;
  }

  // ---------- Legacy jobs ----------

  /** A job of its own is created from any valid spec and is no apply. */
  lemma LegacyCreates(w: World, typ: JobType, spec: EnvironmentSpec, user: User, id: Id, now: nat)
    requires Enabled(w, CreateLegacy(typ, spec, user, id, now))
    ensures var db' := Exec(w, CreateLegacy(typ, spec, user, id, now)).shared.db;
            db' == if Validate(Normalize(spec)).Some? || typ == Apply then w.shared.db
                   else w.shared.db.(jobs := w.shared.db.jobs[id :=
                     Job(id, typ, Queued, now, NONE, Create, Normalize(spec), "", NONE, NoPlan, "", NONE, 0, 3, user.id, NoFailure)])
  {
    hide Validate, Normalize;
  }

  /** A derived job is its source over again, planned afresh or, for an admin and a source that is a
      done plan, applied. */
  lemma DerivedIs(kind: LegacyKind, user: User, src: Job, id: Id, now: nat)
    ensures var again := src.(id := id, status := Queued, createdAt := now, spec := Normalize(src.spec), outputs := "",
                              source := src.id, retryCount := 0, error := NoFailure);
            DerivedJob(kind, user, src, id, now) ==
              if src.env != NONE || !Admits(src.spec) then None
              else if kind.LegacyPlan? then Some(again.(typ := Plan, workdir := NONE, planPath := NoPlan))
              else if user.isAdmin && src.typ == Plan && src.status == Done && src.planPath == PlanBin && src.workdir != NONE
              then Some(again.(typ := Apply))
              else None
  {
    hide Validate, Normalize;
  }

  // ---------- On any rows ----------

  /** On any rows at all, reachable or not, an approval needs a plan that is done, an apply a valid spec
      and a done plan with its artifact, a retry a failed job and budget; and nothing more than what
      is listed here. */
  lemma AcceptedOnAnyRows(env: Environment, job: Option<Job>, rq: Request, id: Id, now: nat)
    ensures var current := rq.expected.None? || rq.expected.value == env.revision;
            Decide(env, job, rq, id, now).Commit? <==>
            match rq.body
            case PlanBody(spec, _, requested) =>
              var operation := if requested.Some? then requested.value
                               else if env.status == Draft || env.status == Destroyed then Create else Update;
              && current && Admits(if spec.Some? then spec.value else env.spec)
              && env.status !in {Planning, Applying, Destroying} && operation != Destroy
              && (env.status == Destroyed ==> operation == Create)
              && (env.status == Draft ==> operation != Update)
              && (operation == Create ==> env.status == Draft || env.status == Destroyed)
            case ApproveBody(_) =>
              && current && rq.user.isAdmin && env.lastPlanJob != NONE
              && env.status == PendingApproval && env.approval == Pending
              && job.Some? && job.value.status == Done
            case ApplyBody =>
              && current && rq.user.isAdmin && env.status == Approved && env.approval == Granted
              && !env.operation.Other? && Admits(env.spec)
              && job.Some? && job.value.status == Done && job.value.planPath == PlanBin && job.value.workdir != NONE
            case RetryBody =>
              && current && env.lastJob != NONE && env.status == Failed && env.retryCount < env.maxRetries
              && job.Some? && job.value.status == Broken
              && (rq.user.isAdmin || (job.value.typ != Apply && job.value.operation != Destroy))
            case DestroyBody(confirmation, _) =>
              && current && rq.user.isAdmin && confirmation == env.name
              && env.status !in {Planning, Applying, Destroying, Destroyed}
  {
    hide Validate, Normalize;
  }

  // ---------- Reasons ----------

  // The answer of a route on the stored rows, as the protocol decides it.
  lemma AnswerIsDecision(s: Shared, rq: Request, id: Id, now: nat)
    ensures Api.Answer(s.db, rq, id, now) ==
            if rq.env in s.db.envs then DecideNow(s, rq, id, now)
            else if (rq.body.ApproveBody? || rq.body.ApplyBody? || rq.body.DestroyBody?) && !rq.user.isAdmin
            then Reject(AdminRequired) else Reject(NotFound)
  {
    hide Validate, Normalize;
  }

  // The reason a refused request is given, from what a reader of the environment can see.
  function ExpectedReason(db: Db, rq: Request): Reason
    requires rq.env in db.envs
  {
    var env := db.envs[rq.env];
    match rq.body
    case PlanBody(spec, _, requested) =>
      var operation := PlannedOperation(env, requested);
      if spec.Some? && !Admits(spec.value) then InvalidSpec(Validate(Normalize(spec.value)).value)
      else if operation == Destroy then DestroyRouteOnly
      else if IsEnvironmentBusy(env.status) then EnvironmentBusy
      else if env.status == Destroyed && operation != Create then DestroyedNeedsCreate
      else if env.status != Destroyed && operation == Create then CreateNotAllowed
      else RevisionMismatch
    case ApproveBody(_) =>
      if !rq.user.isAdmin then AdminRequired
      else if env.lastPlanJob == NONE then NoPlanToApprove
      else if env.status != PendingApproval then NotAwaitingApproval
      else RevisionMismatch
    case ApplyBody =>
      if !rq.user.isAdmin then AdminRequired
      else if env.approval != Granted then ApprovalRequired
      else if rq.expected.Some? && rq.expected.value != env.revision then RevisionMismatch
      else NotApprovedForApply
    case RetryBody =>
      if rq.expected.Some? && rq.expected.value != env.revision then RevisionMismatch
      else if env.lastJob !in db.jobs then JobNotLoaded
      else
        var last := db.jobs[env.lastJob];
        if last.status != Broken then LastJobNotFailed
        else if env.retryCount >= env.maxRetries then BudgetExhausted
        else if !rq.user.isAdmin && (last.typ == Apply || last.operation == Destroy) then AdminRequired
        else NotFailed
    case DestroyBody(confirmation, _) =>
      if !rq.user.isAdmin then AdminRequired
      else if confirmation != env.name then ConfirmationMismatch
      else if env.status == Destroyed then AlreadyDestroyed
      else if IsEnvironmentBusy(env.status) then EnvironmentBusy
      else RevisionMismatch
  }

  lemma PlanRefused(s: Shared, rq: Request, id: Id, now: nat)
    requires rq.env in s.db.envs && RowFacts(s, rq.env) && rq.body.PlanBody? && DecideNow(s, rq, id, now).Reject?
    ensures DecideNow(s, rq, id, now).reason == ExpectedReason(s.db, rq)
  {
    hide Validate, Normalize, ArtifactOk, JobOk;
  }

  lemma ApproveRefused(s: Shared, rq: Request, id: Id, now: nat)
    requires rq.env in s.db.envs && RowFacts(s, rq.env) && rq.body.ApproveBody? && DecideNow(s, rq, id, now).Reject?
    ensures DecideNow(s, rq, id, now).reason == ExpectedReason(s.db, rq)
  {
    hide Clean, ArtifactOk;
  }

  lemma ApplyRefused(s: Shared, rq: Request, id: Id, now: nat)
    requires rq.env in s.db.envs && RowFacts(s, rq.env) && rq.body.ApplyBody? && DecideNow(s, rq, id, now).Reject?
    ensures DecideNow(s, rq, id, now).reason == ExpectedReason(s.db, rq)
  {
    hide Validate, Normalize, ArtifactOk;
  }

  lemma RetryRefused(s: Shared, rq: Request, id: Id, now: nat)
    requires rq.env in s.db.envs && RowFacts(s, rq.env) && rq.body.RetryBody? && DecideNow(s, rq, id, now).Reject?
    ensures DecideNow(s, rq, id, now).reason == ExpectedReason(s.db, rq)
  {
    hide Validate, Normalize, ArtifactOk, Clean;
  }

  lemma DestroyRefused(s: Shared, rq: Request, id: Id, now: nat)
    requires rq.env in s.db.envs && RowFacts(s, rq.env) && rq.body.DestroyBody? && DecideNow(s, rq, id, now).Reject?
    ensures DecideNow(s, rq, id, now).reason == ExpectedReason(s.db, rq)
  {
    hide Validate, Normalize, ArtifactOk, Clean;
  }

  /** Why a request is refused on the rows of a reachable state. Of the source's reasons five are never
      given there: the job row is always found, an awaiting plan is always done, an approved artifact
      always ready, a stored spec always valid, and update always allowed outside destroyed. */
  lemma RefusedBecause(w: World, rq: Request, id: Id, now: nat)
    requires Reachable(w) && rq.env in w.shared.db.envs && DecideNow(w.shared, rq, id, now).Reject?
    ensures DecideNow(w.shared, rq, id, now).reason == ExpectedReason(w.shared.db, rq)
  {
    hide Reachable, Inv, RowFacts, DecideNow, Admits, Validate, Normalize, IsEnvironmentBusy, PlannedOperation;
    ReachableInv(w);
    StoredFacts(w, rq.env);
    match rq.body
    case PlanBody(_, _, _) => PlanRefused(w.shared, rq, id, now);
    case ApproveBody(_) => ApproveRefused(w.shared, rq, id, now);
    case ApplyBody => ApplyRefused(w.shared, rq, id, now);
    case RetryBody => RetryRefused(w.shared, rq, id, now);
    case DestroyBody(_, _) => DestroyRefused(w.shared, rq, id, now);
  }
}
