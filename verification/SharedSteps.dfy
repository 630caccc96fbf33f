/** Every kind of write to the shared state keeps the invariant of the shared state. */
module SharedSteps {
  import opened Wrappers
  import opened Domain
  import opened Store
  import opened RunnerLoop
  import opened History
  import opened Safety

  function WithShared(s: Shared, db: Db): Shared {
    s.(db := db)
  }

  // ---------- Frames ----------

  // What never gets lost, whatever the step: rows keep their environment, finished plans keep
  // their row, approvals and settlements stay, legacy plan files keep their writer.
  ghost predicate Grows(s: Shared, s': Shared) {
    && s.db.envs.Keys <= s'.db.envs.Keys
    && s.settled <= s'.settled
    && (forall j :: j in s.db.jobs ==> j in s'.db.jobs && s'.db.jobs[j].env == s.db.jobs[j].env)
    && (forall j :: j in s.db.jobs && s.db.jobs[j].typ == Plan && s.db.jobs[j].status == Done ==> s'.db.jobs[j] == s.db.jobs[j])
    && (forall p :: Count(s.db.audit, ApprovalsOf(p)) == 1 && p in s.settled ==> Count(s'.db.audit, ApprovalsOf(p)) == 1)
    && (forall j :: j in s.db.jobs && s.db.jobs[j].env == NONE && j in s.plans && s.plans[j] == j ==> j in s'.plans && s'.plans[j] == j)
  }

  lemma JobFrame(s: Shared, s': Shared, job: Job)
    requires Grows(s, s') && JobOk(s, job)
    requires job.env == NONE ==> job.id in s.db.jobs && s.db.jobs[job.id].env == NONE
    ensures JobOk(s', job)
  {
  }

  lemma EnvFrame(s: Shared, s': Shared, env: Environment)
    requires EnvOk(s, env)
    requires forall j :: j in s.db.jobs ==> j in s'.db.jobs && s'.db.jobs[j].env == s.db.jobs[j].env
    requires s'.db.jobs[env.lastJob] == s.db.jobs[env.lastJob]
    requires env.lastJob in s'.settled <==> env.lastJob in s.settled
    requires Count(s'.db.audit, ApprovalsOf(env.lastJob)) == Count(s.db.audit, ApprovalsOf(env.lastJob))
    requires forall p :: p in s.db.jobs && s.db.jobs[p].env == env.id && PlanFileIs(s, p) ==> PlanFileIs(s', p)
    requires s.db.jobs[env.lastJob].id == env.lastJob && JobOk(s, s.db.jobs[env.lastJob])
    ensures EnvOk(s', env)
  {
  }

  // ---------- A new job ----------

  // A new unsettled job of an environment that has none; the environment may itself be new.
  ghost predicate MayQueue(s: Shared, env: Environment, job: Job) {
    && env.id != NONE && job.id != NONE
    && (env.id in s.db.envs ==> !IsEnvironmentBusy(s.db.envs[env.id].status))
    && job.id !in s.db.jobs
    && job.status == Queued && job.typ != EnvironmentCreate
    && job.env == env.id && env.lastJob == job.id
    && env.spec == job.spec && env.operation == job.operation
    && env.status == (if job.typ == Apply then Applying else Planning)
    && OwnsWorkdir(s, job)
    && (env.workdir != NONE ==> env.workdir in s.db.jobs && s.db.jobs[env.workdir].env == env.id)
    && (job.typ == Apply ==>
          && SourceOk(s, job) && PlanFileIs(s, job.source)
          && forall a :: !IsDoneApply(s, a, job.source))
  }

  ghost predicate AddsQueuedJob(s: Shared, s': Shared, env: Environment, job: Job) {
    && s'.db.envs == s.db.envs[env.id := env]
    && s'.db.jobs == s.db.jobs[job.id := job]
    && s'.plans == s.plans && s'.settled == s.settled
    && forall p :: Count(s'.db.audit, ApprovalsOf(p)) == Count(s.db.audit, ApprovalsOf(p))
  }

  lemma BundleQueues(s: Shared, env: Environment, job: Job, event: AuditEvent)
    requires !event.action.PlanApproved?
    ensures AddsQueuedJob(s, WithShared(s, Bundle(s.db, env, Some(job), event)), env, job)
  {
    CountAppend(s.db.audit, event);
  }

  lemma QueueKeepsJob(s: Shared, s': Shared, env: Environment, job: Job, j: Id)
    requires RowsOk(s) && MayQueue(s, env, job) && AddsQueuedJob(s, s', env, job)
    requires j in s'.db.jobs
    ensures s'.db.jobs[j].id == j && JobOk(s', s'.db.jobs[j])
  {
    if j != job.id {
      JobFrame(s, s', s.db.jobs[j]);
    }
  }

  lemma QueueKeepsOtherEnv(s: Shared, s': Shared, env: Environment, job: Job, e: Id)
    requires RowsOk(s) && MayQueue(s, env, job) && AddsQueuedJob(s, s', env, job)
    requires e in s.db.envs && e != env.id
    ensures s'.db.envs[e].id == e && EnvOk(s', s'.db.envs[e])
  {
    hide JobOk, StatusOk, ArtifactOk;
    EnvFrame(s, s', s.db.envs[e]);
  }

  lemma QueueMakesEnv(s: Shared, s': Shared, env: Environment, job: Job)
    requires SettledOk(s) && MayQueue(s, env, job) && AddsQueuedJob(s, s', env, job)
    ensures EnvOk(s', env)
  {
  }

  lemma QueueKeepsRows(s: Shared, s': Shared, env: Environment, job: Job)
    requires RowsOk(s) && SettledOk(s) && MayQueue(s, env, job) && AddsQueuedJob(s, s', env, job)
    ensures RowsOk(s')
  {
    forall j | j in s'.db.jobs ensures s'.db.jobs[j].id == j && JobOk(s', s'.db.jobs[j]) {
      QueueKeepsJob(s, s', env, job, j);
    }
    forall e | e in s'.db.envs ensures s'.db.envs[e].id == e && EnvOk(s', s'.db.envs[e]) {
      if e == env.id {
        QueueMakesEnv(s, s', env, job);
      } else {
        QueueKeepsOtherEnv(s, s', env, job, e);
      }
    }
  }

  lemma QueueKeepsUnsettled(s: Shared, s': Shared, env: Environment, job: Job)
    requires RowsOk(s) && OnlyLastUnsettled(s) && MayQueue(s, env, job) && AddsQueuedJob(s, s', env, job)
    ensures OnlyLastUnsettled(s')
  {
    forall j | j in s.db.jobs ensures s.db.jobs[j].env == env.id && env.id in s.db.envs ==> j in s.settled {
      assert JobOk(s, s.db.jobs[j]);
    }
  }

  lemma QueueKeepsApply(s: Shared, s': Shared, env: Environment, job: Job, a: Id)
    requires RowsOk(s) && AppliesOk(s) && MayQueue(s, env, job) && AddsQueuedJob(s, s', env, job)
    requires IsManagedApply(s', a)
    ensures ApplyOk(s', a)
    ensures a != job.id ==> IsManagedApply(s, a)
  {
    if a != job.id {
      assert JobOk(s, s.db.jobs[a]);
      var e := s.db.jobs[a].env;
      assert e != NONE;
      assert ApplyOk(s, a);
      assert EnvOk(s, s.db.envs[e]);
      assert !IsDoneApply(s, a, s.db.jobs[a].source) <==> s.db.jobs[a].status != Done;
    }
  }

  lemma QueueKeepsApplies(s: Shared, s': Shared, env: Environment, job: Job)
    requires RowsOk(s) && AppliesOk(s) && MayQueue(s, env, job) && AddsQueuedJob(s, s', env, job)
    ensures AppliesOk(s')
  {
    forall a | IsManagedApply(s', a) ensures ApplyOk(s', a) {
      QueueKeepsApply(s, s', env, job, a);
    }
    forall a, plan | IsDoneApply(s', a, plan) ensures IsDoneApply(s, a, plan) {
      QueueKeepsApply(s, s', env, job, a);
    }
  }

  lemma QueueKeepsHistory(s: Shared, s': Shared, env: Environment, job: Job)
    requires SettledOk(s) && ApprovalsOk(s) && MayQueue(s, env, job) && AddsQueuedJob(s, s', env, job)
    ensures SettledOk(s') && ApprovalsOk(s')
  {
  }

  lemma QueueKeepsShared(s: Shared, s': Shared, env: Environment, job: Job)
    requires SharedOk(s) && MayQueue(s, env, job) && AddsQueuedJob(s, s', env, job)
    ensures SharedOk(s')
  {
    QueueKeepsRows(s, s', env, job);
    QueueKeepsUnsettled(s, s', env, job);
    QueueKeepsHistory(s, s', env, job);
    QueueKeepsApplies(s, s', env, job);
  }

  // ---------- A legacy job ----------

  ghost predicate MayInsert(s: Shared, job: Job) {
    && job.id != NONE && job.id !in s.db.jobs && job.env == NONE
    && job.status == JobStatus.Queued && JobOk(s, job)
  }

  lemma InsertKeepsJob(s: Shared, s': Shared, job: Job, j: Id)
    requires RowsOk(s) && MayInsert(s, job) && s' == WithShared(s, PutJob(s.db, job))
    requires j in s'.db.jobs
    ensures s'.db.jobs[j].id == j && JobOk(s', s'.db.jobs[j])
  {
    assert Grows(s, s');
    if j != job.id {
      JobFrame(s, s', s.db.jobs[j]);
    }
  }

  lemma InsertKeepsRows(s: Shared, s': Shared, job: Job)
    requires RowsOk(s) && MayInsert(s, job) && s' == WithShared(s, PutJob(s.db, job))
    ensures RowsOk(s')
  {
    hide JobOk, StatusOk, ArtifactOk;
    forall j | j in s'.db.jobs ensures s'.db.jobs[j].id == j && JobOk(s', s'.db.jobs[j]) {
      InsertKeepsJob(s, s', job, j);
    }
    forall e | e in s'.db.envs ensures s'.db.envs[e].id == e && EnvOk(s', s'.db.envs[e]) {
      EnvFrame(s, s', s.db.envs[e]);
    }
  }

  lemma InsertKeepsHistory(s: Shared, s': Shared, job: Job)
    requires OnlyLastUnsettled(s) && SettledOk(s) && ApprovalsOk(s) && NONE !in s.db.envs
    requires MayInsert(s, job) && s' == WithShared(s, PutJob(s.db, job))
    ensures OnlyLastUnsettled(s') && SettledOk(s') && ApprovalsOk(s')
  {
  }

  lemma InsertKeepsShared(s: Shared, s': Shared, job: Job)
    requires SharedOk(s) && MayInsert(s, job) && s' == WithShared(s, PutJob(s.db, job))
    ensures SharedOk(s')
  {
    InsertKeepsRows(s, s', job);
    InsertKeepsHistory(s, s', job);
    InsertKeepsApplies(s, s', job);
  }

  lemma InsertKeepsApplies(s: Shared, s': Shared, job: Job)
    requires RowsOk(s) && AppliesOk(s) && MayInsert(s, job) && s' == WithShared(s, PutJob(s.db, job))
    ensures AppliesOk(s')
  {
    hide JobOk, StatusOk, ArtifactOk;
    forall e | e in s.db.envs ensures e != NONE {
      assert EnvOk(s, s.db.envs[e]);
    }
    forall a | IsManagedApply(s', a) ensures IsManagedApply(s, a) && ApplyOk(s', a) {
      assert ApplyOk(s, a);
      assert EnvOk(s, s.db.envs[s.db.jobs[a].env]);
    }
    forall a, plan | IsDoneApply(s', a, plan) ensures IsDoneApply(s, a, plan) {
    }
  }

  // ---------- An approval ----------

  ghost predicate MayApprove(s: Shared, env: Environment) {
    && env.id in s.db.envs
    && var before := s.db.envs[env.id];
       && before.status == PendingApproval
       && env == before.(approval := Granted, status := Approved, approvedBy := env.approvedBy, revision := env.revision)
  }

  ghost predicate AddsApproval(s: Shared, s': Shared, env: Environment) {
    && s'.db.envs == s.db.envs[env.id := env] && s'.db.jobs == s.db.jobs
    && s'.plans == s.plans && s'.settled == s.settled
    && forall p :: Count(s'.db.audit, ApprovalsOf(p)) ==
                   Count(s.db.audit, ApprovalsOf(p)) + (if p == env.lastJob then 1 else 0)
  }

  lemma ApprovalKeepsEnv(s: Shared, s': Shared, env: Environment, e: Id)
    requires RowsOk(s) && MayApprove(s, env) && AddsApproval(s, s', env)
    requires e in s.db.envs
    ensures s'.db.envs[e].id == e && EnvOk(s', s'.db.envs[e])
  {
    hide JobOk;
    assert EnvOk(s, s.db.envs[e]) && EnvOk(s, s.db.envs[env.id]);
    if e != env.id {
      EnvFrame(s, s', s.db.envs[e]);
    }
  }

  lemma ApprovalKeepsApplies(s: Shared, s': Shared, env: Environment)
    requires AppliesOk(s) && MayApprove(s, env) && AddsApproval(s, s', env)
    ensures AppliesOk(s')
  {
    forall a | IsManagedApply(s', a) ensures IsManagedApply(s, a) && ApplyOk(s', a) {
      assert ApplyOk(s, a);
    }
    forall a, plan | IsDoneApply(s', a, plan) ensures IsDoneApply(s, a, plan) {
    }
  }

  lemma ApprovalKeepsRows(s: Shared, s': Shared, env: Environment)
    requires RowsOk(s) && ApprovalsOk(s) && MayApprove(s, env) && AddsApproval(s, s', env)
    ensures RowsOk(s')
  {
    hide JobOk, ArtifactOk;
    assert EnvOk(s, s.db.envs[env.id]);
    assert Grows(s, s');
    hide EnvOk;
    forall j | j in s'.db.jobs ensures s'.db.jobs[j].id == j && JobOk(s', s'.db.jobs[j]) {
      JobFrame(s, s', s.db.jobs[j]);
    }
    forall e | e in s'.db.envs ensures s'.db.envs[e].id == e && EnvOk(s', s'.db.envs[e]) {
      ApprovalKeepsEnv(s, s', env, e);
    }
  }

  lemma ApprovalKeepsHistory(s: Shared, s': Shared, env: Environment)
    requires env.id in s.db.envs && EnvOk(s, s.db.envs[env.id]) && OnlyLastUnsettled(s) && SettledOk(s) && ApprovalsOk(s)
    requires MayApprove(s, env) && AddsApproval(s, s', env)
    ensures OnlyLastUnsettled(s') && SettledOk(s') && ApprovalsOk(s')
  {
  }

  lemma ApprovalKeepsShared(s: Shared, s': Shared, env: Environment)
    requires SharedOk(s) && MayApprove(s, env) && AddsApproval(s, s', env)
    ensures SharedOk(s')
  {
    ApprovalKeepsRows(s, s', env);
    ApprovalKeepsHistory(s, s', env);
    ApprovalKeepsApplies(s, s', env);
  }

  // ---------- A runner's own row ----------

  ghost predicate MaySave(s: Shared, job: Job) {
    && job.id in s.db.jobs && job.id !in s.settled
    && SameJob(job, s.db.jobs[job.id])
    && (s.db.jobs[job.id].status == JobStatus.Queued || s.db.jobs[job.id].status == Running)
    && job.status != JobStatus.Queued
    && OwnsWorkdir(s, job)
    && (job.status == Done && job.typ != Apply ==>
          && job.workdir != NONE && job.planPath == PlanBin
          && job.workdir in s.plans && s.plans[job.workdir] == job.id
          && (job.env == NONE ==> job.workdir == job.id))
  }

  lemma SaveKeepsJob(s: Shared, s': Shared, job: Job, j: Id)
    requires RowsOk(s) && MaySave(s, job) && s' == WithShared(s, PutJob(s.db, job))
    requires j in s.db.jobs
    ensures s'.db.jobs[j].id == j && JobOk(s', s'.db.jobs[j])
  {
    assert Grows(s, s');
    assert JobOk(s, s.db.jobs[j]);
    if j != job.id {
      JobFrame(s, s', s.db.jobs[j]);
    }
  }

  lemma SaveKeepsEnv(s: Shared, s': Shared, job: Job, e: Id)
    requires RowsOk(s) && OnlyLastUnsettled(s) && MaySave(s, job) && s' == WithShared(s, PutJob(s.db, job))
    requires e in s.db.envs
    ensures s'.db.envs[e].id == e && EnvOk(s', s'.db.envs[e])
  {
    hide EnvOk, JobOk, MaySave;
    var env := s.db.envs[e];
    if env.lastJob != job.id {
      SaveKeepsOtherEnv(s, s', job, env);
    } else {
      SaveKeepsOwnEnv(s, s', job, env);
    }
  }

  lemma SaveKeepsOtherEnv(s: Shared, s': Shared, job: Job, env: Environment)
    requires RowsOk(s) && OnlyLastUnsettled(s) && MaySave(s, job) && s' == WithShared(s, PutJob(s.db, job))
    requires env.id in s.db.envs && env == s.db.envs[env.id] && env.lastJob != job.id
    ensures EnvOk(s', env)
  {
    hide StatusOk, ArtifactOk, JobOk;
    EnvFrame(s, s', env);
  }

  lemma SaveKeepsOwnEnv(s: Shared, s': Shared, job: Job, env: Environment)
    requires RowsOk(s) && MaySave(s, job) && s' == WithShared(s, PutJob(s.db, job))
    requires EnvOk(s, env) && env.lastJob == job.id
    ensures EnvOk(s', env)
  {
    assert JobOk(s, s.db.jobs[job.id]);
  }

  // While a job is unfinished, no apply of its plan has succeeded.
  lemma UnfinishedIsFirst(s: Shared, job: Job, a: Id)
    requires RowsOk(s) && OnlyLastUnsettled(s) && AppliesOk(s) && MaySave(s, job)
    requires IsManagedApply(s, job.id)
    ensures !IsDoneApply(s, a, job.source)
  {
    if IsManagedApply(s, a) && s.db.jobs[a].source == job.source {
      assert JobOk(s, s.db.jobs[a]) && JobOk(s, s.db.jobs[job.id]);
      assert EnvOk(s, s.db.envs[job.env]);
      assert Attempting(s, s.db.envs[job.env], job.source);
      assert ApplyOk(s, a);
    }
  }

  lemma SaveKeepsApply(s: Shared, s': Shared, job: Job, a: Id)
    requires RowsOk(s) && OnlyLastUnsettled(s) && AppliesOk(s) && MaySave(s, job) && s' == WithShared(s, PutJob(s.db, job))
    requires IsManagedApply(s', a)
    ensures IsManagedApply(s, a) && ApplyOk(s', a)
  {
    hide JobOk, EnvOk;
    assert ApplyOk(s, a);
    if IsManagedApply(s, job.id) {
      UnfinishedIsFirst(s, job, a);
    }
  }

  lemma SaveKeepsDoneApply(s: Shared, s': Shared, job: Job, a: Id, plan: Id)
    requires RowsOk(s) && OnlyLastUnsettled(s) && AppliesOk(s) && MaySave(s, job) && s' == WithShared(s, PutJob(s.db, job))
    requires IsDoneApply(s', a, plan) && a != job.id
    ensures IsDoneApply(s, a, plan) && !IsDoneApply(s', job.id, plan)
  {
    if IsDoneApply(s', job.id, plan) {
      UnfinishedIsFirst(s, job, a);
    }
  }

  lemma SaveKeepsApplies(s: Shared, s': Shared, job: Job)
    requires RowsOk(s) && OnlyLastUnsettled(s) && AppliesOk(s) && MaySave(s, job) && s' == WithShared(s, PutJob(s.db, job))
    ensures AppliesOk(s')
  {
    forall a | IsManagedApply(s', a) ensures IsManagedApply(s, a) && ApplyOk(s', a) {
      SaveKeepsApply(s, s', job, a);
    }
    forall a, plan | IsDoneApply(s', a, plan) && a != job.id ensures IsDoneApply(s, a, plan) && !IsDoneApply(s', job.id, plan) {
      SaveKeepsDoneApply(s, s', job, a, plan);
    }
  }

  lemma SaveKeepsRows(s: Shared, s': Shared, job: Job)
    requires RowsOk(s) && OnlyLastUnsettled(s) && MaySave(s, job) && s' == WithShared(s, PutJob(s.db, job))
    ensures RowsOk(s')
  {
    forall j | j in s'.db.jobs ensures s'.db.jobs[j].id == j && JobOk(s', s'.db.jobs[j]) {
      SaveKeepsJob(s, s', job, j);
    }
    forall e | e in s'.db.envs ensures s'.db.envs[e].id == e && EnvOk(s', s'.db.envs[e]) {
      SaveKeepsEnv(s, s', job, e);
    }
  }

  lemma SaveKeepsHistory(s: Shared, s': Shared, job: Job)
    requires OnlyLastUnsettled(s) && SettledOk(s) && ApprovalsOk(s)
    requires MaySave(s, job) && s' == WithShared(s, PutJob(s.db, job))
    ensures OnlyLastUnsettled(s') && SettledOk(s') && ApprovalsOk(s')
  {
  }

  lemma SaveKeepsShared(s: Shared, s': Shared, job: Job)
    requires SharedOk(s) && MaySave(s, job) && s' == WithShared(s, PutJob(s.db, job))
    ensures SharedOk(s')
  {
    SaveKeepsRows(s, s', job);
    SaveKeepsHistory(s, s', job);
    SaveKeepsApplies(s, s', job);
  }

  // ---------- A plan file ----------

  ghost predicate MayWritePlan(s: Shared, job: Job) {
    && job.id in s.db.jobs && job.id !in s.settled
    && SameJob(job, s.db.jobs[job.id]) && s.db.jobs[job.id].status == Running
    && ReadyToPlan(job) && OwnsWorkdir(s, job)
  }

  lemma WriteKeepsFile(s: Shared, s': Shared, job: Job, p: Id)
    requires RowsOk(s) && OnlyLastUnsettled(s) && MayWritePlan(s, job)
    requires s' == s.(plans := s.plans[job.workdir := job.id])
    requires p in s.db.jobs && s.db.jobs[p].env in s.db.envs && s.db.envs[s.db.jobs[p].env].lastJob != job.id
    ensures PlanFileIs(s, p) ==> PlanFileIs(s', p)
  {
    assert JobOk(s, s.db.jobs[p]) && JobOk(s, s.db.jobs[job.id]);
  }

  lemma WriteKeepsShared(s: Shared, s': Shared, job: Job)
    requires SharedOk(s) && MayWritePlan(s, job)
    requires s' == s.(plans := s.plans[job.workdir := job.id])
    ensures SharedOk(s')
  {
    assert JobOk(s, s.db.jobs[job.id]);
    assert Grows(s, s');
    forall j | j in s'.db.jobs ensures s'.db.jobs[j].id == j && JobOk(s', s'.db.jobs[j]) {
      JobFrame(s, s', s.db.jobs[j]);
    }
    forall e | e in s'.db.envs ensures s'.db.envs[e].id == e && EnvOk(s', s'.db.envs[e]) {
      var env := s.db.envs[e];
      assert EnvOk(s, env);
      if env.lastJob != job.id {
        forall p | p in s.db.jobs && s.db.jobs[p].env == env.id && PlanFileIs(s, p) ensures PlanFileIs(s', p) {
          WriteKeepsFile(s, s', job, p);
        }
        EnvFrame(s, s', env);
      }
    }
    WriteKeepsApplies(s, s');
  }

  lemma WriteKeepsApplies(s: Shared, s': Shared)
    requires AppliesOk(s) && s'.db.envs == s.db.envs && s'.db.jobs == s.db.jobs
    ensures AppliesOk(s')
  {
    forall a | IsManagedApply(s', a) ensures IsManagedApply(s, a) && ApplyOk(s', a) {
      assert ApplyOk(s, a);
    }
    forall a, plan | IsDoneApply(s', a, plan) ensures IsDoneApply(s, a, plan) {
    }
  }

  // ---------- A runner's audit row ----------

  lemma AuditKeepsShared(s: Shared, s': Shared, event: AuditEvent)
    requires SharedOk(s) && !event.action.PlanApproved? && s' == WithShared(s, AppendAudit(s.db, event))
    ensures SharedOk(s')
  {
    CountAppend(s.db.audit, event);
    assert Grows(s, s');
    forall j | j in s'.db.jobs ensures s'.db.jobs[j].id == j && JobOk(s', s'.db.jobs[j]) {
      JobFrame(s, s', s.db.jobs[j]);
    }
    forall e | e in s'.db.envs ensures s'.db.envs[e].id == e && EnvOk(s', s'.db.envs[e]) {
      EnvFrame(s, s', s.db.envs[e]);
    }
    WriteKeepsApplies(s, s');
  }

  // ---------- A runner's environment update ----------

  ghost predicate MaySettle(s: Shared, env: Environment, job: Job) {
    && env.id in s.db.envs && job.env == env.id && job.id in s.db.jobs
    && var before, row := s.db.envs[env.id], s.db.jobs[job.id];
       && before.lastJob == job.id && env.lastJob == job.id && IsEnvironmentBusy(before.status)
       && row.status != JobStatus.Queued
       && env.spec == before.spec && env.operation == before.operation
       && ((env.status == Failed && (row.status == Broken || row.status == Running)
            && env.workdir == before.workdir)
           || (row == job && job.status == Done && env.workdir == job.workdir
               && env.status == SuccessStatus(job, before.status)
               && (job.typ == Plan ==> env.lastPlanJob == job.id && env.approval == Pending)))
  }

  ghost predicate Settles(s: Shared, s': Shared, env: Environment, job: Job) {
    && s'.db.envs == s.db.envs[env.id := env] && s'.db.jobs == s.db.jobs && s'.db.audit == s.db.audit
    && s'.plans == s.plans && s'.settled == s.settled + {job.id}
  }

  lemma SettleMakesEnv(s: Shared, s': Shared, env: Environment, job: Job)
    requires RowsOk(s) && ApprovalsOk(s) && MaySettle(s, env, job) && Settles(s, s', env, job)
    ensures EnvOk(s', env)
  {
    assert EnvOk(s, s.db.envs[env.id]);
    assert JobOk(s, s.db.jobs[job.id]);
  }

  lemma SettleKeepsApplies(s: Shared, s': Shared, env: Environment, job: Job)
    requires AppliesOk(s) && MaySettle(s, env, job) && Settles(s, s', env, job)
    ensures AppliesOk(s')
  {
    forall a | IsManagedApply(s', a) ensures IsManagedApply(s, a) && ApplyOk(s', a) {
      assert ApplyOk(s, a);
    }
    forall a, plan | IsDoneApply(s', a, plan) ensures IsDoneApply(s, a, plan) {
    }
  }

  lemma SettleKeepsRows(s: Shared, s': Shared, env: Environment, job: Job)
    requires RowsOk(s) && ApprovalsOk(s) && MaySettle(s, env, job) && Settles(s, s', env, job)
    ensures RowsOk(s')
  {
    hide EnvOk, JobOk;
    assert Grows(s, s');
    forall j | j in s'.db.jobs ensures s'.db.jobs[j].id == j && JobOk(s', s'.db.jobs[j]) {
      JobFrame(s, s', s.db.jobs[j]);
    }
    forall e | e in s'.db.envs ensures s'.db.envs[e].id == e && EnvOk(s', s'.db.envs[e]) {
      if e == env.id {
        SettleMakesEnv(s, s', env, job);
      } else {
        SettleKeepsOtherEnv(s, s', env, job, s.db.envs[e]);
      }
    }
  }

  lemma SettleKeepsOtherEnv(s: Shared, s': Shared, env: Environment, job: Job, other: Environment)
    requires RowsOk(s) && MaySettle(s, env, job) && Settles(s, s', env, job)
    requires EnvOk(s, other) && other.id != env.id
    ensures EnvOk(s', other)
  {
    hide JobOk, StatusOk, ArtifactOk;
    EnvFrame(s, s', other);
  }

  lemma SettleKeepsHistory(s: Shared, s': Shared, env: Environment, job: Job)
    requires env.id in s.db.envs && EnvOk(s, s.db.envs[env.id])
    requires OnlyLastUnsettled(s) && SettledOk(s) && ApprovalsOk(s) && MaySettle(s, env, job) && Settles(s, s', env, job)
    ensures OnlyLastUnsettled(s') && SettledOk(s') && ApprovalsOk(s')
  {
  }

  lemma SettleKeepsShared(s: Shared, s': Shared, env: Environment, job: Job)
    requires SharedOk(s) && MaySettle(s, env, job) && Settles(s, s', env, job)
    ensures SharedOk(s')
  {
    SettleKeepsRows(s, s', env, job);
    SettleKeepsHistory(s, s', env, job);
    SettleKeepsApplies(s, s', env, job);
  }
}
