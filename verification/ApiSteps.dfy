/** Every mutation a handler can commit keeps the invariant. */
module ApiSteps {
  import opened Wrappers
  import opened Domain
  import opened Validation
  import opened Store
  import opened Handlers
  import opened RunnerLoop
  import opened Safety
  import opened SharedSteps

  // What a committed decision that adds a job promises.
  ghost predicate GoodQueue(s: Shared, before: nat, d: Decision) {
    && d.Commit? && d.job.Some?
    && MayQueue(s, d.env, d.job.value)
    && !d.event.action.PlanApproved?
    && d.env.revision == before + 1
  }

  lemma NormalizedIsClean(spec: EnvironmentSpec)
    requires Admits(spec)
    ensures Clean(Normalize(spec))
  {
    NormalizeIdempotent(spec);
  }

  lemma PlanMutationQueues(s: Shared, e: Id, spec: EnvironmentSpec, operation: Operation, template: string, user: Id,
                           id: Id, now: nat)
    requires RowsOk(s) && e in s.db.envs && id != NONE && id !in s.db.jobs && !IsEnvironmentBusy(s.db.envs[e].status)
    ensures GoodQueue(s, s.db.envs[e].revision, PlanMutation(s.db.envs[e], spec, operation, template, user, id, now))
  {
    assert EnvOk(s, s.db.envs[e]);
  }

  lemma PlanKeepsSpec(env: Environment, spec: EnvironmentSpec, operation: Operation, template: string, user: Id, id: Id, now: nat)
    ensures PlanMutation(env, spec, operation, template, user, id, now).Commit?
    ensures PlanMutation(env, spec, operation, template, user, id, now).env.spec == spec
  {
  }

  lemma PlanGuardPassed(env: Environment, rq: Request)
    requires rq.body.PlanBody? && PlanGuard(env, rq).None?
    ensures !IsEnvironmentBusy(env.status) && Validate(RequestedSpec(env, rq)).None?
    ensures RequestedOperation(env, rq) != Destroy
  {
    hide Validate, Normalize;
  }

  lemma PlanQueues(s: Shared, rq: Request, id: Id, now: nat)
    requires RowsOk(s) && rq.body.PlanBody? && rq.env in s.db.envs && id != NONE && id !in s.db.jobs
    requires PlanDecision(s.db.envs[rq.env], rq, id, now).Commit?
    ensures GoodQueue(s, s.db.envs[rq.env].revision, PlanDecision(s.db.envs[rq.env], rq, id, now))
    ensures Clean(PlanDecision(s.db.envs[rq.env], rq, id, now).env.spec)
  {
    hide Validate, Normalize, RowsOk, MayQueue, PlanMutation;
    var env := s.db.envs[rq.env];
    PlanGuardPassed(env, rq);
    PlanMutationQueues(s, rq.env, RequestedSpec(env, rq), RequestedOperation(env, rq), rq.body.template, rq.user.id, id, now);
    NormalizedIsClean(if rq.body.spec.Some? then rq.body.spec.value else env.spec);
    assert PlanDecision(env, rq, id, now).env.spec == RequestedSpec(env, rq) by {
      PlanKeepsSpec(env, RequestedSpec(env, rq), RequestedOperation(env, rq), rq.body.template, rq.user.id, id, now);
    }
  }

  lemma DestroyMutationQueues(s: Shared, e: Id, spec: EnvironmentSpec, confirmation: string, comment: string, user: Id,
                              id: Id, now: nat)
    requires RowsOk(s) && e in s.db.envs && id != NONE && id !in s.db.jobs && !IsEnvironmentBusy(s.db.envs[e].status)
    ensures GoodQueue(s, s.db.envs[e].revision, DestroyMutation(s.db.envs[e], spec, confirmation, comment, user, id, now))
  {
    assert EnvOk(s, s.db.envs[e]);
  }

  lemma DestroyQueues(s: Shared, rq: Request, id: Id, now: nat)
    requires RowsOk(s) && rq.body.DestroyBody? && rq.env in s.db.envs && id != NONE && id !in s.db.jobs
    requires Clean(s.db.envs[rq.env].spec)
    requires DestroyDecision(s.db.envs[rq.env], rq, id, now).Commit?
    ensures GoodQueue(s, s.db.envs[rq.env].revision, DestroyDecision(s.db.envs[rq.env], rq, id, now))
    ensures Clean(DestroyDecision(s.db.envs[rq.env], rq, id, now).env.spec)
  {
    hide Validate, RowsOk, MayQueue;
    var spec := s.db.envs[rq.env].spec;
    DestroyMutationQueues(s, rq.env, spec, rq.body.confirmation, rq.body.comment, rq.user.id, id, now);
  }

  lemma PlanHasNoApply(s: Shared, e: Id)
    requires RowsOk(s) && AppliesOk(s) && e in s.db.envs
    ensures forall a :: !IsDoneApply(s, a, s.db.envs[e].lastJob)
  {
    var env := s.db.envs[e];
    assert EnvOk(s, env);
    forall a | IsManagedApply(s, a) ensures s.db.jobs[a].source != env.lastJob {
      assert JobOk(s, s.db.jobs[a]) && ApplyOk(s, a);
    }
  }

  lemma ApplyMutationQueues(s: Shared, e: Id, user: Id, id: Id, now: nat)
    requires RowsOk(s) && AppliesOk(s) && e in s.db.envs && id != NONE && id !in s.db.jobs
    requires s.db.envs[e].status == Approved
    ensures s.db.envs[e].lastJob in s.db.jobs
    ensures GoodQueue(s, s.db.envs[e].revision,
                      ApplyMutation(s.db.envs[e], s.db.envs[e].spec, s.db.jobs[s.db.envs[e].lastJob], user, id, now))
  {
    hide AppliesOk;
    PlanHasNoApply(s, e);
    assert EnvOk(s, s.db.envs[e]);
    assert JobOk(s, s.db.jobs[s.db.envs[e].lastJob]);
  }

  lemma ApplyQueues(s: Shared, rq: Request, id: Id, now: nat)
    requires RowsOk(s) && AppliesOk(s)
    requires rq.body.ApplyBody? && rq.env in s.db.envs && id != NONE && id !in s.db.jobs
    requires Clean(s.db.envs[rq.env].spec)
    requires ApplyDecision(s.db.envs[rq.env], LookupJob(s.db, s.db.envs[rq.env].lastPlanJob), rq, id, now).Commit?
    ensures var d := ApplyDecision(s.db.envs[rq.env], LookupJob(s.db, s.db.envs[rq.env].lastPlanJob), rq, id, now);
            GoodQueue(s, s.db.envs[rq.env].revision, d) && d.env.spec == s.db.envs[rq.env].spec
  {
    assert EnvOk(s, s.db.envs[rq.env]);
    ApplyMutationQueues(s, rq.env, rq.user.id, id, now);
  }

  // After a failed apply no apply of the same plan has succeeded.
  lemma FailedApplyIsAlone(s: Shared, e: Id)
    requires RowsOk(s) && AppliesOk(s) && e in s.db.envs
    requires s.db.jobs[s.db.envs[e].lastJob].typ == Apply && s.db.jobs[s.db.envs[e].lastJob].status == Broken
    ensures forall a :: !IsDoneApply(s, a, s.db.jobs[s.db.envs[e].lastJob].source)
  {
    var env := s.db.envs[e];
    assert EnvOk(s, env);
    var last := s.db.jobs[env.lastJob];
    assert JobOk(s, last);
    forall a | IsManagedApply(s, a) && s.db.jobs[a].source == last.source ensures s.db.jobs[a].status != Done {
      assert JobOk(s, s.db.jobs[a]) && ApplyOk(s, a);
      assert Attempting(s, env, last.source);
    }
  }

  lemma RetryMutationQueues(s: Shared, e: Id, retry: Job, user: Id)
    requires RowsOk(s) && AppliesOk(s) && e in s.db.envs && retry.id != NONE && retry.id !in s.db.jobs
    requires s.db.envs[e].status == Failed && retry.status == JobStatus.Queued
    requires s.db.envs[e].lastJob in s.db.jobs && s.db.jobs[s.db.envs[e].lastJob].status == Broken
    requires var last := s.db.jobs[s.db.envs[e].lastJob];
             && retry.typ == last.typ && retry.env == last.env && retry.operation == last.operation
             && retry.spec == last.spec && retry.workdir == last.workdir && retry.source == last.source
    ensures GoodQueue(s, s.db.envs[e].revision, RetryMutation(s.db.envs[e], retry, user))
  {
    assert EnvOk(s, s.db.envs[e]);
    assert JobOk(s, s.db.jobs[s.db.envs[e].lastJob]);
    if retry.typ == Apply {
      FailedApplyIsAlone(s, e);
    }
  }

  function CleanRetry(last: Job, user: Id, id: Id, now: nat): Job {
    last.(id := id, status := JobStatus.Queued, createdAt := now, error := NoFailure, retryCount := last.retryCount + 1, requestedBy := user)
  }

  lemma RetryJobIsClean(last: Job, user: Id, id: Id, now: nat)
    requires Clean(last.spec)
    ensures RetryJob(last, user, id, now) == CleanRetry(last, user, id, now)
  {
  }

  lemma RetryGuardPassed(env: Environment, job: Option<Job>, rq: Request)
    requires RetryGuard(env, job, rq).None?
    ensures job.Some? && job.value.status == Broken && env.status == Failed && env.retryCount < env.maxRetries
  {
  }

  lemma RetryQueues(s: Shared, rq: Request, id: Id, now: nat)
    requires RowsOk(s) && AppliesOk(s)
    requires rq.env in s.db.envs && id != NONE && id !in s.db.jobs
    requires Clean(s.db.envs[rq.env].spec)
    requires RetryDecision(s.db.envs[rq.env], LookupJob(s.db, s.db.envs[rq.env].lastJob), rq, id, now).Commit?
    ensures var d := RetryDecision(s.db.envs[rq.env], LookupJob(s.db, s.db.envs[rq.env].lastJob), rq, id, now);
            GoodQueue(s, s.db.envs[rq.env].revision, d) && d.env.spec == s.db.envs[rq.env].spec
  {
    var env := s.db.envs[rq.env];
    assert EnvOk(s, env);
    RetryGuardPassed(env, LookupJob(s.db, env.lastJob), rq);
    RetryJobIsClean(s.db.jobs[env.lastJob], rq.user.id, id, now);
    RetryMutationQueues(s, rq.env, CleanRetry(s.db.jobs[env.lastJob], rq.user.id, id, now), rq.user.id);
  }

  lemma CreateQueues(s: Shared, raw: EnvironmentSpec, template: string, user: User, e: Id, id: Id, now: nat)
    requires e != NONE && id != NONE && e !in s.db.envs && id !in s.db.jobs
    requires CreateDecision(raw, template, user, e, id, now).Commit?
    ensures GoodQueue(s, 0, CreateDecision(raw, template, user, e, id, now))
    ensures Clean(CreateDecision(raw, template, user, e, id, now).env.spec)
  {
    NormalizedIsClean(raw);
  }

  lemma ApproveApproves(s: Shared, rq: Request)
    requires RowsOk(s) && rq.body.ApproveBody? && rq.env in s.db.envs
    requires ApproveDecision(s.db.envs[rq.env], LookupJob(s.db, s.db.envs[rq.env].lastPlanJob), rq).Commit?
    ensures var d := ApproveDecision(s.db.envs[rq.env], LookupJob(s.db, s.db.envs[rq.env].lastPlanJob), rq);
            && MayApprove(s, d.env) && d.job.None?
            && d.event.action == PlanApproved(s.db.envs[rq.env].lastJob, rq.body.comment)
            && d.env.revision == s.db.envs[rq.env].revision + 1
  {
    assert EnvOk(s, s.db.envs[rq.env]);
  }

  lemma LegacyInserts(s: Shared, typ: JobType, raw: EnvironmentSpec, user: User, id: Id, now: nat)
    requires id != NONE && id !in s.db.jobs && LegacyJob(typ, raw, user, id, now).Some?
    ensures MayInsert(s, LegacyJob(typ, raw, user, id, now).value)
    ensures Clean(LegacyJob(typ, raw, user, id, now).value.spec)
  {
    NormalizedIsClean(raw);
  }

  lemma DerivedInserts(s: Shared, kind: LegacyKind, user: User, src: Job, id: Id, now: nat)
    requires RowsOk(s) && LegacyOk(s, src)
    requires id != NONE && id !in s.db.jobs && DerivedJob(kind, user, src, id, now).Some?
    ensures MayInsert(s, DerivedJob(kind, user, src, id, now).value)
    ensures Clean(DerivedJob(kind, user, src, id, now).value.spec)
  {
    NormalizedIsClean(src.spec);
    assert JobOk(s, s.db.jobs[src.id]);
  }
}
