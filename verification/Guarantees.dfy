/** What every reachable state and every run guarantees. */
module Guarantees {
  import opened Domain
  import opened Validation
  import opened Store
  import opened Handlers
  import opened RunnerLoop
  import opened Protocol
  import opened History
  import opened Safety
  import opened SharedSteps
  import opened RunnerSteps
  import opened Preservation
  import opened Effects

  // ---------- Applying ----------

  /** A runner about to run apply does so on a plan file last written by its source plan; that plan
      is done and, for an environment job, belongs to the same environment, has the same operation
      and spec, and was approved exactly once. Workdirs are shared by destroy plans and applies are
      retried, yet the plan file check cannot fail either. */
  lemma ApplyRunsItsPlan(w: World, r: nat)
    requires Reachable(w) && r in w.runners && w.runners[r].Busy? && w.runners[r].stage == RunApply
    ensures var s, job := w.shared, w.runners[r].job;
            && job.source in s.db.jobs
            && job.workdir in s.plans && s.plans[job.workdir] == job.source
            && s.db.jobs[job.source].typ == Plan && s.db.jobs[job.source].status == Done
            && s.db.jobs[job.source].env == job.env
            && (job.env != NONE ==>
                  && s.db.jobs[job.source].operation == job.operation && s.db.jobs[job.source].spec == job.spec
                  && Count(s.db.audit, ApprovalsOf(job.source)) == 1)
  {
    ReachableInv(w);
    hide RequestsOk, AppliesOk, ApprovalsOk, SpecsOk, StatusOk;
    var s, job := w.shared, w.runners[r].job;
    assert RunnerOk(s, w.runners[r]);
    assert JobOk(s, s.db.jobs[job.id]);
    if job.env != NONE {
      HeldJobIsLast(s, job.id);
      assert EnvOk(s, s.db.envs[job.env]);
    } else {
      assert JobOk(s, s.db.jobs[job.source]);
    }
  }

  /** A plan is approved at most once, and of all apply jobs with it as source, the first one and
      its whole retry chain, at most one ever succeeds. */
  lemma PlanIsAppliedOnce(w: World, plan: Id, a: Id, b: Id)
    requires Reachable(w)
    requires a in w.shared.db.jobs && b in w.shared.db.jobs
    requires forall j :: j == a || j == b ==>
               var job := w.shared.db.jobs[j];
               job.env != NONE && job.typ == Apply && job.source == plan && job.status == Done
    ensures a == b
    ensures Count(w.shared.db.audit, ApprovalsOf(plan)) == 1
  {
    ReachableInv(w);
    hide Reachable, RequestsOk, RunnersOk, SpecsOk, EnvOk;
    assert JobOk(w.shared, w.shared.db.jobs[a]) && JobOk(w.shared, w.shared.db.jobs[b]);
    assert IsDoneApply(w.shared, a, plan) && IsDoneApply(w.shared, b, plan);
  }

  lemma PlanIsApprovedAtMostOnce(w: World, plan: Id)
    requires Reachable(w)
    ensures Count(w.shared.db.audit, ApprovalsOf(plan)) <= 1
    ensures Count(w.shared.db.audit, ApprovalsOf(plan)) == 1 ==>
              plan in w.shared.db.jobs && w.shared.db.jobs[plan].typ == Plan && plan in w.shared.settled
  {
    ReachableInv(w);
    hide RequestsOk, RunnersOk, SpecsOk, RowsOk;
  }

  // ---------- One job in flight ----------

  /** An environment is busy exactly while its last job is unsettled, and no other job of it is.
      Neither draft nor destroying is ever reached. */
  lemma OneJobInFlight(w: World, e: Id)
    requires Reachable(w) && e in w.shared.db.envs
    ensures var env := w.shared.db.envs[e];
            && env.lastJob in w.shared.db.jobs
            && (IsEnvironmentBusy(env.status) <==> env.lastJob !in w.shared.settled)
            && env.status != Draft && env.status != Destroying
            && forall j :: j in w.shared.db.jobs && w.shared.db.jobs[j].env == e && j !in w.shared.settled ==> j == env.lastJob
  {
    ReachableInv(w);
    hide RequestsOk, RunnersOk, AppliesOk, ApprovalsOk, SpecsOk, JobOk;
    assert EnvOk(w.shared, w.shared.db.envs[e]);
  }

  /** While an environment is busy its row is frozen: only the runner that holds its last job, at
      its final update, can change it. */
  lemma BusyRowIsFrozen(w: World, step: Step, e: Id)
    requires Reachable(w) && Enabled(w, step)
    requires e in w.shared.db.envs && IsEnvironmentBusy(w.shared.db.envs[e].status)
    ensures e in Exec(w, step).shared.db.envs
    ensures Exec(w, step).shared.db.envs[e] != w.shared.db.envs[e] ==>
              && step.RunnerMove? && w.runners[step.runner].Busy?
              && w.runners[step.runner].job.id == w.shared.db.envs[e].lastJob
              && (w.runners[step.runner].stage.CommitSuccess? || w.runners[step.runner].stage.CommitFailure?)
  {
    hide *;
    ReachableInv(w);
    var x := StepEffect(w, step);
    StepAllowed(w, step, x);
    EffectFreezesBusy(w.shared, x, e);
    if x.Settlement? {
      SettlerStage(w, step, x);
    }
  }

  lemma SettlerStage(w: World, step: Step, x: Effect)
    requires Enabled(w, step) && Explains(w, step, x) && x.Settlement?
    ensures step.RunnerMove? && step.runner in w.runners
    ensures var runner := w.runners[step.runner];
            runner.Busy? && runner.job == x.job && (runner.stage.CommitSuccess? || runner.stage.CommitFailure?)
  {
    hide Allowed, After, Exec;
  }

  lemma EffectFreezesBusy(s: Shared, x: Effect, e: Id)
    requires Allowed(s, x) && e in s.db.envs && IsEnvironmentBusy(s.db.envs[e].status)
    ensures e in After(s, x).db.envs
    ensures After(s, x).db.envs[e] != s.db.envs[e] ==> x.Settlement? && x.job.id == s.db.envs[e].lastJob
  {
    hide MayInsert, MaySave, MayWritePlan, Transition, Creation;
  }

  // At the end of its job a runner loads the current row, and its update is made.
  ghost predicate Delivers(s: Shared, job: Job, stage: Stage, c: Choice) {
    var m := Advance(s, job, stage, c);
    match stage
    case ReportSuccess =>
      job.env in s.db.envs && m.runner == Busy(job, CommitSuccess(s.db.envs[job.env]))
    case ReportFailure(message) =>
      job.env in s.db.envs && m.runner == Busy(job, CommitFailure(message, s.db.envs[job.env]))
    case CommitSuccess(_) =>
      && job.env in s.db.envs
      && m.shared.db.envs == s.db.envs[job.env := AfterSuccess(s.db.envs[job.env], job)]
    case CommitFailure(message, _) =>
      && job.env in s.db.envs
      && m.shared.db.envs == s.db.envs[job.env := AfterFailure(s.db.envs[job.env], job, message)]
    case _ => true
  }

  /** A runner's result always reaches the environment: at the end of an environment job the row
      still names that job, the compare-and-set succeeds, and no audit row ever says that a result
      was ignored or lost a race. */
  lemma ResultsAreNeverDropped(w: World, r: nat, c: Choice)
    requires Reachable(w) && r in w.runners && w.runners[r].Busy? && w.runners[r].job.env != NONE
    ensures NothingDropped(w.shared.db.audit)
    ensures Delivers(w.shared, w.runners[r].job, w.runners[r].stage, c)
  {
    hide *;
    ReachableInv(w);
    RunnerFacts(w, r);
    RunnerReports(w.shared, w.runners[r].job, w.runners[r].stage, c);
  }

  lemma RunnerFacts(w: World, r: nat)
    requires Inv(w) && r in w.runners
    ensures RowsOk(w.shared) && OnlyLastUnsettled(w.shared) && RunnerOk(w.shared, w.runners[r])
    ensures NothingDropped(w.shared.db.audit)
  {
    hide RowsOk, OnlyLastUnsettled, SettledOk, AppliesOk, ApprovalsOk, SpecsOk, RequestsOk, RunnerOk;
  }

  lemma RunnerReports(s: Shared, job: Job, stage: Stage, c: Choice)
    requires RowsOk(s) && OnlyLastUnsettled(s) && RunnerOk(s, Busy(job, stage)) && job.env != NONE
    ensures Delivers(s, job, stage, c)
  {
    hide RowsOk, OnlyLastUnsettled, StartApply, StartPlan, StartDestroyPlan;
    if stage == ReportSuccess {
      HolderIsNamed(s, job, env => CommitSuccess(env));
    } else if stage.ReportFailure? {
      HolderIsNamed(s, job, env => CommitFailure(stage.message, env));
    } else if stage.CommitSuccess? {
      CommitSuccessMove(s, job, stage.env, c);
    } else if stage.CommitFailure? {
      CommitFailureMove(s, job, stage.message, stage.env, c);
    }
  }

  // ---------- What each route accepts ----------

  ghost predicate RowFacts(s: Shared, e: Id)
    requires e in s.db.envs
  {
    var env := s.db.envs[e];
    && EnvOk(s, env) && Clean(env.spec)
    && s.db.jobs[env.lastJob].id == env.lastJob && JobOk(s, s.db.jobs[env.lastJob])
  }

  lemma StoredFacts(w: World, e: Id)
    requires Inv(w) && e in w.shared.db.envs
    ensures w.shared.db.envs[e].id == e
    ensures RowFacts(w.shared, e)
  {
    hide RequestsOk, RunnersOk, SettledOk, AppliesOk, ApprovalsOk, OnlyLastUnsettled, Clean, JobOk;
    assert EnvOk(w.shared, w.shared.db.envs[e]);
    assert StoredSpec(w.shared, w.shared.db.envs[e].spec);
  }

  /** Approve is accepted on the current rows exactly in state pending_approval, for an admin whose
      expected revision, if any, is the current one. */
  lemma ApproveAcceptedWhen(w: World, rq: Request, id: Id, now: nat)
    requires Reachable(w) && rq.env in w.shared.db.envs && rq.body.ApproveBody?
    ensures var env := w.shared.db.envs[rq.env];
            DecideNow(w.shared, rq, id, now).Commit? <==>
            rq.user.isAdmin && env.status == PendingApproval && (rq.expected.None? || rq.expected.value == env.revision)
  {
    hide *;
    ReachableInv(w);
    StoredFacts(w, rq.env);
    ApproveAccepted(w.shared, rq, id, now);
  }

  lemma ApproveAccepted(s: Shared, rq: Request, id: Id, now: nat)
    requires rq.env in s.db.envs && rq.body.ApproveBody?
    requires RowFacts(s, rq.env)
    ensures var env := s.db.envs[rq.env];
            DecideNow(s, rq, id, now).Commit? <==>
            rq.user.isAdmin && env.status == PendingApproval && (rq.expected.None? || rq.expected.value == env.revision)
  {
    hide Clean, ArtifactOk;
  }

  /** Apply is accepted on the current rows exactly in state approved, for an admin with the current
      revision, unless the operation is an unknown one: then it is never accepted. */
  lemma ApplyAcceptedWhen(w: World, rq: Request, id: Id, now: nat)
    requires Reachable(w) && rq.env in w.shared.db.envs && rq.body.ApplyBody?
    ensures var env := w.shared.db.envs[rq.env];
            DecideNow(w.shared, rq, id, now).Commit? <==>
            rq.user.isAdmin && env.status == Approved && !env.operation.Other? && (rq.expected.None? || rq.expected.value == env.revision)
  {
    hide *;
    ReachableInv(w);
    StoredFacts(w, rq.env);
    ApplyAccepted(w.shared, rq, id, now);
  }

  lemma ApplyAccepted(s: Shared, rq: Request, id: Id, now: nat)
    requires rq.env in s.db.envs && rq.body.ApplyBody?
    requires RowFacts(s, rq.env)
    ensures var env := s.db.envs[rq.env];
            DecideNow(s, rq, id, now).Commit? <==>
            rq.user.isAdmin && env.status == Approved && !env.operation.Other? && (rq.expected.None? || rq.expected.value == env.revision)
  {
    hide Validate, Normalize, ArtifactOk;
  }

  /** Plan is accepted on the current rows exactly for an acceptable spec in a state that is not
      busy, with operation create if and only if the environment is destroyed, and never destroy. */
  lemma PlanAcceptedWhen(w: World, rq: Request, id: Id, now: nat)
    requires Reachable(w) && rq.env in w.shared.db.envs && rq.body.PlanBody?
    ensures var env := w.shared.db.envs[rq.env];
            var operation := if rq.body.operation.Some? then rq.body.operation.value
                             else if env.status == Destroyed then Create else Update;
            DecideNow(w.shared, rq, id, now).Commit? <==>
            && (rq.body.spec.None? || Admits(rq.body.spec.value))
            && !IsEnvironmentBusy(env.status)
            && operation != Destroy
            && (operation == Create <==> env.status == Destroyed)
            && (rq.expected.None? || rq.expected.value == env.revision)
  {
    hide *;
    ReachableInv(w);
    StoredFacts(w, rq.env);
    PlanAccepted(w.shared, rq, id, now);
  }

  lemma PlanAccepted(s: Shared, rq: Request, id: Id, now: nat)
    requires rq.env in s.db.envs && rq.body.PlanBody?
    requires RowFacts(s, rq.env)
    ensures var env := s.db.envs[rq.env];
            var operation := if rq.body.operation.Some? then rq.body.operation.value
                             else if env.status == Destroyed then Create else Update;
            DecideNow(s, rq, id, now).Commit? <==>
            && (rq.body.spec.None? || Admits(rq.body.spec.value))
            && !IsEnvironmentBusy(env.status)
            && operation != Destroy
            && (operation == Create <==> env.status == Destroyed)
            && (rq.expected.None? || rq.expected.value == env.revision)
  {
    hide Validate, Normalize, ArtifactOk;
  }

  /** Retry is accepted on the current rows exactly in state failed with a failed last job and
      budget left; applies and destroys are for admins. */
  lemma RetryAcceptedWhen(w: World, rq: Request, id: Id, now: nat)
    requires Reachable(w) && rq.env in w.shared.db.envs && rq.body.RetryBody?
    ensures var env := w.shared.db.envs[rq.env];
            env.lastJob in w.shared.db.jobs &&
            var last := w.shared.db.jobs[env.lastJob];
            DecideNow(w.shared, rq, id, now).Commit? <==>
            && env.status == Failed && last.status == Broken && env.retryCount < env.maxRetries
            && (rq.user.isAdmin || (last.typ == Plan && last.operation != Destroy))
            && (rq.expected.None? || rq.expected.value == env.revision)
  {
    hide *;
    ReachableInv(w);
    StoredFacts(w, rq.env);
    RetryAccepted(w.shared, rq, id, now);
  }

  lemma RetryAccepted(s: Shared, rq: Request, id: Id, now: nat)
    requires rq.env in s.db.envs && rq.body.RetryBody?
    requires RowFacts(s, rq.env)
    ensures var env := s.db.envs[rq.env];
            env.lastJob in s.db.jobs &&
            var last := s.db.jobs[env.lastJob];
            DecideNow(s, rq, id, now).Commit? <==>
            && env.status == Failed && last.status == Broken && env.retryCount < env.maxRetries
            && (rq.user.isAdmin || (last.typ == Plan && last.operation != Destroy))
            && (rq.expected.None? || rq.expected.value == env.revision)
  {
    hide Validate, Normalize, ArtifactOk, Clean;
  }

  /** Destroy is accepted on the current rows exactly for an admin who confirms the name, in a state
      that is neither busy nor destroyed. */
  lemma DestroyAcceptedWhen(w: World, rq: Request, id: Id, now: nat)
    requires Reachable(w) && rq.env in w.shared.db.envs && rq.body.DestroyBody?
    ensures var env := w.shared.db.envs[rq.env];
            DecideNow(w.shared, rq, id, now).Commit? <==>
            && rq.user.isAdmin && rq.body.confirmation == env.name
            && !IsEnvironmentBusy(env.status) && env.status != Destroyed
            && (rq.expected.None? || rq.expected.value == env.revision)
  {
    hide *;
    ReachableInv(w);
    StoredFacts(w, rq.env);
    DestroyAccepted(w.shared, rq, id, now);
  }

  lemma DestroyAccepted(s: Shared, rq: Request, id: Id, now: nat)
    requires rq.env in s.db.envs && rq.body.DestroyBody?
    requires RowFacts(s, rq.env)
    ensures var env := s.db.envs[rq.env];
            DecideNow(s, rq, id, now).Commit? <==>
            && rq.user.isAdmin && rq.body.confirmation == env.name
            && !IsEnvironmentBusy(env.status) && env.status != Destroyed
            && (rq.expected.None? || rq.expected.value == env.revision)
  {
    hide Validate, Normalize, ArtifactOk, Clean;
  }

  /** A request that nobody interrupts commits exactly the decision on the current rows, or nothing. */
  lemma UninterruptedRequest(w: World, k: nat, rq: Request, id: Id, now: nat)
    requires Reachable(w) && k !in w.requests && rq.env in w.shared.db.envs && Fresh(w, id)
    ensures Enabled(w, ReadEnv(k, rq))
    ensures var w1 := Exec(w, ReadEnv(k, rq)); Enabled(w1, ReadJob(k))
    ensures var w2 := Exec(Exec(w, ReadEnv(k, rq)), ReadJob(k)); Enabled(w2, CommitRequest(k, id, now))
    ensures var w3 := Exec(Exec(Exec(w, ReadEnv(k, rq)), ReadJob(k)), CommitRequest(k, id, now));
            var d := DecideNow(w.shared, rq, id, now);
            w3.shared.db == if d.Commit? then Bundle(w.shared.db, d.env, d.job, d.event) else w.shared.db
  {
    hide *;
    ReachableInv(w);
    StoredFacts(w, rq.env);
    RequestAlone(w, k, rq, id, now);
  }

  lemma RequestAlone(w: World, k: nat, rq: Request, id: Id, now: nat)
    requires k !in w.requests && rq.env in w.shared.db.envs && w.shared.db.envs[rq.env].id == rq.env && Fresh(w, id)
    ensures Enabled(w, ReadEnv(k, rq))
    ensures var w1 := Exec(w, ReadEnv(k, rq)); Enabled(w1, ReadJob(k))
    ensures var w2 := Exec(Exec(w, ReadEnv(k, rq)), ReadJob(k)); Enabled(w2, CommitRequest(k, id, now))
    ensures var w3 := Exec(Exec(Exec(w, ReadEnv(k, rq)), ReadJob(k)), CommitRequest(k, id, now));
            var d := DecideNow(w.shared, rq, id, now);
            w3.shared.db == if d.Commit? then Bundle(w.shared.db, d.env, d.job, d.event) else w.shared.db
  {
    hide Decide, Bundle;
    var env := w.shared.db.envs[rq.env];
    var job := LookupJob(w.shared.db, JobToRead(env, rq.body));
    var d := DecideNow(w.shared, rq, id, now);
    var w2 := Exec(Exec(w, ReadEnv(k, rq)), ReadJob(k));
    assert w2.requests[k] == RowsRead(rq, env, job);
    if d.Commit? {
      DecisionShape(env, job, rq, id, now);
    }
  }

  // ---------- Over a run ----------

  lemma EffectIsMonotone(s: Shared, x: Effect)
    requires Allowed(s, x)
    ensures Monotone(s, After(s, x))
  {
    hide JobOk, Transition, Creation, OwnsWorkdir, ReadyToPlan;
    match x
    case Queueing(env, job, event) => QueueingIsMonotone(s, env, job, event);
    case Approval(env, event) => ApprovalBundle(s, env, event); ApprovalIsMonotone(s, After(s, x), env);
    case JobWrite(job) => SavesRowOnly(s, job, job, After(s, x));
    case PlanWrite(job) => WritesPlanOnly(s, job, After(s, x));
    case _ =>
  }

  lemma QueueingIsMonotone(s: Shared, env: Environment, job: Job, event: AuditEvent)
    requires Allowed(s, Queueing(env, job, event))
    ensures Monotone(s, After(s, Queueing(env, job, event)))
  {
    hide Monotone;
    BundleQueues(s, env, job, event);
    QueueIsMonotone(s, After(s, Queueing(env, job, event)), env, job);
  }

  /** From any earlier to any later world of a run: a changed environment row has a larger revision,
      a claimed job is never queued again, a done or failed job row is final. */
  lemma {:induction false} RunIsMonotone(run: seq<World>, i: nat, j: nat)
    requires IsRun(run) && i <= j < |run|
    ensures Monotone(run[i].shared, run[j].shared)
  {
    hide *;
    if i == j {
      MonotoneReflexive(run[i].shared);
    } else {
      RunIsMonotone(run, i, j - 1);
      var step, x := RunStep(run, j - 1);
      StepAllowed(run[j - 1], step, x);
      EffectIsMonotone(run[j - 1].shared, x);
      MonotoneTransitive(run[i].shared, run[j - 1].shared, run[j].shared);
    }
  }

  lemma MonotoneTransitive(a: Shared, b: Shared, c: Shared)
    requires Monotone(a, b) && Monotone(b, c)
    ensures Monotone(a, c)
  {
  }

  lemma ClaimIsWritten(w: World, r: nat, id: Id)
    requires Inv(w) && Enabled(w, ClaimJob(r, id))
    ensures id in Exec(w, ClaimJob(r, id)).shared.db.jobs && Exec(w, ClaimJob(r, id)).shared.db.jobs[id].status == Running
  {
    hide Inv;
    IdIsKey(w, id);
  }

  lemma IdIsKey(w: World, j: Id)
    requires Inv(w) && j in w.shared.db.jobs
    ensures w.shared.db.jobs[j].id == j
  {
    hide RequestsOk, RunnersOk, SettledOk, AppliesOk, ApprovalsOk, OnlyLastUnsettled, SpecsOk, EnvOk, JobOk;
  }

  /** No job is claimed twice in a run. */
  lemma NoJobIsClaimedTwice(run: seq<World>, i: nat, j: nat, r: nat, q: nat, id: Id)
    requires IsRun(run) && i < j < |run| - 1
    requires Enabled(run[i], ClaimJob(r, id)) && run[i + 1] == Exec(run[i], ClaimJob(r, id))
    ensures !(Enabled(run[j], ClaimJob(q, id)) && run[j + 1] == Exec(run[j], ClaimJob(q, id)))
  {
    RunIsMonotone(run, i + 1, j);
    RunKeepsInv(run, i);
    hide IsRun, Inv, Reachable, HolderOk;
    ClaimIsWritten(run[i], r, id);
    assert JobAdvances(run[i + 1].shared.db.jobs[id], run[j].shared.db.jobs[id]);
  }

  /** The legacy job routes change no environment, no environment job and no audit row, and what they
      add belongs to no environment. */
  lemma LegacyRoutesLeaveEnvironments(w: World, step: Step)
    requires Reachable(w) && Enabled(w, step) && (step.CreateLegacy? || step.CommitLegacy?)
    ensures var s, s' := w.shared, Exec(w, step).shared;
            && s'.db.envs == s.db.envs && s'.db.audit == s.db.audit && s'.plans == s.plans && s'.settled == s.settled
            && s.db.jobs.Keys <= s'.db.jobs.Keys
            && (forall j :: j in s.db.jobs ==> s'.db.jobs[j] == s.db.jobs[j])
            && (forall j :: j in s'.db.jobs && j !in s.db.jobs ==> s'.db.jobs[j].env == NONE)
  {
    hide *;
    ReachableInv(w);
    var x := LegacyEffect(w, step);
    LegacyOnlyInserts(w.shared, x);
  }

  lemma LegacyOnlyInserts(s: Shared, x: Effect)
    requires Allowed(s, x) && (x.Nothing? || x.Legacy?)
    ensures var s' := After(s, x);
            && s'.db.envs == s.db.envs && s'.db.audit == s.db.audit && s'.plans == s.plans && s'.settled == s.settled
            && s.db.jobs.Keys <= s'.db.jobs.Keys
            && (forall j :: j in s.db.jobs ==> s'.db.jobs[j] == s.db.jobs[j])
            && (forall j :: j in s'.db.jobs && j !in s.db.jobs ==> s'.db.jobs[j].env == NONE)
  {
    hide JobOk;
  }
}
