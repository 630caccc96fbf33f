/** Runs, carried out by one admin and one runner, that reach the states other results speak of. */
module Scenarios {
  import opened Wrappers
  import opened Domain
  import opened Validation
  import opened Store
  import opened Handlers
  import opened RunnerLoop
  import opened Protocol
  import opened Safety
  import opened Preservation
  import opened Effects
  import opened Guarantees
  import opened Refinement
  import opened RunnerProgram
  import opened Passes
  import opened Progress
  import opened RetriedDestroy
  import Examples

  const ADMIN := User(1, true)
  const ENV: Id := 1

  /** One environment, whose last job is the newest; nobody is at work, and no other job is queued. */
  ghost predicate Scene(w: World, n: Id) {
    && Reachable(w) && 0 !in w.requests && RunnerAt(w, 0) == Idle
    && w.shared.db.envs.Keys == {ENV} && w.shared.db.envs[ENV].id == ENV && w.shared.db.envs[ENV].lastJob == n > ENV
    && n in w.shared.db.jobs && w.shared.db.jobs[n].id == n && w.shared.db.jobs[n].env == ENV
    && (forall k :: k in w.shared.db.jobs ==> k <= n)
    && (forall k :: IsQueued(w.shared.db, k) ==> k == n)
  }

  function Env(w: World): Environment
    requires ENV in w.shared.db.envs
  {
    w.shared.db.envs[ENV]
  }

  function LastJob(w: World): Job
    requires ENV in w.shared.db.envs && Env(w).lastJob in w.shared.db.jobs
  {
    w.shared.db.jobs[Env(w).lastJob]
  }

  // A scene in which the newest job waits for a runner.
  ghost predicate Waiting(w: World, n: Id) {
    Scene(w, n) && LastJob(w).status == Queued
  }

  // ---------- Creation ----------

  lemma CreationLeads()
    ensures var d := CreateDecision(Examples.SMALL, "", ADMIN, 1, 2, 0);
            && d.Commit? && d.env == NewEnvironment(Normalize(Examples.SMALL), ADMIN, 1, 2)
            && d.job == Some(NewPlanJob(d.env, "", ADMIN.id, 2, 0))
  {
    hide Validate, Normalize;
    Examples.SmallIsAccepted();
  }

  lemma Created() returns (w: World)
    ensures Waiting(w, 2)
    ensures Env(w).status == Planning && Env(w).operation == Create && Env(w).retryCount == 0 && Env(w).maxRetries == 3
    ensures LastJob(w).typ == Plan && LastJob(w).operation == Create
  {
    hide CreateDecision, Normalize, Validate, Reachable;
    CreationLeads();
    var step := CreateEnv(Examples.SMALL, "", ADMIN, 1, 2, 0);
    EmptyIsReachable();
    ReachableStep(EMPTY_WORLD, step);
    w := Exec(EMPTY_WORLD, step);
  }

  lemma EmptyIsReachable()
    ensures Reachable(EMPTY_WORLD)
  {
    hide Next;
    assert IsRun([EMPTY_WORLD]);
  }

  // ---------- One pass of the runner ----------

  const ALL_WELL := Choice(true, "", false)

  // The preparation fails; the write that marks the job failed may be lost.
  function Failing(lost: bool): Outcomes {
    Outcomes(Choice(false, "", false), ALL_WELL, ALL_WELL, ALL_WELL, ALL_WELL, Choice(true, "", lost))
  }

  const SUCCEEDING := Outcomes(ALL_WELL, ALL_WELL, ALL_WELL, ALL_WELL, ALL_WELL, ALL_WELL)

  function Taken(w: World): Job
    requires ENV in w.shared.db.envs && Env(w).lastJob in w.shared.db.jobs
  {
    LastJob(w).(status := Running)
  }

  function Claimed(w: World): Shared
    requires ENV in w.shared.db.envs && Env(w).lastJob in w.shared.db.jobs
  {
    w.shared.(db := Claim(w.shared.db, Env(w).lastJob))
  }

  lemma TakesUp(w: World, n: Id) returns (w': World)
    requires Waiting(w, n)
    ensures Reachable(w') && 0 !in w'.requests && w'.shared == Claimed(w)
    ensures 0 in w'.runners && w'.runners[0] == Busy(Taken(w), Start)
  {
    hide Reachable;
    ReachableStep(w, ClaimJob(0, n));
    w' := Exec(w, ClaimJob(0, n));
  }

  lemma Runs(w: World, n: Id, o: Outcomes) returns (w': World)
    requires Waiting(w, n)
    ensures Reachable(w') && 0 !in w'.requests && RunnerAt(w', 0) == Idle
    ensures Ready(Claimed(w), Taken(w)) && Leaves(Claimed(w), Taken(w), o, w'.shared)
  {
    hide Waiting, Finish, Reachable, Ready, Leaves;
    var claimed := TakesUp(w, n);
    PassLeaves(claimed, 0, o);
    w' := FinishIsReached(claimed, 0, o);
  }

  lemma FinalRowsAreNamed(s: Shared, job: Job, o: Outcomes)
    requires Ready(s, job) && job.env != NONE
    ensures var row, env := FinalJob(s, job, o), FinalEnvironment(s, job, o);
            row.id == job.id && row.env == job.env && row.status != Queued && env.id == job.env && env.lastJob == job.id
  {
    hide Validate, Normalize;
  }

  // The scene after a pass.
  lemma SceneAfter(w: World, n: Id, w': World, o: Outcomes)
    requires Waiting(w, n) && Reachable(w') && 0 !in w'.requests && RunnerAt(w', 0) == Idle
    requires Ready(Claimed(w), Taken(w)) && Leaves(Claimed(w), Taken(w), o, w'.shared)
    ensures Scene(w', n)
    ensures Env(w') == FinalEnvironment(Claimed(w), Taken(w), o) && LastJob(w') == FinalJob(Claimed(w), Taken(w), o)
  {
    hide Reachable, Ready, FinalJob, FinalEnvironment, Trouble, WritesPlan, WorkdirOf;
    FinalRowsAreNamed(Claimed(w), Taken(w), o);
    assert w'.shared.db.jobs == w.shared.db.jobs[n := FinalJob(Claimed(w), Taken(w), o)];
    forall k | IsQueued(w'.shared.db, k) ensures k == n {
      assert k != n ==> IsQueued(w.shared.db, k);
    }
  }

  lemma JobFails(w: World, n: Id, lost: bool) returns (w': World)
    requires Waiting(w, n)
    ensures Scene(w', n) && Env(w') == Told(Env(w), OutsideFailure(""))
    ensures LastJob(w') == if lost then Taken(w) else Taken(w).(status := Broken, error := OutsideFailure(""))
  {
    hide Reachable, Leaves, Normalize, Validate;
    w' := Runs(w, n, Failing(lost));
    SceneAfter(w, n, w', Failing(lost));
  }

  lemma PlanSucceeds(w: World, n: Id) returns (w': World)
    requires Waiting(w, n) && LastJob(w).typ == Plan
    requires LastJob(w).operation == Destroy ==> Env(w).workdir != NONE
    ensures Scene(w', n) && Env(w').status == PendingApproval && Env(w').workdir != NONE
    ensures Env(w').operation == Env(w).operation && Env(w').name == Env(w).name
    ensures Env(w').retryCount == Env(w).retryCount && Env(w').maxRetries == Env(w).maxRetries
    ensures LastJob(w').status == Done && LastJob(w').typ == Plan
  {
    hide Reachable, Leaves, Normalize, Validate;
    w' := Runs(w, n, SUCCEEDING);
    SceneAfter(w, n, w', SUCCEEDING);
  }

  lemma ApplySucceeds(w: World, n: Id) returns (w': World)
    requires Waiting(w, n) && LastJob(w).typ == Apply
    ensures Scene(w', n) && Env(w').workdir != NONE
    ensures Env(w').status == if LastJob(w).operation == Destroy then Destroyed else Active
    ensures Env(w').operation == Env(w).operation && Env(w').name == Env(w).name
    ensures Env(w').retryCount == Env(w).retryCount && Env(w').maxRetries == Env(w).maxRetries
    ensures LastJob(w').status == Done
  {
    hide Reachable, Leaves, Normalize, Validate;
    w' := Runs(w, n, SUCCEEDING);
    SceneAfter(w, n, w', SUCCEEDING);
  }

  // ---------- Requests ----------

  function Ask(body: Body): Handlers.Request {
    Handlers.Request(ENV, ADMIN, None, body)
  }

  function Answer(w: World, n: Id, body: Body): Decision
    requires ENV in w.shared.db.envs
  {
    DecideNow(w.shared, Ask(body), n + 1, 0)
  }

  lemma NextIsFresh(w: World, n: Id)
    requires Scene(w, n)
    ensures Fresh(w, n + 1)
  {
    hide Reachable;
  }

  // The decision adds a job within the lifecycle's rules.
  ghost predicate AddsJob(env: Environment, last: Job, d: Decision) {
    && d.Commit? && d.job.Some? && d.env.id == ENV && d.env.lastJob == d.job.value.id && d.job.value.env == ENV
    && d.job.value.status == Queued && Transition(env, last, d.env, d.job.value, d.event.action)
  }

  lemma AllowedAdds(w: World, n: Id, d: Decision)
    requires Scene(w, n) && d.Commit? && d.job.Some? && d.env.id == ENV && Allowed(w.shared, EffectOf(d))
    ensures AddsJob(Env(w), LastJob(w), d)
  {
    hide Reachable, Transition, OwnsWorkdir, SourceOk;
  }

  lemma InvStore(w: World)
    requires Reachable(w)
    ensures StoreOk(w.shared)
  {
    ReachableInv(w);
    hide StoreOk, RunnersOk, RequestsOk, Reachable;
  }

  lemma SceneIds(w: World, n: Id)
    requires Scene(w, n)
    ensures Reachable(w) && w.shared.db.envs.Keys == {ENV} && w.shared.db.envs[ENV].id == ENV
    ensures n + 1 !in w.shared.db.jobs
  {
    hide Reachable;
  }

  // What an accepted request that adds a job writes.
  lemma AnswerAdds(w: World, n: Id, body: Body)
    requires Scene(w, n) && !body.ApproveBody? && Answer(w, n, body).Commit?
    ensures AddsJob(Env(w), LastJob(w), Answer(w, n, body))
  {
    hide Scene, AddsJob, Transition, Allowed, DecideNow, StoreOk, Reachable, EffectOf;
    SceneIds(w, n);
    InvStore(w);
    AnswerKind(w, n, body);
    AcceptedEffect(w.shared, Ask(body), n + 1, 0);
    AllowedAdds(w, n, Answer(w, n, body));
  }

  lemma AnswerKind(w: World, n: Id, body: Body)
    requires ENV in w.shared.db.envs && w.shared.db.envs[ENV].id == ENV && Answer(w, n, body).Commit?
    ensures var d := Answer(w, n, body);
            && d.env.id == ENV && (body.ApproveBody? <==> d.job.None?) && (d.job.Some? ==> d.job.value.id == n + 1)
            && (body.PlanBody? ==> d.event.action.PlanRequested?)
            && (body.ApplyBody? ==> d.event.action.ApplyRequested?)
            && (body.RetryBody? ==> d.event.action.RetryRequested?)
            && (body.DestroyBody? ==> d.event.action.DestroyRequested?)
  {
    hide Validate, Normalize;
  }

  // The decision has been carried out.
  ghost predicate Carried(w: World, n: Id, body: Body, w': World) {
    && ENV in w.shared.db.envs && Env(w).lastJob in w.shared.db.jobs
    && ENV in w'.shared.db.envs && Env(w').lastJob in w'.shared.db.jobs
    && var d := Answer(w, n, body);
       && AddsJob(Env(w), LastJob(w), d) && Env(w') == d.env && LastJob(w') == d.job.value
  }

  // Carries out a request that adds a job.
  lemma Asks(w: World, n: Id, body: Body) returns (w': World)
    requires Scene(w, n) && LastJob(w).status != Queued && !body.ApproveBody? && Answer(w, n, body).Commit?
    ensures Waiting(w', n + 1) && Carried(w, n, body, w')
  {
    hide Reachable, Transition, DecideNow;
    NextIsFresh(w, n);
    w' := RequestAtOnce(w, 0, Ask(body), n + 1, 0);
    AnswerAdds(w, n, body);
    AnswerKind(w, n, body);
    var job := Answer(w, n, body).job.value;
    assert w'.shared.db.jobs == w.shared.db.jobs[n + 1 := job];
    forall k | IsQueued(w'.shared.db, k) ensures k == n + 1 {
      assert k != n + 1 ==> IsQueued(w.shared.db, k);
    }
  }

  lemma Approves(w: World, n: Id) returns (w': World)
    requires Scene(w, n) && Env(w).status == PendingApproval && LastJob(w).status == Done
    ensures Scene(w', n) && Env(w').status == Approved && LastJob(w') == LastJob(w)
    ensures Env(w').operation == Env(w).operation && Env(w').name == Env(w).name
    ensures Env(w').retryCount == Env(w).retryCount && Env(w').maxRetries == Env(w).maxRetries
  {
    hide Reachable, DecideNow, Bundle;
    NextIsFresh(w, n);
    ApproveAcceptedWhen(w, Ask(ApproveBody("")), n + 1, 0);
    w' := RequestAtOnce(w, 0, Ask(ApproveBody("")), n + 1, 0);
    ApprovalWrites(w.shared, Ask(ApproveBody("")), n + 1);
    assert w'.shared.db.jobs == w.shared.db.jobs;
    forall k | IsQueued(w'.shared.db, k) ensures k == n {
      assert IsQueued(w.shared.db, k);
    }
  }

  lemma ApprovalWrites(s: Shared, rq: Handlers.Request, id: Id)
    requires rq.env in s.db.envs && s.db.envs[rq.env].id == rq.env && rq.body.ApproveBody?
    requires DecideNow(s, rq, id, 0).Commit?
    ensures var d := DecideNow(s, rq, id, 0);
            var db := Bundle(s.db, d.env, d.job, d.event);
            var env := s.db.envs[rq.env];
            && db.jobs == s.db.jobs
            && db.envs == s.db.envs[rq.env := env.(approval := Granted, status := Approved, approvedBy := rq.user.id,
                                                   revision := env.revision + 1)]
  {
    hide Validate, Normalize;
  }

  // Approves the waiting plan, has it applied and runs the apply.
  lemma ApprovesAndApplies(w: World, n: Id) returns (w': World)
    requires Scene(w, n) && Env(w).status == PendingApproval && LastJob(w).status == Done && !Env(w).operation.Other?
    ensures Scene(w', n + 1) && Env(w').workdir != NONE
    ensures Env(w').status == if Env(w).operation == Destroy then Destroyed else Active
    ensures Env(w').operation == Env(w).operation && Env(w').name == Env(w).name
    ensures Env(w').retryCount == Env(w).retryCount && Env(w').maxRetries == Env(w).maxRetries
    ensures LastJob(w').status == Done
  {
    hide Reachable, Waiting, DecideNow;
    var approved := Approves(w, n);
    ApplyAcceptedWhen(approved, Ask(ApplyBody), n + 1, 0);
    AnswerKind(approved, n, ApplyBody);
    var applying := Asks(approved, n, ApplyBody);
    IsScene(applying, n + 1);
    w' := ApplySucceeds(applying, n + 1);
  }

  lemma IsScene(w: World, n: Id)
    requires Waiting(w, n)
    ensures Scene(w, n)
  {
    hide Scene;
  }

  // Has the environment destroyed.
  lemma AsksForDestruction(w: World, n: Id) returns (w': World)
    requires Scene(w, n) && LastJob(w).status != Queued
    requires !IsEnvironmentBusy(Env(w).status) && Env(w).status != Destroyed
    ensures Waiting(w', n + 1) && LastJob(w').typ == Plan && LastJob(w').operation == Env(w').operation == Destroy
    ensures Env(w').name == Env(w).name && Env(w').workdir == Env(w).workdir
    ensures Env(w').retryCount == Env(w).retryCount && Env(w').maxRetries == Env(w).maxRetries
  {
    hide Reachable, Waiting, DecideNow;
    var body := DestroyBody(Env(w).name, "");
    DestroyAcceptedWhen(w, Ask(body), n + 1, 0);
    AnswerKind(w, n, body);
    w' := Asks(w, n, body);
    IsScene(w', n + 1);
  }

  // ---------- What is reached ----------

  /** An environment is created and comes into use. */
  lemma ActiveIsReached() returns (w: World)
    ensures Scene(w, 3) && Env(w).status == Active && Env(w).workdir != NONE
    ensures Env(w).retryCount == 0 && Env(w).maxRetries == 3 && LastJob(w).status == Done
  {
    hide Waiting, Reachable;
    w := Created();
    IsScene(w, 2);
    w := PlanSucceeds(w, 2);
    w := ApprovesAndApplies(w, 2);
  }

  /** An environment in use is destroyed. */
  lemma DestroyedIsReached() returns (w: World)
    ensures Reachable(w) && ENV in w.shared.db.envs && Env(w).status == Destroyed
  {
    hide Waiting, Reachable;
    w := ActiveIsReached();
    w := AsksForDestruction(w, 3);
    IsScene(w, 4);
    w := PlanSucceeds(w, 4);
    w := ApprovesAndApplies(w, 4);
  }

  lemma Retries(w: World, n: Id) returns (w': World)
    requires Scene(w, n) && Env(w).status == Failed && LastJob(w).status == Broken && Env(w).retryCount < Env(w).maxRetries
    ensures Waiting(w', n + 1) && LastJob(w').typ == LastJob(w).typ && LastJob(w').operation == LastJob(w).operation
    ensures LastJob(w').retryCount == LastJob(w).retryCount + 1
  {
    hide Reachable, Waiting, DecideNow;
    RetryAcceptedWhen(w, Ask(RetryBody), n + 1, 0);
    AnswerKind(w, n, RetryBody);
    w' := Asks(w, n, RetryBody);
    IsScene(w', n + 1);
  }

  /** An environment in use, with a workdir, whose destroy plan failed and was retried; a runner has
      just taken up the retry. */
  lemma RetriedDestroyPlanIsReached() returns (w: World)
    ensures Reachable(w) && 0 in w.runners && TakesUpRetriedDestroy(w.runners[0])
    ensures w.runners[0].job.id in w.shared.db.jobs && IsRetriedDestroyPlan(w.shared.db.jobs[w.runners[0].job.id])
  {
    hide Waiting, Reachable;
    w := ActiveIsReached();
    w := AsksForDestruction(w, 3);
    IsScene(w, 4);
    w := JobFails(w, 4, false);
    w := Retries(w, 4);
    IsScene(w, 5);
    w := TakesUp(w, 5);
  }

  /** The write that marks a job failed is lost: its environment has failed, the job has not, and no
      retry is accepted, whoever asks. */
  lemma LostWriteIsReached() returns (w: World)
    ensures Reachable(w) && ENV in w.shared.db.envs && Env(w).status == Failed
    ensures Env(w).lastJob in w.shared.db.jobs && LastJob(w).status == Running
    ensures forall user, id, now :: DecideNow(w.shared, Handlers.Request(ENV, user, None, RetryBody), id, now).Reject?
  {
    hide Waiting, Reachable, DecideNow;
    w := Created();
    IsScene(w, 2);
    w := JobFails(w, 2, true);
    forall user, id, now ensures DecideNow(w.shared, Handlers.Request(ENV, user, None, RetryBody), id, now).Reject? {
      RetryAcceptedWhen(w, Handlers.Request(ENV, user, None, RetryBody), id, now);
    }
  }

  /** A plan for an unknown operation has been approved; its apply is accepted from nobody. */
  lemma UnknownOperationIsReached() returns (w: World)
    ensures Reachable(w) && ENV in w.shared.db.envs && Env(w).status == Approved && Env(w).operation.Other?
    ensures forall user, id, now :: DecideNow(w.shared, Handlers.Request(ENV, user, None, ApplyBody), id, now).Reject?
  {
    hide Waiting, Reachable, DecideNow;
    w := Created();
    IsScene(w, 2);
    w := JobFails(w, 2, false);
    w := PlansUnknown(w, 2);
    IsScene(w, 3);
    w := PlanSucceeds(w, 3);
    w := Approves(w, 3);
    forall user, id, now ensures DecideNow(w.shared, Handlers.Request(ENV, user, None, ApplyBody), id, now).Reject? {
      ApplyAcceptedWhen(w, Handlers.Request(ENV, user, None, ApplyBody), id, now);
    }
  }

  lemma PlansUnknown(w: World, n: Id) returns (w': World)
    requires Scene(w, n) && Env(w).status == Failed && LastJob(w).status != Queued
    ensures Waiting(w', n + 1) && LastJob(w').typ == Plan && LastJob(w').operation == Env(w').operation == Other("import")
  {
    hide Reachable, Waiting, DecideNow;
    var body := PlanBody(None, "", Some(Other("import")));
    PlanAcceptedWhen(w, Ask(body), n + 1, 0);
    AnswerKind(w, n, body);
    w' := Asks(w, n, body);
    IsScene(w', n + 1);
    RequestedOperationIsStored(w.shared, Ask(body), n + 1);
  }

  lemma RequestedOperationIsStored(s: Shared, rq: Handlers.Request, id: Id)
    requires rq.env in s.db.envs && rq.body.PlanBody? && DecideNow(s, rq, id, 0).Commit?
    ensures DecideNow(s, rq, id, 0).env.operation == RequestedOperation(s.db.envs[rq.env], rq)
  {
    hide Validate, Normalize;
  }
}
