/** The invariant holds in every reachable state. */
module Preservation {
  import opened Wrappers
  import opened Domain
  import opened Validation
  import opened Store
  import opened Handlers
  import opened RunnerLoop
  import opened Protocol
  import opened History
  import opened Safety
  import opened SharedSteps
  import opened RunnerSteps
  import opened ApiSteps

  // ---------- Frames for the other participants ----------

  // What a holder relies on and another participant must leave alone.
  ghost predicate Undisturbed(s: Shared, s': Shared, job: Job) {
    && job.id in s.db.jobs && job.id in s'.db.jobs && s'.db.jobs[job.id] == s.db.jobs[job.id]
    && job.id !in s'.settled
    && (forall j :: j in s.db.jobs ==> j in s'.db.jobs && JobAdvances(s.db.jobs[j], s'.db.jobs[j]))
    && (job.env in s.db.envs ==> job.env in s'.db.envs && s'.db.envs[job.env] == s.db.envs[job.env])
    && (ReadyToPlan(job) && job.workdir in s.plans && s.plans[job.workdir] == job.id ==>
          job.workdir in s'.plans && s'.plans[job.workdir] == job.id)
  }

  ghost predicate Unsettled(s: Shared, job: Job) {
    job.id in s.db.jobs && s.db.jobs[job.id].env == job.env && job.id !in s.settled
  }

  ghost predicate DisturbsNobody(s: Shared, s': Shared) {
    forall held :: Unsettled(s, held) ==> Undisturbed(s, s', held)
  }

  lemma HolderFrame(s: Shared, s': Shared, job: Job, stage: Stage)
    requires RowsOk(s) && HolderOk(s, job, stage) && !stage.Auditing? && Undisturbed(s, s', job)
    ensures HolderOk(s', job, stage)
  {
    hide EnvOk;
    assert JobOk(s, s.db.jobs[job.id]);
  }

  lemma SnapshotFrame(s: Shared, s': Shared, p: Pending)
    requires SnapshotOk(s, p) && Monotone(s, s')
    ensures SnapshotOk(s', p)
  {
  }

  lemma RequestsFrame(w: World, w': World)
    requires RequestsOk(w) && Monotone(w.shared, w'.shared)
    requires forall k :: k in w'.requests ==> k in w.requests && w'.requests[k] == w.requests[k]
    requires forall k :: k in w'.legacy ==> k in w.legacy && w'.legacy[k] == w.legacy[k]
    ensures RequestsOk(w')
  {
    forall k | k in w'.requests ensures SnapshotOk(w'.shared, w'.requests[k]) {
      SnapshotFrame(w.shared, w'.shared, w.requests[k]);
    }
  }

  lemma RunnersFrame(w: World, w': World)
    requires RowsOk(w.shared) && RunnersOk(w) && w'.runners == w.runners
    requires DisturbsNobody(w.shared, w'.shared)
    ensures RunnersOk(w')
  {
    hide EnvOk, JobOk, AtStage;
    forall r | r in w'.runners ensures RunnerOk(w'.shared, w'.runners[r]) {
      if Holding(w.runners[r]) {
        var job := w.runners[r].job;
        assert Unsettled(w.shared, job);
        HolderFrame(w.shared, w'.shared, job, w.runners[r].stage);
      }
    }
  }

  // ---------- What a request may do to the shared state ----------

  ghost predicate GoodStep(s: Shared, s': Shared) {
    StoreOk(s') && Monotone(s, s') && DisturbsNobody(s, s')
  }

  ghost predicate SameParticipants(w: World, w': World) {
    && w'.runners == w.runners
    && (forall k :: k in w'.requests ==> k in w.requests && w'.requests[k] == w.requests[k])
    && (forall k :: k in w'.legacy ==> k in w.legacy && w'.legacy[k] == w.legacy[k])
  }

  lemma GoodStepKeepsInv(w: World, w': World)
    requires Inv(w) && GoodStep(w.shared, w'.shared) && SameParticipants(w, w')
    ensures Inv(w')
  {
    hide RowsOk, OnlyLastUnsettled, SettledOk, ApprovalsOk, AppliesOk, SpecsOk, RunnersOk, RequestsOk, Monotone,
         DisturbsNobody;
    RunnersFrame(w, w');
    RequestsFrame(w, w');
  }

  lemma IdleStepIsGood(s: Shared)
    requires StoreOk(s)
    ensures GoodStep(s, s)
  {
    hide RowsOk, OnlyLastUnsettled, SettledOk, ApprovalsOk, AppliesOk, SpecsOk;
    MonotoneReflexive(s);
  }

  // The row of an environment with an unsettled job is not one a decision accepts.
  lemma QueueDisturbs(s: Shared, s': Shared, env: Environment, job: Job, held: Job)
    requires RowsOk(s) && OnlyLastUnsettled(s) && MayQueue(s, env, job) && AddsQueuedJob(s, s', env, job)
    requires Unsettled(s, held)
    ensures Undisturbed(s, s', held)
  {
    if held.env in s.db.envs {
      assert EnvOk(s, s.db.envs[held.env]);
      HeldJobIsLast(s, held.id);
    }
  }

  lemma QueueIsMonotone(s: Shared, s': Shared, env: Environment, job: Job)
    requires MayQueue(s, env, job) && AddsQueuedJob(s, s', env, job)
    requires env.id in s.db.envs ==> env.revision > s.db.envs[env.id].revision
    ensures Monotone(s, s')
    ensures forall spec :: StoredSpec(s', spec) ==> StoredSpec(s, spec) || spec == env.spec
  {
  }

  lemma NewSpecsOk(s: Shared, s': Shared, added: EnvironmentSpec)
    requires SpecsOk(s) && Clean(added)
    requires forall spec :: StoredSpec(s', spec) ==> StoredSpec(s, spec) || spec == added
    ensures SpecsOk(s')
  {
  }

  predicate QuietEvent(event: AuditEvent) {
    !event.action.JobIgnored? && !event.action.JobConflict?
  }

  lemma QueueIsGood(s: Shared, env: Environment, job: Job, event: AuditEvent)
    requires StoreOk(s) && MayQueue(s, env, job) && Clean(env.spec)
    requires env.id in s.db.envs ==> env.revision > s.db.envs[env.id].revision
    requires !event.action.PlanApproved? && QuietEvent(event)
    ensures GoodStep(s, WithShared(s, Bundle(s.db, env, Some(job), event)))
  {
    hide RowsOk, OnlyLastUnsettled, SettledOk, ApprovalsOk, AppliesOk, MayQueue, AddsQueuedJob, Clean;
    var s' := WithShared(s, Bundle(s.db, env, Some(job), event));
    BundleQueues(s, env, job, event);
    QueueKeepsShared(s, s', env, job);
    QueueIsMonotone(s, s', env, job);
    NewSpecsOk(s, s', env.spec);
    forall held | Unsettled(s, held) ensures Undisturbed(s, s', held) {
      QueueDisturbs(s, s', env, job, held);
    }
  }

  lemma ApprovalBundle(s: Shared, env: Environment, event: AuditEvent)
    requires MayApprove(s, env)
    requires event.action.PlanApproved? && event.action.plan == s.db.envs[env.id].lastJob
    ensures AddsApproval(s, WithShared(s, Bundle(s.db, env, None, event)), env)
  {
    CountAppend(s.db.audit, event);
  }

  lemma ApprovalIsMonotone(s: Shared, s': Shared, env: Environment)
    requires MayApprove(s, env) && AddsApproval(s, s', env) && env.revision > s.db.envs[env.id].revision
    ensures Monotone(s, s')
    ensures forall spec :: StoredSpec(s', spec) ==> StoredSpec(s, spec) || spec == env.spec
  {
  }

  lemma ApprovalDisturbs(s: Shared, s': Shared, env: Environment, held: Job)
    requires RowsOk(s) && OnlyLastUnsettled(s) && MayApprove(s, env) && AddsApproval(s, s', env)
    requires Unsettled(s, held)
    ensures Undisturbed(s, s', held)
  {
    if held.env in s.db.envs {
      assert EnvOk(s, s.db.envs[held.env]);
      HeldJobIsLast(s, held.id);
    }
  }

  lemma ApprovalIsGood(s: Shared, env: Environment, event: AuditEvent)
    requires StoreOk(s) && MayApprove(s, env) && env.revision > s.db.envs[env.id].revision && Clean(env.spec)
    requires event.action.PlanApproved? && event.action.plan == s.db.envs[env.id].lastJob
    ensures GoodStep(s, WithShared(s, Bundle(s.db, env, None, event)))
  {
    hide RowsOk, OnlyLastUnsettled, SettledOk, ApprovalsOk, AppliesOk, AddsApproval, Clean;
    var s' := WithShared(s, Bundle(s.db, env, None, event));
    ApprovalBundle(s, env, event);
    ApprovalKeepsShared(s, s', env);
    ApprovalIsMonotone(s, s', env);
    NewSpecsOk(s, s', env.spec);
    forall held | Unsettled(s, held) ensures Undisturbed(s, s', held) {
      ApprovalDisturbs(s, s', env, held);
    }
  }

  lemma InsertIsMonotone(s: Shared, s': Shared, job: Job)
    requires MayInsert(s, job) && s' == WithShared(s, PutJob(s.db, job))
    ensures Monotone(s, s') && DisturbsNobody(s, s')
    ensures forall spec :: StoredSpec(s', spec) ==> StoredSpec(s, spec) || spec == job.spec
  {
    hide JobOk;
  }

  lemma InsertIsGood(s: Shared, job: Job)
    requires StoreOk(s) && MayInsert(s, job) && Clean(job.spec)
    ensures GoodStep(s, WithShared(s, PutJob(s.db, job)))
  {
    hide RowsOk, OnlyLastUnsettled, SettledOk, ApprovalsOk, AppliesOk, MayInsert, Clean;
    var s' := WithShared(s, PutJob(s.db, job));
    InsertKeepsShared(s, s', job);
    InsertIsMonotone(s, s', job);
    NewSpecsOk(s, s', job.spec);
  }

  // ---------- The compare-and-set ----------

  lemma DecisionShape(env: Environment, job: Option<Job>, rq: Request, id: Id, now: nat)
    requires Decide(env, job, rq, id, now).Commit?
    ensures var d := Decide(env, job, rq, id, now);
            && d.env.id == env.id && d.env.revision == env.revision + 1 && !IsEnvironmentBusy(env.status)
            && (d.event.action.RetryRequested? <==> rq.body.RetryBody?)
            && QuietEvent(d.event)
  {
    hide Validate, Normalize;
  }

  // A decision uses a job row only once that row is final.
  lemma UsesFinalRow(env: Environment, job: Option<Job>, rq: Request, id: Id, now: nat)
    requires Decide(env, job, rq, id, now).Commit?
    ensures rq.body.ApproveBody? || rq.body.ApplyBody? || rq.body.RetryBody? ==>
              job.Some? && (job.value.status == Done || job.value.status == Broken)
    ensures rq.body.PlanBody? || rq.body.DestroyBody? ==> forall other :: Decide(env, other, rq, id, now) == Decide(env, job, rq, id, now)
  {
    hide Validate, Normalize;
  }

  /** When the compare-and-set succeeds, the rows read earlier are the rows stored now, as far as
      the decision depends on them. */
  lemma RowsStillCurrent(s: Shared, p: Pending, id: Id, now: nat)
    requires SnapshotOk(s, p) && p.RowsRead?
    requires Decide(p.env, p.job, p.rq, id, now).Commit? && CasHolds(s.db, Decide(p.env, p.job, p.rq, id, now).env)
    ensures p.env == s.db.envs[p.rq.env]
    ensures Decide(p.env, LookupJob(s.db, JobToRead(p.env, p.rq.body)), p.rq, id, now) == Decide(p.env, p.job, p.rq, id, now)
  {
    hide PlanDecision, ApproveDecision, ApplyDecision, RetryDecision, DestroyDecision;
    DecisionShape(p.env, p.job, p.rq, id, now);
    UsesFinalRow(p.env, p.job, p.rq, id, now);
  }

  // A decision on the current rows.
  function DecideNow(s: Shared, rq: Request, id: Id, now: nat): Decision
    requires rq.env in s.db.envs
  {
    var env := s.db.envs[rq.env];
    Decide(env, LookupJob(s.db, JobToRead(env, rq.body)), rq, id, now)
  }

  lemma AcceptedQueues(s: Shared, rq: Request, id: Id, now: nat)
    requires RowsOk(s) && AppliesOk(s) && rq.env in s.db.envs && id != NONE && id !in s.db.jobs
    requires Clean(s.db.envs[rq.env].spec) && !rq.body.ApproveBody?
    requires DecideNow(s, rq, id, now).Commit?
    ensures GoodQueue(s, s.db.envs[rq.env].revision, DecideNow(s, rq, id, now))
    ensures Clean(DecideNow(s, rq, id, now).env.spec)
  {
    hide RowsOk, AppliesOk, Clean, GoodQueue, PlanDecision, ApproveDecision, ApplyDecision, RetryDecision,
         DestroyDecision;
    match rq.body
    case PlanBody(_, _, _) => PlanQueues(s, rq, id, now);
    case ApplyBody => ApplyQueues(s, rq, id, now);
    case RetryBody => RetryQueues(s, rq, id, now);
    case DestroyBody(_, _) => DestroyQueues(s, rq, id, now);
  }

  lemma AcceptedIsGood(s: Shared, rq: Request, id: Id, now: nat)
    requires StoreOk(s) && rq.env in s.db.envs && id != NONE && id !in s.db.jobs
    requires DecideNow(s, rq, id, now).Commit?
    ensures var d := DecideNow(s, rq, id, now);
            GoodStep(s, WithShared(s, Bundle(s.db, d.env, d.job, d.event)))
  {
    hide OnlyLastUnsettled, SettledOk, ApprovalsOk, AppliesOk, EnvOk, JobOk, Clean, GoodStep, Bundle, MayQueue, MayApprove,
         PlanDecision, ApproveDecision, ApplyDecision, RetryDecision, DestroyDecision;
    var d := DecideNow(s, rq, id, now);
    var env := s.db.envs[rq.env];
    DecisionShape(env, LookupJob(s.db, JobToRead(env, rq.body)), rq, id, now);
    assert StoredSpec(s, env.spec);
    if rq.body.ApproveBody? {
      ApproveApproves(s, rq);
      ApprovalSpec(s, d.env);
      ApprovalIsGood(s, d.env, d.event);
    } else {
      AcceptedQueues(s, rq, id, now);
      QueueIsGood(s, d.env, d.job.value, d.event);
    }
  }

  lemma ApprovalSpec(s: Shared, env: Environment)
    requires MayApprove(s, env)
    ensures env.id in s.db.envs && env.spec == s.db.envs[env.id].spec
  {
  }

  lemma CommitKeepsInv(w: World, k: nat, id: Id, now: nat)
    requires Inv(w) && Enabled(w, CommitRequest(k, id, now))
    ensures Inv(Exec(w, CommitRequest(k, id, now)))
  {
    hide StoreOk, RunnersOk, RequestsOk, Decide, GoodStep, Bundle, CasHolds, SnapshotOk;
    var w' := Exec(w, CommitRequest(k, id, now));
    var p := w.requests[k];
    var d := Decide(p.env, p.job, p.rq, id, now);
    SnapshotHolds(w, k);
    if d.Commit? && CasHolds(w.shared.db, d.env) {
      CurrentRequestIsGood(w.shared, p, id, now);
    } else {
      IdleStepIsGood(w.shared);
    }
    GoodStepKeepsInv(w, w');
  }

  lemma SnapshotHolds(w: World, k: nat)
    requires RequestsOk(w) && k in w.requests
    ensures SnapshotOk(w.shared, w.requests[k])
  {
  }

  lemma CurrentRequestIsGood(s: Shared, p: Pending, id: Id, now: nat)
    requires StoreOk(s) && SnapshotOk(s, p) && p.RowsRead? && id != NONE && id !in s.db.jobs
    requires Decide(p.env, p.job, p.rq, id, now).Commit? && CasHolds(s.db, Decide(p.env, p.job, p.rq, id, now).env)
    ensures var d := Decide(p.env, p.job, p.rq, id, now);
            GoodStep(s, WithShared(s, Bundle(s.db, d.env, d.job, d.event)))
  {
    hide StoreOk, Decide, GoodStep, Bundle, CasHolds;
    RowsStillCurrent(s, p, id, now);
    AcceptedIsGood(s, p.rq, id, now);
  }

  // ---------- Runner moves ----------

  lemma MoveDisturbs(s: Shared, s': Shared, job: Job, held: Job)
    requires RowsOk(s) && OnlyLastUnsettled(s) && Monotone(s, s') && Confined(s, s', job)
    requires Unsettled(s, held) && OwnsWorkdir(s, held)
    requires Unsettled(s, job) && OwnsWorkdir(s, job)
    requires held.id != job.id
    ensures Undisturbed(s, s', held)
  {
    hide JobOk, EnvOk;
    if held.env != NONE {
      HeldJobIsLast(s, held.id);
    }
    if job.env != NONE {
      HeldJobIsLast(s, job.id);
    }
    NoEnvironmentIsNone(s);
  }

  lemma NoEnvironmentIsNone(s: Shared)
    requires RowsOk(s)
    ensures NONE !in s.db.envs
  {
    hide JobOk;
    forall e | e in s.db.envs ensures e != NONE {
      assert EnvOk(s, s.db.envs[e]);
    }
  }

  // A runner's move leaves every other holder in place.
  lemma OtherHolderKept(s: Shared, s': Shared, job: Job, other: Runner)
    requires RowsOk(s) && OnlyLastUnsettled(s) && Monotone(s, s') && Confined(s, s', job)
    requires Unsettled(s, job) && OwnsWorkdir(s, job)
    requires RunnerOk(s, other) && (Holding(other) ==> other.job.id != job.id)
    ensures RunnerOk(s', other)
  {
    hide RowsOk, OnlyLastUnsettled, Monotone, Confined, AtStage, Undisturbed;
    if Holding(other) {
      MoveDisturbs(s, s', job, other.job);
      HolderFrame(s, s', other.job, other.stage);
    }
  }

  lemma MoveKeepsRunners(w: World, r: nat, job: Job, s': Shared, runner: Runner)
    requires RowsOk(w.shared) && OnlyLastUnsettled(w.shared) && RunnersOk(w)
    requires forall q :: Holds(w, q) && q != r ==> w.runners[q].job.id != job.id
    requires Unsettled(w.shared, job) && OwnsWorkdir(w.shared, job)
    requires Monotone(w.shared, s') && Confined(w.shared, s', job)
    requires RunnerOk(s', runner) && (runner.Busy? ==> runner.job.id == job.id)
    ensures RunnersOk(SetRunner(w.(shared := s'), r, runner))
  {
    hide RowsOk, OnlyLastUnsettled, Monotone, Confined, RunnerOk, OwnsWorkdir, Unsettled;
    var w' := SetRunner(w.(shared := s'), r, runner);
    forall q | q in w'.runners ensures RunnerOk(w'.shared, w'.runners[q]) {
      if q != r {
        assert Holds(w, q) <==> Holding(w.runners[q]);
        OtherHolderKept(w.shared, s', job, w.runners[q]);
      }
    }
    forall q | Holds(w', q) && q != r ensures Holds(w, q) {
    }
  }

  lemma AuditDisturbsNobody(s: Shared, event: AuditEvent)
    ensures DisturbsNobody(s, WithShared(s, AppendAudit(s.db, event)))
  {
  }

  lemma DroppingARunner(w: World, r: nat)
    requires RunnersOk(w)
    ensures RunnersOk(SetRunner(w, r, Idle))
  {
    hide HolderOk;
    var w' := SetRunner(w, r, Idle);
    forall q | Holds(w', q) ensures Holds(w, q) {
    }
  }

  lemma HolderCanMove(w: World, r: nat)
    requires Inv(w) && r in w.runners && w.runners[r].Busy?
    ensures MayMove(w.shared, w.runners[r].job, w.runners[r].stage)
    ensures Holds(w, r) ==> Unsettled(w.shared, w.runners[r].job) && OwnsWorkdir(w.shared, w.runners[r].job)
  {
    hide RowsOk, OnlyLastUnsettled, SettledOk, ApprovalsOk, AppliesOk, RequestsOk, Clean;
    if w.runners[r].stage.Start? {
      assert StoredSpec(w.shared, w.shared.db.jobs[w.runners[r].job.id].spec);
    }
  }

  lemma MoveKeepsStore(s: Shared, job: Job, stage: Stage, c: Choice)
    requires StoreOk(s) && MayMove(s, job, stage)
    ensures StoreOk(Advance(s, job, stage, c).shared)
  {
    hide SharedOk, MayMove, Clean, Advance, Monotone, RunnerOk;
    MoveIsGood(s, job, stage, c);
  }

  lemma MoveKeepsInv(w: World, r: nat, c: Choice)
    requires Inv(w) && Enabled(w, RunnerMove(r, c))
    ensures Inv(Exec(w, RunnerMove(r, c)))
  {
    hide RowsOk, SettledOk, ApprovalsOk, AppliesOk, SpecsOk, RequestsOk, OnlyLastUnsettled, NothingDropped, MayMove, Clean, Monotone, Confined,
         RunnerOk, OwnsWorkdir, Unsettled, DisturbsNobody;
    var job, stage := w.runners[r].job, w.runners[r].stage;
    HolderCanMove(w, r);
    MoveIsGood(w.shared, job, stage, c);
    MoveKeepsStore(w.shared, job, stage, c);
    if stage.Auditing? {
      AuditDisturbsNobody(w.shared, stage.event);
      RunnersFrame(w, w.(shared := Advance(w.shared, job, stage, c).shared));
      DroppingARunner(w.(shared := Advance(w.shared, job, stage, c).shared), r);
    } else {
      hide Advance;
      var m := Advance(w.shared, job, stage, c);
      MoveKeepsRunners(w, r, job, m.shared, m.runner);
    }
    RequestsFrame(w, Exec(w, RunnerMove(r, c)));
  }

  // ---------- Claims ----------

  lemma ClaimSaves(s: Shared, j: Id)
    requires RowsOk(s) && SettledOk(s) && j in s.db.jobs && s.db.jobs[j].status == JobStatus.Queued
    ensures var job := s.db.jobs[j].(status := Running);
            && MaySave(s, job) && Unsettled(s, job) && OwnsWorkdir(s, job)
            && Claim(s.db, j) == PutJob(s.db, job)
  {
    assert JobOk(s, s.db.jobs[j]);
  }

  // A job that is still queued is in nobody's hands.
  lemma QueuedIsUnheld(w: World, r: nat, j: Id)
    requires RunnersOk(w) && Holds(w, r) && j in w.shared.db.jobs && w.shared.db.jobs[j].status == JobStatus.Queued
    ensures w.runners[r].job.id != j
  {
    assert RunnerOk(w.shared, w.runners[r]);
  }

  lemma ClaimedHolder(s: Shared, s': Shared, job: Job)
    requires MaySave(s, job) && job.status == Running && s' == WithShared(s, PutJob(s.db, job))
    ensures RunnerOk(s', Busy(job, Start))
  {
  }

  lemma ClaimKeepsInv(w: World, r: nat, j: Id)
    requires Inv(w) && Enabled(w, ClaimJob(r, j))
    ensures Inv(Exec(w, ClaimJob(r, j)))
  {
    hide RowsOk, OnlyLastUnsettled, SettledOk, ApprovalsOk, AppliesOk, RunnersOk, RequestsOk, Clean, RunnerOk, MaySave, Unsettled, OwnsWorkdir,
         Monotone, Confined;
    var s := w.shared;
    var job := s.db.jobs[j].(status := Running);
    ClaimSaves(s, j);
    var s' := WithShared(s, PutJob(s.db, job));
    assert job.id == j by { IdsAreKeys(s, j); }
    SavesRow(s, job, job, s');
    ClaimedHolder(s, s', job);
    forall q | Holds(w, q) && q != r ensures w.runners[q].job.id != job.id {
      QueuedIsUnheld(w, q, j);
    }
    MoveKeepsRunners(w, r, job, s', Busy(job, Start));
    RequestsFrame(w, Exec(w, ClaimJob(r, j)));
  }

  lemma IdsAreKeys(s: Shared, j: Id)
    requires RowsOk(s) && j in s.db.jobs
    ensures s.db.jobs[j].id == j
  {
    hide JobOk, EnvOk;
  }

  // ---------- Every step ----------

  // The parts of the invariant that speak of the tables.
  lemma InvParts(w: World)
    requires Inv(w)
    ensures RowsOk(w.shared) && OnlyLastUnsettled(w.shared) && SettledOk(w.shared) && ApprovalsOk(w.shared)
  {
    hide RunnersOk, RequestsOk, RowsOk, SettledOk, ApprovalsOk, AppliesOk, SpecsOk, OnlyLastUnsettled;
  }

  lemma CreateKeepsInv(w: World, step: Step)
    requires Inv(w) && step.CreateEnv? && Enabled(w, step)
    ensures Inv(Exec(w, step))
  {
    hide RunnersOk, RequestsOk, StoreOk, GoodStep, MayQueue, Clean, CreateDecision, Bundle;
    var d := CreateDecision(step.spec, step.template, step.user, step.env, step.job, step.now);
    if d.Commit? {
      CreateQueues(w.shared, step.spec, step.template, step.user, step.env, step.job, step.now);
      CreateShape(step.spec, step.template, step.user, step.env, step.job, step.now);
      QueueIsGood(w.shared, d.env, d.job.value, d.event);
    } else {
      IdleStepIsGood(w.shared);
    }
    GoodStepKeepsInv(w, Exec(w, step));
  }

  lemma CreateShape(raw: EnvironmentSpec, template: string, user: User, e: Id, id: Id, now: nat)
    requires CreateDecision(raw, template, user, e, id, now).Commit?
    ensures var d := CreateDecision(raw, template, user, e, id, now);
            && d.env.id == e && d.env.revision == 1 && QuietEvent(d.event)
  {
    hide Validate, Normalize;
  }

  lemma ReadEnvKeepsInv(w: World, k: nat, rq: Request)
    requires Inv(w) && Enabled(w, ReadEnv(k, rq))
    ensures Inv(Exec(w, ReadEnv(k, rq)))
  {
    hide StoreOk, RunnerOk, LegacyOk;
    var w' := Exec(w, ReadEnv(k, rq));
    assert SnapshotOk(w'.shared, w'.requests[k]) by {
      EnvIdsAreKeys(w.shared, rq.env);
    }
    SameRunners(w, w');
  }

  lemma EnvIdsAreKeys(s: Shared, e: Id)
    requires StoreOk(s) && e in s.db.envs
    ensures s.db.envs[e].id == e
  {
    hide JobOk, EnvOk, OnlyLastUnsettled, SettledOk, ApprovalsOk, AppliesOk, SpecsOk;
  }

  lemma SameRunners(w: World, w': World)
    requires RunnersOk(w) && w'.runners == w.runners && w'.shared == w.shared
    ensures RunnersOk(w')
  {
    hide RunnerOk;
  }

  lemma ReadJobKeepsInv(w: World, k: nat)
    requires Inv(w) && Enabled(w, ReadJob(k))
    ensures Inv(Exec(w, ReadJob(k)))
  {
    hide StoreOk, RunnerOk, LegacyOk;
    var w' := Exec(w, ReadJob(k));
    assert SnapshotOk(w'.shared, w'.requests[k]) by {
      assert SnapshotOk(w.shared, w.requests[k]);
      forall j | j in w.shared.db.jobs ensures w.shared.db.jobs[j].id == j {
        JobIdsAreKeys(w.shared, j);
      }
    }
    SameRunners(w, w');
  }

  lemma JobIdsAreKeys(s: Shared, j: Id)
    requires StoreOk(s) && j in s.db.jobs
    ensures s.db.jobs[j].id == j && (s.db.jobs[j].env == NONE ==> s.db.jobs[j].operation == Create)
  {
    hide EnvOk, OnlyLastUnsettled, SettledOk, ApprovalsOk, AppliesOk, SpecsOk;
    assert JobOk(s, s.db.jobs[j]);
  }

  lemma ReadLegacyKeepsInv(w: World, k: nat, kind: LegacyKind, user: User, src: Id)
    requires Inv(w) && Enabled(w, ReadLegacy(k, kind, user, src))
    ensures Inv(Exec(w, ReadLegacy(k, kind, user, src)))
  {
    hide StoreOk, RunnerOk, SnapshotOk;
    var w' := Exec(w, ReadLegacy(k, kind, user, src));
    JobIdsAreKeys(w.shared, src);
    assert LegacyOk(w'.shared, w'.legacy[k].src);
    SameRunners(w, w');
  }

  lemma LegacyKeepsInv(w: World, w': World, job: Option<Job>)
    requires Inv(w) && (job.Some? ==> MayInsert(w.shared, job.value) && Clean(job.value.spec))
    requires w'.shared == InsertLegacy(w, job).shared && SameParticipants(w, w')
    ensures Inv(w')
  {
    hide StoreOk, RunnersOk, RequestsOk, GoodStep, MayInsert, Clean;
    if job.Some? {
      InsertIsGood(w.shared, job.value);
    } else {
      IdleStepIsGood(w.shared);
    }
    GoodStepKeepsInv(w, w');
  }

  lemma CreateLegacyKeepsInv(w: World, step: Step)
    requires Inv(w) && step.CreateLegacy? && Enabled(w, step)
    ensures Inv(Exec(w, step))
  {
    hide StoreOk, RunnersOk, RequestsOk, MayInsert, Clean, LegacyJob;
    var job := LegacyJob(step.typ, step.spec, step.user, step.job, step.now);
    if job.Some? {
      LegacyInserts(w.shared, step.typ, step.spec, step.user, step.job, step.now);
    }
    LegacyKeepsInv(w, Exec(w, step), job);
  }

  lemma CommitLegacyKeepsInv(w: World, k: nat, id: Id, now: nat)
    requires Inv(w) && Enabled(w, CommitLegacy(k, id, now))
    ensures Inv(Exec(w, CommitLegacy(k, id, now)))
  {
    hide OnlyLastUnsettled, SettledOk, ApprovalsOk, AppliesOk, SpecsOk, RunnersOk, RowsOk, SnapshotOk, MayInsert,
         Clean, DerivedJob, LegacyOk;
    var p := w.legacy[k];
    var job := DerivedJob(p.kind, p.user, p.src, id, now);
    if job.Some? {
      DerivedInserts(w.shared, p.kind, p.user, p.src, id, now);
    }
    LegacyKeepsInv(w, Exec(w, CommitLegacy(k, id, now)), job);
  }

  lemma CrashKeepsInv(w: World, r: nat)
    requires Inv(w)
    ensures Inv(SetRunner(w, r, Idle))
  {
    hide StoreOk, RunnersOk, SnapshotOk, LegacyOk;
    DroppingARunner(w, r);
  }

  lemma StepKeepsInv(w: World, step: Step)
    requires Inv(w) && Enabled(w, step)
    ensures Inv(Exec(w, step))
  {
    hide Inv;
    match step
    case CreateEnv(_, _, _, _, _, _) => CreateKeepsInv(w, step);
    case ReadEnv(k, rq) => ReadEnvKeepsInv(w, k, rq);
    case ReadJob(k) => ReadJobKeepsInv(w, k);
    case CommitRequest(k, id, now) => CommitKeepsInv(w, k, id, now);
    case CreateLegacy(_, _, _, _, _) => CreateLegacyKeepsInv(w, step);
    case ReadLegacy(k, kind, user, src) => ReadLegacyKeepsInv(w, k, kind, user, src);
    case CommitLegacy(k, id, now) => CommitLegacyKeepsInv(w, k, id, now);
    case ClaimJob(r, j) => ClaimKeepsInv(w, r, j);
    case RunnerMove(r, c) => MoveKeepsInv(w, r, c);
    case Crash(r) => CrashKeepsInv(w, r);
  }

  /** Every world of every run satisfies the invariant. */
  lemma {:induction false} RunKeepsInv(run: seq<World>, n: nat)
    requires IsRun(run) && n < |run|
    ensures Inv(run[n])
  {
    hide Exec, Enabled;
    if n == 0 {
      EmptyInv();
    } else {
      hide Inv;
      RunKeepsInv(run, n - 1);
      assert Next(run[n - 1], run[n]);
      var step :| Enabled(run[n - 1], step) && run[n] == Exec(run[n - 1], step);
      StepKeepsInv(run[n - 1], step);
    }
  }

  lemma EmptyInv()
    ensures Inv(EMPTY_WORLD)
  {
  }

  lemma ReachableInv(w: World)
    requires Reachable(w)
    ensures Inv(w)
  {
    hide Inv;
    var run :| IsRun(run) && run[|run| - 1] == w;
    RunKeepsInv(run, |run| - 1);
  }
}
