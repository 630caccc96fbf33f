/** What a reader of the environment is shown: the result of its last job, in every reachable state;
    and where the errors shown come from. */
module Results {
  import opened Wrappers
  import opened Domain
  import opened Validation
  import opened Store
  import opened Handlers
  import opened RunnerLoop
  import opened Protocol
  import opened Safety
  import opened SharedSteps
  import opened RunnerSteps
  import opened Preservation
  import opened Effects
  import opened Guarantees
  import opened Passes

  // ---------- The errors there are ----------

  // What a job can fail of: a command or preparation of the outside world, or, for a destroy plan, that
  // there is no workdir or that it could not be saved.
  predicate Known(message: Failure, job: Job) {
    || message == NoFailure || message.OutsideFailure?
    || (job.typ != Apply && job.operation == Destroy && (message == NoAppliedWorkdir || message == MetadataNotSaved))
  }

  // A runner knows why it fails, and says so in the row it writes.
  predicate Blames(runner: Runner) {
    runner.Busy? ==>
      && Known(runner.job.error, runner.job)
      && match runner.stage
         case SaveFailure(message) => message != NoFailure && Known(message, runner.job)
         case ReportFailure(message) => message != NoFailure && message == runner.job.error
         case CommitFailure(message, _) => message != NoFailure && message == runner.job.error
         case _ => true
  }

  predicate RowBlames(row: Job) {
    Known(row.error, row)
  }

  ghost predicate AllBlame(w: World) {
    && (forall j :: j in w.shared.db.jobs ==> RowBlames(w.shared.db.jobs[j]))
    && (forall r :: r in w.runners ==> Blames(w.runners[r]))
  }

  // What a move does to the job table: nothing, or it writes a row that names a known error.
  predicate WritesKnown(before: map<Id, Job>, after: map<Id, Job>, id: Id) {
    after == before || (id in after && after == before[id := after[id]] && RowBlames(after[id]))
  }

  lemma MoveBlames(s: Shared, job: Job, stage: Stage, c: Choice)
    requires Blames(Busy(job, stage))
    requires stage == Start ==> Ready(s, job)
    requires stage == SaveWorkdir ==> job.typ != Apply
    requires stage == RunApply ==> job.workdir in s.plans
    ensures var m := Advance(s, job, stage, c);
            Blames(m.runner) && WritesKnown(s.db.jobs, m.shared.db.jobs, job.id)
  {
    hide Validate, Normalize, AfterSuccess, AfterFailure, CasHolds;
  }

  lemma SavesNoApply(w: World, r: nat)
    requires Reachable(w) && r in w.runners && w.runners[r].Busy? && w.runners[r].stage == SaveWorkdir
    ensures w.runners[r].job.typ != Apply
  {
    hide Reachable, StoreOk, RequestsOk;
    ReachableInv(w);
    assert RunnerOk(w.shared, w.runners[r]);
  }

  lemma RunnerStepBlames(w: World, r: nat, c: Choice)
    requires Reachable(w) && AllBlame(w) && Enabled(w, RunnerMove(r, c))
    ensures AllBlame(Exec(w, RunnerMove(r, c)))
  {
    hide Reachable, Advance, Ready, Blames, RowBlames;
    var job, stage := w.runners[r].job, w.runners[r].stage;
    if stage == Start {
      TakenUpIsReady(w, r);
    } else if stage == RunApply {
      ApplyRunsItsPlan(w, r);
    } else if stage == SaveWorkdir {
      SavesNoApply(w, r);
    }
    MoveBlames(w.shared, job, stage, c);
  }

  // Rows that nobody has run yet name no error.
  lemma DecidedRow(d: Decision, env: Environment, job: Option<Job>, rq: Handlers.Request, id: Id, now: nat)
    requires d == Decide(env, job, rq, id, now) && d.Commit? && d.job.Some?
    ensures d.job.value.error == NoFailure
  {
    hide Validate, Normalize;
  }

  // What any other step does to a job row: nothing, or a claim, or it is new and names no error.
  predicate Untouched(before: map<Id, Job>, after: map<Id, Job>, j: Id)
    requires j in after
  {
    || after[j].error == NoFailure
    || (j in before && after[j] == before[j].(status := after[j].status))
  }

  lemma RequestTouchesNoError(w: World, step: Step, j: Id)
    requires Enabled(w, step) && step.CommitRequest? && j in Exec(w, step).shared.db.jobs
    ensures Untouched(w.shared.db.jobs, Exec(w, step).shared.db.jobs, j)
  {
    hide Decide;
    var p := w.requests[step.client];
    var d := Decide(p.env, p.job, p.rq, step.job, step.now);
    if d.Commit? && d.job.Some? {
      DecidedRow(d, p.env, p.job, p.rq, step.job, step.now);
    }
  }

  lemma CreationTouchesNoError(w: World, step: Step, j: Id)
    requires Enabled(w, step) && step.CreateEnv? && j in Exec(w, step).shared.db.jobs
    ensures Untouched(w.shared.db.jobs, Exec(w, step).shared.db.jobs, j)
  {
    hide Validate, Normalize;
  }

  lemma CreatedRow(typ: JobType, spec: EnvironmentSpec, user: User, id: Id, now: nat)
    ensures var job := LegacyJob(typ, spec, user, id, now); job.Some? ==> job.value.error == NoFailure
  {
    hide Validate, Normalize;
  }

  lemma DerivedRow(kind: LegacyKind, user: User, src: Job, id: Id, now: nat)
    ensures var job := DerivedJob(kind, user, src, id, now); job.Some? ==> job.value.error == NoFailure
  {
    hide Validate, Normalize;
  }

  lemma InsertionTouchesNoError(w: World, step: Step, j: Id)
    requires Enabled(w, step) && (step.CreateLegacy? || step.CommitLegacy?) && j in Exec(w, step).shared.db.jobs
    ensures Untouched(w.shared.db.jobs, Exec(w, step).shared.db.jobs, j)
  {
    hide LegacyJob, DerivedJob;
    match step
    case CreateLegacy(typ, spec, user, id, now) => CreatedRow(typ, spec, user, id, now);
    case CommitLegacy(k, id, now) =>
      var p := w.legacy[k];
      DerivedRow(p.kind, p.user, p.src, id, now);
  }

  lemma OthersTouchNoError(w: World, step: Step, j: Id)
    requires Enabled(w, step) && !step.RunnerMove? && j in Exec(w, step).shared.db.jobs
    requires step.ClaimJob? ==> w.shared.db.jobs[step.job].id == step.job
    ensures Untouched(w.shared.db.jobs, Exec(w, step).shared.db.jobs, j)
  {
    match step
    case CommitRequest(_, _, _) => hide *; RequestTouchesNoError(w, step, j);
    case CreateEnv(_, _, _, _, _, _) => hide *; CreationTouchesNoError(w, step, j);
    case CreateLegacy(_, _, _, _, _) => hide *; InsertionTouchesNoError(w, step, j);
    case CommitLegacy(_, _, _) => hide *; InsertionTouchesNoError(w, step, j);
    case _ =>
  }

  lemma OthersKeepRunners(w: World, step: Step, r: nat)
    requires Enabled(w, step) && !step.RunnerMove? && r in Exec(w, step).runners
    requires step.ClaimJob? ==> w.shared.db.jobs[step.job].id == step.job
    ensures var runner := Exec(w, step).runners[r];
            || (r in w.runners && runner == w.runners[r]) || runner == Idle
            || (runner.Busy? && runner.stage == Start && runner.job.id in w.shared.db.jobs
                && runner.job == w.shared.db.jobs[runner.job.id].(status := Running))
  {
    hide CreateDecision, Decide, LegacyJob, DerivedJob, Bundle;
  }

  lemma OtherStepBlames(w: World, step: Step)
    requires Inv(w) && AllBlame(w) && Enabled(w, step) && !step.RunnerMove?
    ensures AllBlame(Exec(w, step))
  {
    hide Inv, Enabled, Exec;
    if step.ClaimJob? {
      ClaimedId(w, step);
    }
    var w' := Exec(w, step);
    forall j | j in w'.shared.db.jobs ensures RowBlames(w'.shared.db.jobs[j]) {
      OthersTouchNoError(w, step, j);
    }
    forall r | r in w'.runners ensures Blames(w'.runners[r]) {
      OthersKeepRunners(w, step, r);
    }
  }

  lemma ClaimedId(w: World, step: Step)
    requires Inv(w) && Enabled(w, step) && step.ClaimJob?
    ensures step.job in w.shared.db.jobs && w.shared.db.jobs[step.job].id == step.job
  {
    hide Inv;
    IdIsKey(w, step.job);
  }

  lemma NothingToBlame()
    ensures AllBlame(EMPTY_WORLD)
  {
  }

  lemma {:induction false} RunBlames(run: seq<World>, n: nat)
    requires IsRun(run) && n < |run|
    ensures AllBlame(run[n])
  {
    hide *;
    if n == 0 {
      RunStart(run);
      NothingToBlame();
    } else {
      RunBlames(run, n - 1);
      var step, x := RunStep(run, n - 1);
      if step.RunnerMove? {
        RunReaches(run, n - 1);
        RunnerStepBlames(run[n - 1], step.runner, step.choice);
      } else {
        OtherStepBlames(run[n - 1], step);
      }
    }
  }

  lemma RunReaches(run: seq<World>, n: nat)
    requires IsRun(run) && n < |run|
    ensures Reachable(run[n])
  {
    hide Next;
    var prefix := run[..n + 1];
    assert IsRun(prefix) && prefix[|prefix| - 1] == run[n];
  }

  /** In every reachable state, whatever a job row gives as its error is what the outside world said, or,
      for a destroy plan only, that there was no workdir or that it could not be saved. */
  lemma ErrorsComeFromOutside(w: World, j: Id)
    requires Reachable(w) && j in w.shared.db.jobs
    ensures Known(w.shared.db.jobs[j].error, w.shared.db.jobs[j])
  {
    hide Next, Known;
    var run :| IsRun(run) && run[|run| - 1] == w;
    RunBlames(run, |run| - 1);
  }

  // ---------- What environments show ----------

  // A settled last job's result is on display.
  predicate Shows(env: Environment, last: Job) {
    && (last.status == Done ==>
          env.workdir == last.workdir && env.planPath == last.planPath && env.outputs == last.outputs
          && env.lastError == NoFailure)
    && (last.status == Broken ==> env.status == Failed && env.lastError == last.error && env.lastError != NoFailure)
  }

  ghost predicate AllShow(s: Shared) {
    forall e :: e in s.db.envs && s.db.envs[e].lastJob in s.settled && s.db.envs[e].lastJob in s.db.jobs ==>
      Shows(s.db.envs[e], s.db.jobs[s.db.envs[e].lastJob])
  }

  lemma QueueingShows(s: Shared, env: Environment, job: Job, event: AuditEvent)
    requires AllShow(s) && SettledOk(s) && Allowed(s, Queueing(env, job, event))
    ensures AllShow(After(s, Queueing(env, job, event)))
  {
    hide Transition, Creation, Shows, OwnsWorkdir, SourceOk;
  }

  lemma ApprovalShows(s: Shared, env: Environment, event: AuditEvent)
    requires AllShow(s) && RowsOk(s) && Allowed(s, Approval(env, event))
    ensures AllShow(After(s, Approval(env, event)))
  {
    hide JobOk, ArtifactOk;
    assert EnvOk(s, s.db.envs[env.id]);
  }

  lemma WriteShows(s: Shared, x: Effect)
    requires AllShow(s) && RowsOk(s) && Allowed(s, x) && (x.Legacy? || x.JobWrite? || x.PlanWrite? || x.Report? || x.Nothing?)
    ensures AllShow(After(s, x))
  {
    hide JobOk, Shows, StatusOk, ArtifactOk, SameJob, OwnsWorkdir, ReadyToPlan;
    var s' := After(s, x);
    forall e | e in s'.db.envs && s'.db.envs[e].lastJob in s'.settled && s'.db.envs[e].lastJob in s'.db.jobs
      ensures Shows(s'.db.envs[e], s'.db.jobs[s'.db.envs[e].lastJob])
    {
      assert EnvOk(s, s.db.envs[e]);
    }
  }

  // A settlement of a job whose runner names the error it reports.
  lemma SettlementShows(s: Shared, env: Environment, job: Job)
    requires AllShow(s) && RowsOk(s) && Allowed(s, Settlement(env, job))
    requires env.status == Failed && s.db.jobs[job.id].status == Broken ==>
               env.lastError == s.db.jobs[job.id].error && env.lastError != NoFailure
    ensures AllShow(After(s, Settlement(env, job)))
  {
    hide JobOk, StatusOk, ArtifactOk;
    var s' := After(s, Settlement(env, job));
    forall e | e in s'.db.envs && s'.db.envs[e].lastJob in s'.settled && s'.db.envs[e].lastJob in s'.db.jobs
      ensures Shows(s'.db.envs[e], s'.db.jobs[s'.db.envs[e].lastJob])
    {
      if e != env.id {
        OthersLastJob(s, e, env.id);
      }
    }
  }

  lemma OthersLastJob(s: Shared, e: Id, d: Id)
    requires RowsOk(s) && e in s.db.envs && d in s.db.envs && e != d
    ensures s.db.envs[e].lastJob != s.db.envs[d].lastJob
  {
    hide JobOk, StatusOk, ArtifactOk;
    assert EnvOk(s, s.db.envs[e]) && EnvOk(s, s.db.envs[d]);
  }

  lemma SettlerBlames(w: World, step: Step, x: Effect)
    requires Inv(w) && AllBlame(w) && Enabled(w, step) && Explains(w, step, x) && x.Settlement?
    requires Exec(w, step).shared == After(w.shared, x)
    ensures x.job.id in w.shared.db.jobs
    ensures x.env.status == Failed && w.shared.db.jobs[x.job.id].status == Broken ==>
              x.env.lastError == w.shared.db.jobs[x.job.id].error && x.env.lastError != NoFailure
  {
    hide StoreOk, RequestsOk, Allowed, Explains, RowsOk, OnlyLastUnsettled, Advance, HolderOk, Known;
    SettlerStage(w, step, x);
    var runner := w.runners[step.runner];
    assert Blames(runner);
    RunnerFacts(w, step.runner);
    SettlesItsOwn(w, step, x);
    SettledRow(w.shared, runner.job, runner.stage, step.choice, x.env);
  }

  lemma SettlesItsOwn(w: World, step: Step, x: Effect)
    requires Enabled(w, step) && Explains(w, step, x) && x.Settlement?
    ensures x.env.id == x.job.env
  {
    hide Exec, After;
  }

  lemma SettledRow(s: Shared, job: Job, stage: Stage, c: Choice, env: Environment)
    requires RowsOk(s) && OnlyLastUnsettled(s) && RunnerOk(s, Busy(job, stage)) && Blames(Busy(job, stage))
    requires stage.CommitSuccess? || stage.CommitFailure?
    requires env.id == job.env
    requires Advance(s, job, stage, c).shared == After(s, Settlement(env, job))
    ensures job.id in s.db.jobs
    ensures env.status == Failed && s.db.jobs[job.id].status == Broken ==>
              env.lastError == s.db.jobs[job.id].error && env.lastError != NoFailure
  {
    hide RowsOk, OnlyLastUnsettled, Known, Advance;
    if stage.CommitSuccess? {
      CommitSuccessMove(s, job, stage.env, c);
    } else {
      CommitFailureMove(s, job, stage.message, stage.env, c);
      SameSettlement(s, env, AfterFailure(stage.env, job, stage.message), job, Advance(s, job, stage, c).shared);
    }
  }

  lemma SameSettlement(s: Shared, env: Environment, env': Environment, job: Job, s': Shared)
    requires s' == After(s, Settlement(env, job)) && Settles(s, s', env', job)
    ensures env.id == env'.id ==> env == env'
  {
    assert s'.db.envs[env.id] == env && s'.db.envs[env'.id] == env';
  }

  lemma StepShows(w: World, step: Step, x: Effect)
    requires Inv(w) && AllBlame(w) && AllShow(w.shared) && Enabled(w, step) && Explains(w, step, x)
    ensures AllShow(Exec(w, step).shared)
  {
    hide *;
    InvParts(w);
    StepAllowed(w, step, x);
    match x
    case Queueing(env, job, event) => QueueingShows(w.shared, env, job, event);
    case Approval(env, event) => ApprovalShows(w.shared, env, event);
    case Settlement(env, job) => SettlerBlames(w, step, x); SettlementShows(w.shared, env, job);
    case _ => WriteShows(w.shared, x);
  }

  lemma {:induction false} RunShows(run: seq<World>, n: nat)
    requires IsRun(run) && n < |run|
    ensures AllShow(run[n].shared)
  {
    hide *;
    if n == 0 {
      RunStart(run);
      NothingShown();
    } else {
      RunShows(run, n - 1);
      RunBlames(run, n - 1);
      var step, x := RunStep(run, n - 1);
      StepShows(run[n - 1], step, x);
    }
  }

  lemma NothingShown()
    ensures AllShow(EMPTY_WORLD.shared)
  {
  }

  /** In every reachable state in which an environment's last job has been settled, the environment
      shows that job's result: of a done job its workdir, plan path and outputs and no error, of a
      failed one that it failed and with which error. Nothing else ever overwrites it. */
  lemma EnvironmentShowsItsLastJob(w: World, e: Id)
    requires Reachable(w) && e in w.shared.db.envs && w.shared.db.envs[e].lastJob in w.shared.settled
    ensures w.shared.db.envs[e].lastJob in w.shared.db.jobs
    ensures var env, last := w.shared.db.envs[e], w.shared.db.jobs[w.shared.db.envs[e].lastJob];
            && (last.status == Done ==>
                  env.workdir == last.workdir && env.planPath == last.planPath && env.outputs == last.outputs
                  && env.lastError == NoFailure)
            && (last.status == Broken ==> env.status == Failed && env.lastError == last.error && env.lastError != NoFailure)
  {
    hide Next;
    var run :| IsRun(run) && run[|run| - 1] == w;
    RunShows(run, |run| - 1);
    hide IsRun, Reachable;
    OneJobInFlight(w, e);
  }
}
