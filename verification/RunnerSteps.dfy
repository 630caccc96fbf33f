/** Every move of a runner keeps the invariant and touches only what belongs to its job. */
module RunnerSteps {
  import opened Domain
  import opened Validation
  import opened Store
  import opened RunnerLoop
  import opened Safety
  import opened SharedSteps

  /** Along any step an environment row that changes gets a larger revision, jobs keep their
      environment, a claimed job never returns to the queue, and a done or failed job row never
      changes again. */
  ghost predicate Monotone(s: Shared, s': Shared) {
    && (forall e :: e in s.db.envs ==> e in s'.db.envs && EnvAdvances(s.db.envs[e], s'.db.envs[e]))
    && (forall j :: j in s.db.jobs ==> j in s'.db.jobs && JobAdvances(s.db.jobs[j], s'.db.jobs[j]))
  }

  ghost predicate EnvAdvances(env: Environment, env': Environment) {
    env' == env || env'.revision > env.revision
  }

  ghost predicate JobAdvances(job: Job, job': Job) {
    && job'.env == job.env && (job.status != JobStatus.Queued ==> job'.status != JobStatus.Queued)
    && (job.status == Done || job.status == Broken ==> job' == job)
  }

  // What a runner holding `job` may touch: its own row, its environment's row, its own workdir.
  ghost predicate Confined(s: Shared, s': Shared, job: Job) {
    && (forall j :: j in s.db.jobs && j != job.id ==> j in s'.db.jobs && s'.db.jobs[j] == s.db.jobs[j])
    && s'.db.jobs.Keys == s.db.jobs.Keys
    && (forall e :: e in s.db.envs && (e != job.env || job.id in s.settled) ==> e in s'.db.envs && s'.db.envs[e] == s.db.envs[e])
    && s'.db.envs.Keys == s.db.envs.Keys
    && (forall d :: d != job.workdir && d in s.plans ==> d in s'.plans && s'.plans[d] == s.plans[d])
    && (s'.plans == s.plans || ReadyToPlan(job))
    && s.settled <= s'.settled <= s.settled + {job.id}
  }

  ghost predicate NoNewSpec(s: Shared, s': Shared) {
    forall spec :: StoredSpec(s', spec) ==> StoredSpec(s, spec)
  }

  // The combined claim about one move.
  ghost predicate GoodMove(s: Shared, job: Job, m: Move) {
    && SharedOk(m.shared) && NoNewSpec(s, m.shared)
    && RunnerOk(m.shared, m.runner)
    && (m.shared.db.audit == s.db.audit || exists event :: ReportsOutcome(event) && m.shared.db.audit == s.db.audit + [event])
    && Monotone(s, m.shared)
    && (m.runner.Busy? ==> m.runner.job.id == job.id)
  }

  ghost predicate MayMove(s: Shared, job: Job, stage: Stage) {
    SharedOk(s) && RunnerOk(s, Busy(job, stage)) && (stage.Start? ==> Clean(job.spec))
  }

  lemma HeldJobIsLast(s: Shared, j: Id)
    requires RowsOk(s) && OnlyLastUnsettled(s)
    requires j in s.db.jobs && j !in s.settled && s.db.jobs[j].env != NONE
    ensures s.db.jobs[j].env in s.db.envs
    ensures s.db.envs[s.db.jobs[j].env].lastJob == j
    ensures IsEnvironmentBusy(s.db.envs[s.db.jobs[j].env].status)
  {
    assert JobOk(s, s.db.jobs[j]);
    assert EnvOk(s, s.db.envs[s.db.jobs[j].env]);
  }

  // ---------- Moves that only look ----------

  ghost predicate Looks(s: Shared, job: Job, m: Move) {
    m.shared == s && RunnerOk(s, m.runner) && (m.runner.Busy? ==> m.runner.job.id == job.id)
  }

  lemma StartApplyLooks(s: Shared, job: Job)
    requires RowsOk(s) && RunnerOk(s, Busy(job, Start)) && job.typ == Apply
    ensures Looks(s, job, StartApply(s, job))
  {
    hide EnvOk;
    assert JobOk(s, s.db.jobs[job.id]);
    assert JobOk(s, s.db.jobs[job.source]);
  }

  // A runner that has chosen a workdir, or has given up before choosing one.
  lemma PreparedHolder(s: Shared, job: Job, template: string, workdir: Id)
    requires HolderOk(s, job, Start) && job.typ != Apply
    requires workdir in s.db.jobs && s.db.jobs[workdir].env == job.env && workdir != NONE
    requires job.env == NONE || job.operation != Destroy ==> workdir == job.id
    ensures HolderOk(s, job.(template := template, workdir := workdir, error := NoFailure), SaveWorkdir)
  {
  }

  lemma GivenUpHolder(s: Shared, job: Job, template: string, message: Failure)
    requires HolderOk(s, job, Start)
    ensures HolderOk(s, job.(template := template), SaveFailure(message))
  {
  }

  lemma StartIsRow(s: Shared, job: Job)
    requires RunnerOk(s, Busy(job, Start))
    ensures job.id in s.db.jobs && s.db.jobs[job.id] == job && HolderOk(s, job, Start)
  {
  }

  lemma EnvironmentWorkdir(s: Shared, e: Id)
    requires RowsOk(s) && e in s.db.envs && s.db.envs[e].workdir != NONE
    ensures e != NONE && s.db.envs[e].workdir in s.db.jobs && s.db.jobs[s.db.envs[e].workdir].env == e
  {
    hide JobOk, StatusOk, ArtifactOk;
    assert EnvOk(s, s.db.envs[e]);
  }

  lemma StartDestroyPlanLooks(s: Shared, job: Job)
    requires RowsOk(s) && RunnerOk(s, Busy(job, Start)) && job.typ != Apply && job.operation == Destroy
    ensures Looks(s, job, StartDestroyPlan(s, WithTemplate(job)))
  {
    hide HolderOk, RowsOk;
    var template := WithTemplate(job).template;
    StartIsRow(s, job);
    if job.env in s.db.envs && s.db.envs[job.env].workdir != NONE {
      EnvironmentWorkdir(s, job.env);
      PreparedHolder(s, job, template, s.db.envs[job.env].workdir);
    }
    forall message ensures HolderOk(s, job.(template := template), SaveFailure(message)) {
      GivenUpHolder(s, job, template, message);
    }
  }

  lemma StartPlanLooks(s: Shared, job: Job, c: Choice)
    requires RowsOk(s) && RunnerOk(s, Busy(job, Start)) && job.typ != Apply && job.operation != Destroy
    requires Clean(job.spec)
    ensures Looks(s, job, StartPlan(s, WithTemplate(job), c))
  {
    hide HolderOk, RowsOk, Clean, StartPlan;
    var template := WithTemplate(job).template;
    StartIsRow(s, job);
    JobIdsExist(s, job.id);
    PreparedHolder(s, job, template, job.id);
    GivenUpHolder(s, job, template, OutsideFailure(c.text));
    CleanStart(s, job, template, c);
  }

  lemma JobIdsExist(s: Shared, j: Id)
    requires RowsOk(s) && j in s.db.jobs
    ensures j != NONE
  {
    hide EnvOk;
    assert JobOk(s, s.db.jobs[j]);
  }

  lemma CleanStart(s: Shared, job: Job, template: string, c: Choice)
    requires Clean(job.spec) && template == WithTemplate(job).template
    ensures StartPlan(s, WithTemplate(job), c) ==
            if c.ok then Move(s, Busy(job.(template := template, workdir := job.id, error := NoFailure), SaveWorkdir))
            else Fail(s, job.(template := template), OutsideFailure(c.text))
  {
  }

  // What no move of a runner changes about its job.
  predicate SameErrand(job: Job, job': Job) {
    job'.id == job.id && job'.env == job.env && job'.typ == job.typ && job'.operation == job.operation
    && job'.source == job.source && job'.retryCount == job.retryCount
  }

  // The outcome of the first move.
  predicate Started(job: Job, m: Move) {
    && m.runner.Busy? && SameErrand(job, m.runner.job)
    && (m.runner.stage.SaveApply? || m.runner.stage.SaveWorkdir? || m.runner.stage.SaveFailure?)
  }

  lemma StartApplyStarts(s: Shared, job: Job)
    ensures Started(job, StartApply(s, job))
  {
  }

  lemma StartDestroyPlanStarts(s: Shared, job: Job)
    ensures Started(job, StartDestroyPlan(s, job))
  {
  }

  lemma StartPlanStarts(s: Shared, job: Job, c: Choice)
    ensures Started(job, StartPlan(s, job, c))
  {
    hide Validate, Normalize;
  }

  lemma TemplateIsNoErrand(job: Job, m: Move)
    requires Started(WithTemplate(job), m)
    ensures Started(job, m)
  {
  }

  lemma StartStarts(s: Shared, job: Job, c: Choice)
    ensures Started(job, Advance(s, job, Start, c))
  {
    hide StartApply, StartDestroyPlan, StartPlan, WithTemplate;
    StartApplyStarts(s, job);
    StartDestroyPlanStarts(s, WithTemplate(job));
    StartPlanStarts(s, WithTemplate(job), c);
    if !(!c.ok && !(c.side && MakesWorkdir(job))) && job.typ != Apply {
      TemplateIsNoErrand(job, Advance(s, job, Start, c));
    }
  }

  // Whatever a move does, the runner's errand stays the same.
  lemma MoveKeepsErrand(s: Shared, job: Job, stage: Stage, c: Choice)
    ensures var m := Advance(s, job, stage, c); m.runner.Busy? ==> SameErrand(job, m.runner.job)
  {
    hide StartApply, StartDestroyPlan, StartPlan, PutJob, PutEnvironment, AppendAudit, CasHolds;
    if stage.Start? {
      StartStarts(s, job, c);
    }
  }

  lemma StartLooks(s: Shared, job: Job, c: Choice)
    requires RowsOk(s) && RunnerOk(s, Busy(job, Start)) && Clean(job.spec)
    ensures Looks(s, job, Advance(s, job, Start, c))
  {
    hide HolderOk, RowsOk, Clean, StartApply, StartPlan, StartDestroyPlan;
    GivenUpHolder(s, job, job.template, OutsideFailure(c.text));
    if c.ok || (c.side && MakesWorkdir(job)) {
      if job.typ == Apply {
        StartApplyLooks(s, job);
      } else if job.operation == Destroy {
        StartDestroyPlanLooks(s, job);
      } else {
        StartPlanLooks(s, job, c);
      }
    }
  }

  lemma InitLooks(s: Shared, job: Job, c: Choice)
    requires RunnerOk(s, Busy(job, Init))
    ensures Looks(s, job, Advance(s, job, Init, c))
  {
  }

  lemma RunApplyLooks(s: Shared, job: Job, c: Choice)
    requires RunnerOk(s, Busy(job, RunApply))
    ensures Looks(s, job, Advance(s, job, RunApply, c))
  {
  }

  // At the end of a job the environment row still names it: no result is ever ignored.
  lemma HolderIsNamed(s: Shared, job: Job, next: Environment -> Stage)
    requires RowsOk(s) && OnlyLastUnsettled(s)
    requires job.id in s.db.jobs && s.db.jobs[job.id].env == job.env && job.id !in s.settled
    ensures LoadEnvironment(s, job, next) ==
            if job.env == NONE then Move(s, Idle) else Move(s, Busy(job, next(s.db.envs[job.env])))
    ensures job.env != NONE ==> job.env in s.db.envs
  {
    if job.env != NONE {
      HeldJobIsLast(s, job.id);
    }
  }

  lemma ReportSuccessLooks(s: Shared, job: Job, c: Choice)
    requires RowsOk(s) && OnlyLastUnsettled(s) && RunnerOk(s, Busy(job, ReportSuccess))
    ensures Looks(s, job, Advance(s, job, ReportSuccess, c))
  {
    hide RowsOk, OnlyLastUnsettled;
    HolderIsNamed(s, job, env => CommitSuccess(env));
  }

  lemma ReportFailureLooks(s: Shared, job: Job, message: Failure, c: Choice)
    requires RowsOk(s) && OnlyLastUnsettled(s) && RunnerOk(s, Busy(job, ReportFailure(message)))
    ensures Looks(s, job, Advance(s, job, ReportFailure(message), c))
  {
    hide RowsOk, OnlyLastUnsettled;
    HolderIsNamed(s, job, env => CommitFailure(message, env));
  }

  // ---------- Moves that write the job row ----------

  lemma SavesRowOnly(s: Shared, job: Job, saved: Job, s': Shared)
    requires MaySave(s, saved) && saved.id == job.id
    requires s' == s.(db := PutJob(s.db, saved))
    ensures NoNewSpec(s, s') && Monotone(s, s') && Confined(s, s', job)
  {
    assert s.db.jobs[job.id].spec == saved.spec;
  }

  lemma SavesRow(s: Shared, job: Job, saved: Job, s': Shared)
    requires SharedOk(s) && MaySave(s, saved) && saved.id == job.id
    requires s' == s.(db := PutJob(s.db, saved))
    ensures SharedOk(s') && NoNewSpec(s, s') && Monotone(s, s') && Confined(s, s', job)
  {
    SaveKeepsShared(s, s', saved);
    SavesRowOnly(s, job, saved, s');
  }

  lemma HolderMaySave(s: Shared, job: Job, stage: Stage)
    requires RowsOk(s) && HolderOk(s, job, stage)
    requires stage == SaveWorkdir || stage == SavePlanPath || stage == SaveApply || stage == SaveDone
    ensures MaySave(s, job)
  {
    hide EnvOk, SourceOk;
    assert JobOk(s, s.db.jobs[job.id]);
  }

  lemma SaveMove(s: Shared, job: Job, stage: Stage, c: Choice)
    requires RowsOk(s) && RunnerOk(s, Busy(job, stage))
    requires stage == SaveWorkdir || stage == SavePlanPath || stage == SaveApply || stage == SaveDone
    requires !CannotSave(s, job, stage, c)
    ensures MaySave(s, job)
    ensures var m := Advance(s, job, stage, c);
            m.shared == s.(db := PutJob(s.db, job)) && m.runner.Busy? && m.runner.job == job && RunnerOk(m.shared, m.runner)
  {
    hide MaySave, RowsOk, StartApply, StartPlan, StartDestroyPlan, LoadEnvironment, UpdateFromJob;
    HolderMaySave(s, job, stage);
    SourceKept(s, job);
  }

  lemma CannotSaveLooks(s: Shared, job: Job, c: Choice)
    requires RunnerOk(s, Busy(job, SaveWorkdir)) && CannotSave(s, job, SaveWorkdir, c)
    ensures Looks(s, job, Advance(s, job, SaveWorkdir, c))
  {
    hide StartApply, StartPlan, StartDestroyPlan, LoadEnvironment, UpdateFromJob;
  }

  // A runner's write, or its giving up when the write fails.
  lemma SaveIsGood(s: Shared, job: Job, stage: Stage, c: Choice)
    requires MayMove(s, job, stage)
    requires stage == SaveWorkdir || stage == SavePlanPath || stage == SaveApply || stage == SaveDone
    ensures GoodMove(s, job, Advance(s, job, stage, c))
    ensures Confined(s, Advance(s, job, stage, c).shared, job)
  {
    hide RowsOk, OnlyLastUnsettled, SettledOk, ApprovalsOk, AppliesOk, HolderOk, Monotone, Confined, NoNewSpec,
         MaySave, Clean, Advance;
    if CannotSave(s, job, stage, c) {
      CannotSaveLooks(s, job, c);
      SameStoreIsGood(s, job);
    } else {
      SaveMove(s, job, stage, c);
      SavesRow(s, job, job, Advance(s, job, stage, c).shared);
    }
  }

  // An apply job's source is another row.
  lemma SourceKept(s: Shared, job: Job)
    requires RowsOk(s) && job.id in s.db.jobs && SameJob(job, s.db.jobs[job.id])
    ensures job.typ == Apply ==> job.source != job.id
  {
    hide EnvOk;
    assert JobOk(s, s.db.jobs[job.id]);
  }

  lemma SaveFailureMove(s: Shared, job: Job, message: Failure, c: Choice)
    requires RowsOk(s) && RunnerOk(s, Busy(job, SaveFailure(message)))
    ensures MaySave(s, job.(status := Broken, error := message))
    ensures var m := Advance(s, job, SaveFailure(message), c);
            && (m.shared == s || m.shared == s.(db := PutJob(s.db, job.(status := Broken, error := message))))
            && m.runner.Busy? && m.runner.job.id == job.id && RunnerOk(m.shared, m.runner)
  {
    hide EnvOk, StartApply, StartPlan, StartDestroyPlan, LoadEnvironment, UpdateFromJob;
    assert JobOk(s, s.db.jobs[job.id]);
  }

  // ---------- Running tofu plan ----------

  lemma RunPlanMove(s: Shared, job: Job, c: Choice)
    requires RunnerOk(s, Busy(job, RunPlan))
    ensures MayWritePlan(s, job)
    ensures var m := Advance(s, job, RunPlan, c);
            && (m.shared == s || m.shared == s.(plans := s.plans[job.workdir := job.id]))
            && m.runner.Busy? && m.runner.job.id == job.id && RunnerOk(m.shared, m.runner)
  {
  }

  lemma WritesPlanOnly(s: Shared, job: Job, s': Shared)
    requires MayWritePlan(s, job)
    requires s' == s.(plans := s.plans[job.workdir := job.id])
    ensures NoNewSpec(s, s') && Monotone(s, s') && Confined(s, s', job)
  {
  }

  lemma WritesPlan(s: Shared, job: Job, s': Shared)
    requires SharedOk(s) && MayWritePlan(s, job)
    requires s' == s.(plans := s.plans[job.workdir := job.id])
    ensures SharedOk(s') && NoNewSpec(s, s') && Monotone(s, s') && Confined(s, s', job)
  {
    WriteKeepsShared(s, s', job);
    WritesPlanOnly(s, job, s');
  }

  // ---------- Updating the environment ----------

  // The environment row is the one that was read: the compare-and-set cannot fail.
  lemma CommitSuccessMove(s: Shared, job: Job, env: Environment, c: Choice)
    requires RowsOk(s) && OnlyLastUnsettled(s) && RunnerOk(s, Busy(job, CommitSuccess(env)))
    ensures MaySettle(s, AfterSuccess(env, job), job)
    ensures env.id in s.db.envs && s.db.envs[env.id] == env && job.id !in s.settled
    ensures var m := Advance(s, job, CommitSuccess(env), c);
            && Settles(s, m.shared, AfterSuccess(env, job), job)
            && m.runner == Busy(job, Auditing(RunnerEvent(job, JobSucceeded(job.id))))
  {
    hide StartApply, StartPlan, StartDestroyPlan, LoadEnvironment, ArtifactOk, SourceOk;
    assert JobOk(s, s.db.jobs[job.id]);
    assert EnvOk(s, s.db.envs[job.env]);
    HeldJobIsLast(s, job.id);
  }

  lemma CommitFailureMove(s: Shared, job: Job, message: Failure, env: Environment, c: Choice)
    requires RowsOk(s) && OnlyLastUnsettled(s) && RunnerOk(s, Busy(job, CommitFailure(message, env)))
    ensures MaySettle(s, AfterFailure(env, job, message), job)
    ensures env.id in s.db.envs && s.db.envs[env.id] == env && job.id !in s.settled
    ensures var m := Advance(s, job, CommitFailure(message, env), c);
            && Settles(s, m.shared, AfterFailure(env, job, message), job)
            && m.runner == Busy(job, Auditing(RunnerEvent(job, JobFailed(job.id, message))))
  {
    hide StartApply, StartPlan, StartDestroyPlan, LoadEnvironment, ArtifactOk, SourceOk;
    assert JobOk(s, s.db.jobs[job.id]);
    assert EnvOk(s, s.db.envs[job.env]);
    HeldJobIsLast(s, job.id);
  }

  lemma SettlesEnvOnly(s: Shared, job: Job, env: Environment, s': Shared)
    requires MaySettle(s, env, job) && Settles(s, s', env, job)
    requires env.revision > s.db.envs[env.id].revision && job.id !in s.settled
    ensures NoNewSpec(s, s') && Monotone(s, s') && Confined(s, s', job)
  {
    assert s.db.envs[env.id].spec == env.spec;
  }

  lemma SettlesEnv(s: Shared, job: Job, env: Environment, s': Shared)
    requires SharedOk(s) && MaySettle(s, env, job) && Settles(s, s', env, job)
    requires env.revision > s.db.envs[env.id].revision && job.id !in s.settled
    ensures SharedOk(s') && NoNewSpec(s, s') && Monotone(s, s') && Confined(s, s', job)
  {
    SettleKeepsShared(s, s', env, job);
    SettlesEnvOnly(s, job, env, s');
  }

  // ---------- All moves ----------

  lemma AuditMove(s: Shared, job: Job, event: AuditEvent)
    requires SharedOk(s) && ReportsOutcome(event)
    ensures var s' := s.(db := AppendAudit(s.db, event));
            SharedOk(s') && NoNewSpec(s, s') && Monotone(s, s') && Confined(s, s', job)
  {
    hide SharedOk;
    AuditKeepsShared(s, s.(db := AppendAudit(s.db, event)), event);
  }

  lemma MonotoneReflexive(s: Shared)
    ensures Monotone(s, s)
  {
  }

  lemma SameStoreIsGood(s: Shared, job: Job)
    ensures NoNewSpec(s, s) && Monotone(s, s) && Confined(s, s, job)
  {
  }

  lemma MoveIsGood(s: Shared, job: Job, stage: Stage, c: Choice)
    requires MayMove(s, job, stage)
    ensures GoodMove(s, job, Advance(s, job, stage, c))
    ensures Confined(s, Advance(s, job, stage, c).shared, job)
  {
    hide RowsOk, OnlyLastUnsettled, SettledOk, ApprovalsOk, AppliesOk, HolderOk, Monotone, Confined, NoNewSpec,
         MaySave, MaySettle, Clean, StartApply, StartPlan, StartDestroyPlan, LoadEnvironment, UpdateFromJob;
    var m := Advance(s, job, stage, c);
    SameStoreIsGood(s, job);
    match stage
    case Start => StartLooks(s, job, c);
    case Init => InitLooks(s, job, c);
    case RunApply => RunApplyLooks(s, job, c);
    case ReportSuccess => ReportSuccessLooks(s, job, c);
    case ReportFailure(message) => ReportFailureLooks(s, job, message, c);
    case SaveWorkdir => SaveIsGood(s, job, stage, c);
    case SavePlanPath => SaveIsGood(s, job, stage, c);
    case SaveApply => SaveIsGood(s, job, stage, c);
    case SaveDone => SaveIsGood(s, job, stage, c);
    case SaveFailure(message) =>
      SaveFailureMove(s, job, message, c);
      var failed := job.(status := Broken, error := message);
      SavesRow(s, job, failed, s.(db := PutJob(s.db, failed)));
    case RunPlan => RunPlanMove(s, job, c); WritesPlan(s, job, s.(plans := s.plans[job.workdir := job.id]));
    case CommitSuccess(env) => CommitSuccessMove(s, job, env, c); SettlesEnv(s, job, AfterSuccess(env, job), m.shared);
    case CommitFailure(message, env) =>
      CommitFailureMove(s, job, message, env, c);
      SettlesEnv(s, job, AfterFailure(env, job, message), m.shared);
    case Auditing(event) => AuditMove(s, job, event);
  }
}
