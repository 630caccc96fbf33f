/** What one pass of the runner over a job leaves behind, in every table, for every outcome of the
    commands it runs. */
module Passes {
  import opened Domain
  import opened Validation
  import opened Store
  import opened RunnerLoop
  import opened Protocol
  import opened Safety
  import opened RunnerSteps
  import opened Preservation
  import opened Guarantees
  import opened RunnerProgram

  // ---------- What a job taken up in a reachable state can rely on ----------

  predicate CanApply(s: Shared, source: Id) {
    && source != NONE && source in s.db.jobs
    && var src := s.db.jobs[source];
       src.typ == Plan && src.status == Done && src.workdir != NONE && src.planPath == PlanBin && src.workdir in s.plans
  }

  // The environment a job belongs to, if any, is stored and names the job.
  predicate Expected(s: Shared, job: Job) {
    && job.id in s.db.jobs
    && (job.env != NONE ==> job.env in s.db.envs && s.db.envs[job.env].id == job.env && s.db.envs[job.env].lastJob == job.id)
  }

  predicate Ready(s: Shared, job: Job) {
    && Expected(s, job) && s.db.jobs[job.id] == job && job.status == Running
    && Normalize(job.spec) == job.spec && Validate(job.spec).None?
    && (job.typ == Apply ==> CanApply(s, job.source) && job.source != job.id)
    && (job.typ != Apply && job.operation == Destroy ==> job.env != NONE)
  }

  lemma TakenUpIsReady(w: World, r: nat)
    requires Reachable(w) && r in w.runners && w.runners[r].Busy? && w.runners[r].stage == Start
    ensures Ready(w.shared, w.runners[r].job)
  {
    hide Reachable, OnlyLastUnsettled, SettledOk, ApprovalsOk, AppliesOk, RequestsOk, StatusOk, Normalize, Validate;
    ReachableInv(w);
    var s, job := w.shared, w.runners[r].job;
    assert RunnerOk(s, w.runners[r]);
    assert StoredSpec(s, job.spec);
    assert JobOk(s, job);
    if job.env != NONE {
      HeldJobIsLast(s, job.id);
      assert EnvOk(s, s.db.envs[job.env]);
    }
    if job.typ == Apply {
      assert JobOk(s, s.db.jobs[job.source]);
    }
  }

  // ---------- What goes wrong, and what is left ----------

  // The first thing that goes wrong, if anything does.
  function Trouble(s: Shared, job: Job, o: Outcomes): Failure
    requires Ready(s, job)
  {
    if !o.prepare.ok then OutsideFailure(o.prepare.text)
    else if job.typ == Apply then
      if o.apply.ok then NoFailure else OutsideFailure(o.apply.text)
    else if job.operation == Destroy && s.db.envs[job.env].workdir == NONE then NoAppliedWorkdir
    else if job.operation == Destroy && !o.persist.ok then MetadataNotSaved
    else if !o.init.ok then OutsideFailure(o.init.text)
    else if !o.plan.ok then OutsideFailure(o.plan.text)
    else NoFailure
  }

  // How far the pass came before that.
  datatype Progress = Refused | NotPersisted | Persisted | Planned

  function Came(s: Shared, job: Job, o: Outcomes): Progress
    requires Ready(s, job)
  {
    if !o.prepare.ok then Refused
    else if job.typ == Apply then Planned
    else if job.operation == Destroy && s.db.envs[job.env].workdir == NONE then Refused
    else if job.operation == Destroy && !o.persist.ok then NotPersisted
    else if !o.init.ok then Persisted
    else Planned
  }

  // Where the job runs: an apply where its plan was made, a destroy plan where the environment lives,
  // any other plan in a directory of its own.
  function WorkdirOf(s: Shared, job: Job): Id
    requires Ready(s, job)
  {
    if job.typ == Apply then s.db.jobs[job.source].workdir
    else if job.operation == Destroy then s.db.envs[job.env].workdir
    else job.id
  }

  function TemplateOf(s: Shared, job: Job): string
    requires Ready(s, job)
  {
    if job.typ == Apply then s.db.jobs[job.source].template
    else if job.template == "" then "basic"
    else job.template
  }

  // The job row as the pass has made it when its commands have run.
  function Made(s: Shared, job: Job, o: Outcomes): Job
    requires Ready(s, job)
  {
    match Came(s, job, o)
    case Refused =>
      // a missing provider is noticed before the template is chosen
      if job.typ == Apply || (!o.prepare.ok && (job.operation == Destroy || !o.prepare.side)) then job
      else job.(template := TemplateOf(s, job))
    case Planned => job.(template := TemplateOf(s, job), workdir := WorkdirOf(s, job), planPath := PlanBin, error := NoFailure)
    case _ => job.(template := TemplateOf(s, job), workdir := WorkdirOf(s, job), error := NoFailure)
  }

  // An apply that is not a destroy takes over the outputs of the apply command, if they could be read.
  function OutputsOf(job: Job, o: Outcomes): string {
    if job.typ == Apply && job.operation != Destroy && o.apply.side then o.apply.text else job.outputs
  }

  // The final job row. A job that succeeds is done; one that fails says why, unless that write is lost.
  function FinalJob(s: Shared, job: Job, o: Outcomes): Job
    requires Ready(s, job)
  {
    var made, trouble := Made(s, job, o), Trouble(s, job, o);
    if trouble == NoFailure then made.(status := Done, error := NoFailure, outputs := OutputsOf(job, o))
    else if !o.failure.side then made.(status := Broken, error := trouble)
    else if Came(s, job, o) == Refused || Came(s, job, o) == NotPersisted then job
    else made
  }

  // The final environment row.
  function FinalEnvironment(s: Shared, job: Job, o: Outcomes): Environment
    requires Ready(s, job) && job.env != NONE
  {
    var env, trouble := s.db.envs[job.env], Trouble(s, job, o);
    if trouble == NoFailure then Shown(env, FinalJob(s, job, o)) else Told(env, trouble)
  }

  // What an environment shows of a job that succeeded.
  function Shown(env: Environment, job: Job): Environment {
    var shown := env.(lastError := NoFailure, workdir := job.workdir, planPath := job.planPath, outputs := job.outputs,
                      revision := env.revision + 1);
    match job.typ
    case Plan => shown.(status := PendingApproval, approval := Pending, lastPlanJob := job.id)
    case Apply => shown.(status := if job.operation == Destroy then Destroyed else Active, lastApplyJob := job.id)
    case EnvironmentCreate => shown
  }

  // What it shows of one that failed.
  function Told(env: Environment, message: Failure): Environment {
    env.(status := Failed, lastError := message, revision := env.revision + 1)
  }

  // Plan commands that succeed write the plan file; those that fail may.
  predicate WritesPlan(s: Shared, job: Job, o: Outcomes)
    requires Ready(s, job)
  {
    job.typ != Apply && Came(s, job, o) == Planned && (o.plan.ok || o.plan.side)
  }

  ghost predicate Leaves(s: Shared, job: Job, o: Outcomes, s': Shared)
    requires Ready(s, job)
  {
    var action := if Trouble(s, job, o) == NoFailure then JobSucceeded(job.id) else JobFailed(job.id, Trouble(s, job, o));
    && s'.db.jobs == s.db.jobs[job.id := FinalJob(s, job, o)]
    && s'.db.envs == (if job.env == NONE then s.db.envs else s.db.envs[job.env := FinalEnvironment(s, job, o)])
    && s'.db.audit == (if job.env == NONE then s.db.audit else s.db.audit + [AuditEvent(job.env, NONE, action)])
    && s'.plans == (if WritesPlan(s, job, o) then s.plans[WorkdirOf(s, job) := job.id] else s.plans)
    && s'.settled == (if job.env == NONE then s.settled else s.settled + {job.id})
  }

  // ---------- Reporting ----------

  function Reported(s: Shared, env: Environment, job: Job, action: Action): Shared {
    Shared(AppendAudit(PutEnvironment(s.db, env), RunnerEvent(job, action)), s.plans, s.settled + {job.id})
  }

  lemma ReportsSuccess(s: Shared, job: Job, o: Outcomes)
    requires Expected(s, job)
    ensures Finish(s, job, ReportSuccess, o) ==
            if job.env == NONE then s
            else Reported(s, AfterSuccess(s.db.envs[job.env], job), job, JobSucceeded(job.id))
  {
    hide StartApply, StartPlan, StartDestroyPlan, SaveJob;
    if job.env != NONE {
      var env := s.db.envs[job.env];
      var event := RunnerEvent(job, JobSucceeded(job.id));
      var s' := Shared(PutEnvironment(s.db, AfterSuccess(env, job)), s.plans, s.settled + {job.id});
      assert Finish(s, job, ReportSuccess, o) == Finish(s, job, CommitSuccess(env), o);
      assert Finish(s, job, CommitSuccess(env), o) == Finish(s', job, Auditing(event), o);
    }
  }

  lemma ReportsFailure(s: Shared, job: Job, message: Failure, o: Outcomes)
    requires Expected(s, job)
    ensures Finish(s, job, ReportFailure(message), o) ==
            if job.env == NONE then s
            else Reported(s, AfterFailure(s.db.envs[job.env], job, message), job, JobFailed(job.id, message))
  {
    hide StartApply, StartPlan, StartDestroyPlan, SaveJob;
    if job.env != NONE {
      var env := s.db.envs[job.env];
      var event := RunnerEvent(job, JobFailed(job.id, message));
      var s' := Shared(PutEnvironment(s.db, AfterFailure(env, job, message)), s.plans, s.settled + {job.id});
      assert Finish(s, job, ReportFailure(message), o) == Finish(s, job, CommitFailure(message, env), o);
      assert Finish(s, job, CommitFailure(message, env), o) == Finish(s', job, Auditing(event), o);
    }
  }

  // The end of a pass, with the rows written out.
  ghost predicate Ends(s: Shared, job: Job, row: Job, s': Shared)
    requires job.env != NONE ==> job.env in s.db.envs
  {
    && s'.db.jobs == s.db.jobs[job.id := row]
    && s'.plans == s.plans
    && (job.env == NONE ==> s'.db.envs == s.db.envs && s'.db.audit == s.db.audit && s'.settled == s.settled)
    && (job.env != NONE ==> s'.settled == s.settled + {job.id})
  }

  lemma FailsFrom(s: Shared, job: Job, message: Failure, o: Outcomes)
    requires Expected(s, job)
    ensures var s' := Finish(s, job, SaveFailure(message), o);
            && Ends(s, job, if o.failure.side then s.db.jobs[job.id] else job.(status := Broken, error := message), s')
            && (job.env != NONE ==>
                  && s'.db.envs == s.db.envs[job.env := Told(s.db.envs[job.env], message)]
                  && s'.db.audit == s.db.audit + [AuditEvent(job.env, NONE, JobFailed(job.id, message))])
  {
    hide StartApply, StartPlan, StartDestroyPlan, SaveJob, LoadEnvironment;
    var failed := job.(status := Broken, error := message);
    var saved := if o.failure.side then s else s.(db := PutJob(s.db, failed));
    assert Finish(s, job, SaveFailure(message), o) == Finish(saved, failed, ReportFailure(message), o);
    hide Finish;
    ReportsFailure(saved, failed, message, o);
    assert s.db.jobs == s.db.jobs[job.id := s.db.jobs[job.id]];
  }

  lemma SucceedsFrom(s: Shared, job: Job, o: Outcomes)
    requires Expected(s, job)
    ensures var s' := Finish(s, job, SaveDone, o);
            && Ends(s, job, job, s')
            && (job.env != NONE ==>
                  && s'.db.envs == s.db.envs[job.env := Shown(s.db.envs[job.env], job)]
                  && s'.db.audit == s.db.audit + [AuditEvent(job.env, NONE, JobSucceeded(job.id))])
  {
    hide StartApply, StartPlan, StartDestroyPlan, LoadEnvironment;
    var saved := s.(db := PutJob(s.db, job));
    assert Finish(s, job, SaveDone, o) == Finish(saved, job, ReportSuccess, o);
    hide Finish;
    ReportsSuccess(saved, job, o);
  }

  // ---------- The way there ----------

  function WithRow(s: Shared, job: Job): Shared {
    s.(db := s.db.(jobs := s.db.jobs[job.id := job]))
  }

  lemma PlanNotPersisted(s: Shared, job: Job, o: Outcomes)
    requires Expected(s, job) && job.operation == Destroy && !o.persist.ok
    ensures Finish(s, job, SaveWorkdir, o) == Finish(s, job, SaveFailure(MetadataNotSaved), o)
  {
    hide StartApply, StartPlan, StartDestroyPlan, LoadEnvironment;
  }

  lemma PlanPersisted(s: Shared, job: Job, o: Outcomes)
    requires Expected(s, job) && (job.operation == Destroy ==> o.persist.ok)
    ensures !o.init.ok ==>
              Finish(s, job, SaveWorkdir, o) == Finish(WithRow(s, job), job, SaveFailure(OutsideFailure(o.init.text)), o)
    ensures o.init.ok ==>
              var planned := job.(planPath := PlanBin);
              Finish(s, job, SaveWorkdir, o) == Finish(WithRow(s, planned), planned, RunPlan, o)
  {
    hide StartApply, StartPlan, StartDestroyPlan, LoadEnvironment;
    var s1 := WithRow(s, job);
    assert Finish(s, job, SaveWorkdir, o) == Finish(s1, job, Init, o);
    if o.init.ok {
      var planned := job.(planPath := PlanBin);
      assert Finish(s1, job, Init, o) == Finish(s1, planned, SavePlanPath, o);
      assert WithRow(s1, planned) == WithRow(s, planned);
      assert Finish(s1, planned, SavePlanPath, o) == Finish(WithRow(s, planned), planned, RunPlan, o);
    }
  }

  lemma PlanRuns(s: Shared, job: Job, o: Outcomes)
    ensures var written := s.(plans := s.plans[job.workdir := job.id]);
            Finish(s, job, RunPlan, o) ==
            if o.plan.ok then Finish(written, job.(status := Done, error := NoFailure), SaveDone, o)
            else Finish(if o.plan.side then written else s, job, SaveFailure(OutsideFailure(o.plan.text)), o)
  {
    hide StartApply, StartPlan, StartDestroyPlan, LoadEnvironment;
  }

  lemma ApplyRuns(s: Shared, job: Job, o: Outcomes)
    requires Expected(s, job) && job.workdir in s.plans && job.typ == Apply
    ensures Finish(s, job, SaveApply, o) ==
            if o.apply.ok
            then Finish(WithRow(s, job), job.(status := Done, error := NoFailure, outputs := OutputsOf(job, o)), SaveDone, o)
            else Finish(WithRow(s, job), job, SaveFailure(OutsideFailure(o.apply.text)), o)
  {
    hide StartApply, StartPlan, StartDestroyPlan, LoadEnvironment;
    assert Finish(s, job, SaveApply, o) == Finish(WithRow(s, job), job, RunApply, o);
  }

  // The job row a pass that gets so far writes first.
  function Prepared(s: Shared, job: Job): Job
    requires Ready(s, job)
  {
    job.(template := TemplateOf(s, job), workdir := WorkdirOf(s, job), error := NoFailure)
  }

  lemma Starts(s: Shared, job: Job, o: Outcomes)
    requires Ready(s, job)
    ensures Came(s, job, o) == Refused ==>
              Finish(s, job, Start, o) == Finish(s, Made(s, job, o), SaveFailure(Trouble(s, job, o)), o)
    ensures Came(s, job, o) != Refused ==>
              Finish(s, job, Start, o) ==
              if job.typ == Apply then Finish(s, Prepared(s, job).(planPath := PlanBin), SaveApply, o)
              else Finish(s, Prepared(s, job), SaveWorkdir, o)
  {
    hide Validate, Normalize, LoadEnvironment, SaveJob;
  }

  // ---------- All of it ----------

  lemma RefusedLeaves(s: Shared, job: Job, o: Outcomes)
    requires Ready(s, job) && Came(s, job, o) == Refused
    ensures Leaves(s, job, o, Finish(s, job, Start, o))
  {
    hide Finish, Normalize, Validate;
    Starts(s, job, o);
    FailsFrom(s, Made(s, job, o), Trouble(s, job, o), o);
  }

  lemma ApplyLeaves(s: Shared, job: Job, o: Outcomes)
    requires Ready(s, job) && Came(s, job, o) != Refused && job.typ == Apply
    ensures Leaves(s, job, o, Finish(s, job, Start, o))
  {
    hide Finish, Normalize, Validate;
    Starts(s, job, o);
    var prepared := Prepared(s, job).(planPath := PlanBin);
    ApplyRuns(s, prepared, o);
    if o.apply.ok {
      SucceedsFrom(WithRow(s, prepared), prepared.(status := Done, error := NoFailure, outputs := OutputsOf(job, o)), o);
    } else {
      FailsFrom(WithRow(s, prepared), prepared, OutsideFailure(o.apply.text), o);
    }
  }

  lemma PlanLeaves(s: Shared, job: Job, o: Outcomes)
    requires Ready(s, job) && Came(s, job, o) != Refused && job.typ != Apply
    ensures Leaves(s, job, o, Finish(s, job, Start, o))
  {
    hide Finish, Normalize, Validate;
    Starts(s, job, o);
    var prepared := Prepared(s, job);
    if job.operation == Destroy && !o.persist.ok {
      PlanNotPersisted(s, prepared, o);
      FailsFrom(s, prepared, MetadataNotSaved, o);
    } else {
      PlanPersisted(s, prepared, o);
      if !o.init.ok {
        FailsFrom(WithRow(s, prepared), prepared, OutsideFailure(o.init.text), o);
      } else {
        PlannedLeaves(s, job, o);
      }
    }
  }

  lemma PlannedLeaves(s: Shared, job: Job, o: Outcomes)
    requires Ready(s, job) && Came(s, job, o) == Planned && job.typ != Apply
    requires var planned := Prepared(s, job).(planPath := PlanBin);
             Finish(s, job, Start, o) == Finish(WithRow(s, planned), planned, RunPlan, o)
    ensures Leaves(s, job, o, Finish(s, job, Start, o))
  {
    hide Finish, Normalize, Validate;
    var planned := Prepared(s, job).(planPath := PlanBin);
    var s1 := WithRow(s, planned);
    PlanRuns(s1, planned, o);
    var s2 := if o.plan.ok || o.plan.side then s1.(plans := s.plans[planned.workdir := job.id]) else s1;
    if o.plan.ok {
      SucceedsFrom(s2, planned.(status := Done, error := NoFailure), o);
    } else {
      FailsFrom(s2, planned, OutsideFailure(o.plan.text), o);
    }
  }

  /** One pass over a job, from its claim in any reachable state to its end, undisturbed, leaves the job
      row, the environment row, the plan file and the audit row that the outcomes of the commands call
      for: the row says done or says the first thing that went wrong; the environment shows the
      workdir, the plan path and the outputs of a success; a failure touches its status and error only. */
  lemma PassLeaves(w: World, r: nat, o: Outcomes)
    requires Reachable(w) && r in w.runners && w.runners[r].Busy? && w.runners[r].stage == Start
    ensures Ready(w.shared, w.runners[r].job)
    ensures Leaves(w.shared, w.runners[r].job, o, Finish(w.shared, w.runners[r].job, Start, o))
  {
    hide Reachable, Finish, Leaves, Ready, Came;
    TakenUpIsReady(w, r);
    var s, job := w.shared, w.runners[r].job;
    if Came(s, job, o) == Refused {
      RefusedLeaves(s, job, o);
    } else if job.typ == Apply {
      ApplyLeaves(s, job, o);
    } else {
      PlanLeaves(s, job, o);
    }
  }

  // ---------- Outputs ----------

  lemma AtRunApply(w: World, r: nat)
    requires Reachable(w) && r in w.runners && w.runners[r].Busy? && w.runners[r].stage == RunApply
    ensures var job := w.runners[r].job; Expected(w.shared, job) && job.workdir in w.shared.plans && job.typ == Apply
  {
    hide Reachable, SettledOk, ApprovalsOk, AppliesOk, SpecsOk, RequestsOk, StatusOk;
    ApplyRunsItsPlan(w, r);
    ReachableInv(w);
    var s, job := w.shared, w.runners[r].job;
    assert RunnerOk(s, w.runners[r]);
    assert JobOk(s, s.db.jobs[job.id]);
    if job.env != NONE {
      HeldJobIsLast(s, job.id);
      assert EnvOk(s, s.db.envs[job.env]);
    }
  }

  /** An apply command that succeeds and yields a text: the job row and the environment row end with
      that text, unless the apply is a destroy or the text could not be read; then they end with what
      the job had. */
  lemma OutputsAreStored(w: World, r: nat, o: Outcomes)
    requires Reachable(w) && r in w.runners && w.runners[r].Busy? && w.runners[r].stage == RunApply
    requires w.runners[r].job.env != NONE && o.apply.ok
    ensures var job := w.runners[r].job;
            var db := Finish(w.shared, job, RunApply, o).db;
            && job.id in db.jobs && job.env in db.envs
            && db.jobs[job.id].status == Done && db.jobs[job.id].outputs == db.envs[job.env].outputs
            && db.envs[job.env].outputs == if job.operation != Destroy && o.apply.side then o.apply.text else job.outputs
  {
    hide Reachable;
    AtRunApply(w, r);
    var s, job := w.shared, w.runners[r].job;
    var done := job.(status := Done, error := NoFailure, outputs := OutputsOf(job, o));
    ApplySucceeds(s, job, o);
    hide Finish;
    SucceedsFrom(s, done, o);
  }

  lemma ApplySucceeds(s: Shared, job: Job, o: Outcomes)
    requires job.workdir in s.plans && job.typ == Apply && o.apply.ok
    ensures Finish(s, job, RunApply, o) ==
            Finish(s, job.(status := Done, error := NoFailure, outputs := OutputsOf(job, o)), SaveDone, o)
  {
    hide StartApply, StartPlan, StartDestroyPlan, LoadEnvironment;
  }

  // ---------- Checks that no reachable state needs ----------

  // Why a job cannot be started, from the rows alone.
  function StartTrouble(s: Shared, job: Job): Failure {
    if job.typ == Apply then
      if job.source == NONE then ApplyWithoutSource
      else if job.source !in s.db.jobs then SourceNotLoaded
      else
        var src := s.db.jobs[job.source];
        if !(src.typ == Plan && src.status == Done) then SourceNotDonePlan
        else if src.workdir == NONE || src.planPath == NoPlan then SourceWithoutArtifact
        else if src.workdir !in s.plans then PlanFileMissing
        else NoFailure
    else if job.operation == Destroy then
      if job.env == NONE then DestroyWithoutEnvironment
      else if job.env !in s.db.envs then EnvironmentNotLoaded
      else if s.db.envs[job.env].workdir == NONE then NoAppliedWorkdir
      else NoFailure
    else if Validate(Normalize(job.spec)).Some? then SpecRefused
    else NoFailure
  }

  lemma StartChecks(s: Shared, job: Job, o: Outcomes) returns (held: Job)
    requires o.prepare.ok && job.id in s.db.jobs && StartTrouble(s, job) != NoFailure && StartTrouble(s, job) != PlanFileMissing
    ensures held.id == job.id && Finish(s, job, Start, o) == Finish(s, held, SaveFailure(StartTrouble(s, job)), o)
  {
    hide Validate, Normalize, LoadEnvironment, SaveJob;
    var m := Advance(s, job, Start, ChoiceAt(o, Start));
    assert m.shared == s && m.runner.Busy? && m.runner.stage == SaveFailure(StartTrouble(s, job));
    held := m.runner.job;
    assert Finish(s, job, Start, o) == Finish(s, held, m.runner.stage, o);
  }

  lemma MissingFileChecks(s: Shared, job: Job, o: Outcomes) returns (s': Shared, held: Job)
    requires o.prepare.ok && job.id in s.db.jobs && StartTrouble(s, job) == PlanFileMissing
    ensures held.id == job.id && job.id in s'.db.jobs
    ensures Finish(s, job, Start, o) == Finish(s', held, SaveFailure(PlanFileMissing), o)
  {
    hide Validate, Normalize, LoadEnvironment;
    var src := s.db.jobs[job.source];
    held := job.(workdir := src.workdir, planPath := src.planPath, template := src.template, error := NoFailure);
    s' := s.(db := PutJob(s.db, held));
    assert Finish(s, job, Start, o) == Finish(s, held, SaveApply, o);
    assert Finish(s, held, SaveApply, o) == Finish(s', held, RunApply, o);
    assert Finish(s', held, RunApply, o) == Finish(s', held, SaveFailure(PlanFileMissing), o);
  }

  lemma FailureIsStored(s: Shared, job: Job, message: Failure, o: Outcomes)
    requires job.id in s.db.jobs && !o.failure.side
    ensures var db := Finish(s, job, SaveFailure(message), o).db;
            job.id in db.jobs && db.jobs[job.id].status == Broken && db.jobs[job.id].error == message
  {
    hide StartApply, StartPlan, StartDestroyPlan, SaveJob;
    var failed := job.(status := Broken, error := message);
    var saved := s.(db := PutJob(s.db, failed));
    assert Finish(s, job, SaveFailure(message), o) == Finish(saved, failed, ReportFailure(message), o);
    ReportsLeaveJobs(saved, failed, message, o);
  }

  lemma ReportsLeaveJobs(s: Shared, job: Job, message: Failure, o: Outcomes)
    ensures Finish(s, job, ReportFailure(message), o).db.jobs == s.db.jobs
  {
    hide StartApply, StartPlan, StartDestroyPlan, SaveJob, AfterSuccess, AfterFailure;
    forall env ensures Finish(s, job, CommitFailure(message, env), o).db.jobs == s.db.jobs {
      var m := Advance(s, job, CommitFailure(message, env), ChoiceAt(o, CommitFailure(message, env)));
      assert Finish(s, job, CommitFailure(message, env), o) == Finish(m.shared, job, m.runner.stage, o);
    }
  }

  /** On any rows at all, reachable or not: a job that cannot be started is failed for the first reason
      that applies, and the row says so. */
  lemma UnfitJobsAreFailed(s: Shared, job: Job, o: Outcomes)
    requires o.prepare.ok && !o.failure.side && job.id in s.db.jobs && StartTrouble(s, job) != NoFailure
    ensures var db := Finish(s, job, Start, o).db;
            job.id in db.jobs && db.jobs[job.id].status == Broken && db.jobs[job.id].error == StartTrouble(s, job)
  {
    hide Finish, StartTrouble;
    if StartTrouble(s, job) == PlanFileMissing {
      var s', held := MissingFileChecks(s, job, o);
      FailureIsStored(s', held, PlanFileMissing, o);
    } else {
      var held := StartChecks(s, job, o);
      FailureIsStored(s, held, StartTrouble(s, job), o);
    }
  }

  predicate IsReport(stage: Stage) {
    stage.ReportSuccess? || stage.ReportFailure?
  }

  predicate IsCommit(stage: Stage) {
    stage.CommitSuccess? || stage.CommitFailure?
  }

  /** On any rows at all: a result for an environment that has gone on to another job is ignored, one
      that loses the compare-and-set is dropped; either leaves an audit row that says so and nothing
      else. */
  lemma LateResultsAreDropped(s: Shared, job: Job, stage: Stage, o: Outcomes)
    requires job.env in s.db.envs && job.env != NONE && (IsReport(stage) || IsCommit(stage))
    ensures IsReport(stage) && s.db.envs[job.env].lastJob != NONE && s.db.envs[job.env].lastJob != job.id ==>
              Finish(s, job, stage, o) == s.(db := s.db.(audit := s.db.audit + [AuditEvent(job.env, NONE, JobIgnored(job.id))]))
    ensures IsCommit(stage) && stage.env.id in s.db.envs && stage.env.revision != s.db.envs[stage.env.id].revision ==>
              Finish(s, job, stage, o) == s.(db := s.db.(audit := s.db.audit + [AuditEvent(job.env, NONE, JobConflict(job.id))]))
  {
    hide StartApply, StartPlan, StartDestroyPlan, SaveJob;
    var m := Advance(s, job, stage, ChoiceAt(o, stage));
    assert m.runner.Busy? ==> Finish(s, job, stage, o) == Finish(m.shared, m.runner.job, m.runner.stage, o);
  }
}
