/** The runner's job loop as the program it is: one pass over a claimed job, which fails fast and
    reports to the environment at the end. It takes exactly the moves of the runner machine. */
module RunnerProgram {
  import opened Domain
  import opened Validation
  import opened Store
  import opened RunnerLoop
  import opened Protocol
  import opened Refinement

  // The outcome of each external action of one pass.
  datatype Outcomes = Outcomes(prepare: Choice, persist: Choice, init: Choice, plan: Choice, apply: Choice, failure: Choice)

  function ChoiceAt(o: Outcomes, stage: Stage): Choice {
    match stage
    case Start => o.prepare
    case SaveWorkdir => o.persist
    case Init => o.init
    case RunPlan => o.plan
    case RunApply => o.apply
    case _ => o.failure
  }

  // Every move leads to a lower stage.
  function Rank(stage: Stage): nat {
    match stage
    case Start => 9
    case SaveWorkdir => 8
    case SaveApply => 8
    case Init => 7
    case RunApply => 7
    case SavePlanPath => 6
    case RunPlan => 5
    case SaveDone => 4
    case SaveFailure(_) => 3
    case ReportSuccess => 2
    case ReportFailure(_) => 2
    case CommitSuccess(_) => 1
    case CommitFailure(_, _) => 1
    case Auditing(_) => 0
  }

  lemma MovesDescend(s: Shared, job: Job, stage: Stage, c: Choice)
    ensures var m := Advance(s, job, stage, c); m.runner.Busy? ==> Rank(m.runner.stage) < Rank(stage)
  {
    hide Validate, Normalize;
  }

  /** The shared state when a runner at the given stage has run to the end of its job undisturbed. */
  function Finish(s: Shared, job: Job, stage: Stage, o: Outcomes): Shared
    decreases Rank(stage)
  {
    MovesDescend(s, job, stage, ChoiceAt(o, stage));
    var m := Advance(s, job, stage, ChoiceAt(o, stage));
    if m.runner.Busy? then Finish(m.shared, m.runner.job, m.runner.stage, o) else m.shared
  }

  /** Running to the end is a sequence of runner moves of the system. */
  lemma {:induction false} FinishIsReached(w: World, r: nat, o: Outcomes) returns (w': World)
    requires Reachable(w) && r in w.runners && w.runners[r].Busy?
    ensures Reachable(w') && w'.shared == Finish(w.shared, w.runners[r].job, w.runners[r].stage, o)
    ensures r in w'.runners && w'.runners[r] == Idle && w'.requests == w.requests
    decreases Rank(w.runners[r].stage)
  {
    var job, stage := w.runners[r].job, w.runners[r].stage;
    var c := ChoiceAt(o, stage);
    MovesDescend(w.shared, job, stage, c);
    RunnerCanMove(w, r, c);
    var m := Advance(w.shared, job, stage, c);
    assert Finish(w.shared, job, stage, o) ==
           if m.runner.Busy? then Finish(m.shared, m.runner.job, m.runner.stage, o) else m.shared;
    hide *;
    ReachableStep(w, RunnerMove(r, c));
    w' := Exec(w, RunnerMove(r, c));
    if m.runner.Busy? {
      w' := FinishIsReached(w', r, o);
    }
  }

  lemma RunnerCanMove(w: World, r: nat, c: Choice)
    requires r in w.runners && w.runners[r].Busy?
    ensures Enabled(w, RunnerMove(r, c))
    ensures var m := Advance(w.shared, w.runners[r].job, w.runners[r].stage, c);
            var w' := Exec(w, RunnerMove(r, c));
            w'.shared == m.shared && r in w'.runners && w'.runners[r] == m.runner && w'.requests == w.requests
  {
    hide Advance;
  }

  class RunnerProcess {
    const db: Database
    var plans: map<Id, Id>          // which job last wrote the plan file of each workdir
    ghost var settled: set<Id>

    constructor (db: Database, plans: map<Id, Id>)
      ensures this.db == db && this.plans == plans && settled == {}
    {
      this.db, this.plans, settled := db, plans, {};
    }

    ghost function State(): Shared
      reads this, db
    {
      Shared(db.Contents(), plans, settled)
    }

    method ProcessJob(claimed: Job, o: Outcomes)
      modifies this, db
      ensures State() == Finish(old(State()), claimed, Start, o)
    {
      hide Validate, Normalize;
      ghost var goal := Finish(State(), claimed, Start, o);
      var job := claimed;
      if !o.prepare.ok && !(o.prepare.side && job.typ != Apply && job.operation != Destroy) {
        FailJob(job, OutsideFailure(o.prepare.text), o);
        return;
      }
      if job.typ == Apply {
        ProcessApply(job, o);
        return;
      }
      if job.template == "" { job := job.(template := "basic"); }
      if job.operation == Destroy {
        if job.env == NONE { FailJob(job, DestroyWithoutEnvironment, o); return; }
        var env := db.GetEnvironment(job.env);
        if env.None? { FailJob(job, EnvironmentNotLoaded, o); return; }
        if env.value.workdir == NONE { FailJob(job, NoAppliedWorkdir, o); return; }
        job := job.(workdir := env.value.workdir);
      } else {
        job := job.(spec := Normalize(job.spec));
        var error := ValidateEnvironmentSpec(job.spec);
        if error.Some? { FailJob(job, SpecRefused, o); return; }
        if !o.prepare.ok { FailJob(job, OutsideFailure(o.prepare.text), o); return; }
        job := job.(workdir := job.id);
      }
      job := job.(error := NoFailure);
      assert goal == Finish(State(), job, SaveWorkdir, o);
      RunPlanJob(job, o);
    }

    // From the first store write of a plan job on.
    method RunPlanJob(prepared: Job, o: Outcomes)
      modifies this, db
      ensures State() == Finish(old(State()), prepared, SaveWorkdir, o)
    {
      hide StartApply, StartPlan, StartDestroyPlan;
      ghost var goal := Finish(State(), prepared, SaveWorkdir, o);
      var job := prepared;
      var saved := false;
      if o.persist.ok || job.operation != Destroy {
        saved := db.UpdateJob(job);
      }
      if !saved {
        if job.operation == Destroy { FailJob(job, MetadataNotSaved, o); }
        return;
      }
      assert goal == Finish(State(), job, Init, o);
      if !o.init.ok { FailJob(job, OutsideFailure(o.init.text), o); return; }
      job := job.(planPath := PlanBin);
      assert goal == Finish(State(), job, SavePlanPath, o);
      saved := db.UpdateJob(job);
      if !saved { return; }
      assert goal == Finish(State(), job, RunPlan, o);
      if o.plan.ok || o.plan.side { plans := plans[job.workdir := job.id]; }
      if !o.plan.ok { FailJob(job, OutsideFailure(o.plan.text), o); return; }
      job := job.(status := Done, error := NoFailure);
      assert goal == Finish(State(), job, SaveDone, o);
      saved := db.UpdateJob(job);
      if !saved { return; }
      assert goal == Finish(State(), job, ReportSuccess, o);
      RecordEnvironmentSuccess(job, o);
    }

    method ProcessApply(claimed: Job, o: Outcomes)
      requires claimed.typ == Apply && o.prepare.ok
      modifies this, db
      ensures State() == Finish(old(State()), claimed, Start, o)
    {
      hide StartPlan, StartDestroyPlan;
      ghost var goal := Finish(State(), claimed, Start, o);
      var job := claimed;
      if job.source == NONE { FailJob(job, ApplyWithoutSource, o); return; }
      var src := db.GetJob(job.source);
      if src.None? { FailJob(job, SourceNotLoaded, o); return; }
      if src.value.typ != Plan || src.value.status != Done { FailJob(job, SourceNotDonePlan, o); return; }
      if src.value.workdir == NONE || src.value.planPath == NoPlan { FailJob(job, SourceWithoutArtifact, o); return; }
      job := job.(workdir := src.value.workdir);
      job := job.(planPath := src.value.planPath);
      job := job.(template := src.value.template);
      job := job.(error := NoFailure);
      assert goal == Finish(State(), job, SaveApply, o);
      RunApplyJob(job, o);
    }

    // From the first store write of an apply job on.
    method RunApplyJob(prepared: Job, o: Outcomes)
      modifies this, db
      ensures State() == Finish(old(State()), prepared, SaveApply, o)
    {
      hide StartApply, StartPlan, StartDestroyPlan;
      ghost var goal := Finish(State(), prepared, SaveApply, o);
      var job := prepared;
      var saved := db.UpdateJob(job);
      if !saved { return; }
      assert goal == Finish(State(), job, RunApply, o);
      if job.workdir !in plans { FailJob(job, PlanFileMissing, o); return; }
      if !o.apply.ok { FailJob(job, OutsideFailure(o.apply.text), o); return; }
      if job.operation != Destroy {
        if o.apply.side { job := job.(outputs := o.apply.text); }
      }
      job := job.(status := Done, error := NoFailure);
      assert goal == Finish(State(), job, SaveDone, o);
      saved := db.UpdateJob(job);
      if !saved { return; }
      assert goal == Finish(State(), job, ReportSuccess, o);
      RecordEnvironmentSuccess(job, o);
    }

    // The field assignments of recordRunnerEnvironmentSuccess.
    method TakeResult(before: Environment, job: Job) returns (env: Environment)
      ensures env == AfterSuccess(before, job)
    {
      env := before;
      env := env.(lastJob := job.id);
      env := env.(lastError := NoFailure);
      env := env.(workdir := job.workdir);
      env := env.(planPath := job.planPath);
      env := env.(outputs := job.outputs);
      env := env.(revision := env.revision + 1);
      match job.typ {
        case Plan =>
          env := env.(lastPlanJob := job.id);
          env := env.(status := PendingApproval);
          env := env.(approval := Pending);
        case Apply =>
          env := env.(lastApplyJob := job.id);
          if job.operation == Destroy { env := env.(status := Destroyed); } else { env := env.(status := Active); }
        case EnvironmentCreate =>
      }
    }

    method RecordEnvironmentSuccess(job: Job, o: Outcomes)
      modifies this, db
      ensures State() == Finish(old(State()), job, ReportSuccess, o)
    {
      hide StartApply, StartPlan, StartDestroyPlan, SaveJob, ChoiceAt, Rank, AfterFailure;
      ghost var goal := Finish(State(), job, ReportSuccess, o);
      if job.env == NONE { return; }
      var loaded := db.GetEnvironment(job.env);
      if loaded.None? { return; }
      var env := loaded.value;
      if env.lastJob != NONE && env.lastJob != job.id {
        assert goal == Finish(State(), job, Auditing(RunnerEvent(job, JobIgnored(job.id))), o);
        db.CreateAuditEvent(AuditEvent(job.env, NONE, JobIgnored(job.id)));
        return;
      }
      assert goal == Finish(State(), job, CommitSuccess(env), o);
      env := TakeResult(env, job);
      var ok := db.UpdateEnvironment(env);
      if ok {
        settled := settled + {job.id};
        assert goal == Finish(State(), job, Auditing(RunnerEvent(job, JobSucceeded(job.id))), o);
        db.CreateAuditEvent(AuditEvent(job.env, NONE, JobSucceeded(job.id)));
      } else {
        assert goal == Finish(State(), job, Auditing(RunnerEvent(job, JobConflict(job.id))), o);
        db.CreateAuditEvent(AuditEvent(job.env, NONE, JobConflict(job.id)));
      }
    }

    method FailJob(before: Job, message: Failure, o: Outcomes)
      modifies this, db
      ensures State() == Finish(old(State()), before, SaveFailure(message), o)
    {
      hide StartApply, StartPlan, StartDestroyPlan;
      ghost var goal := Finish(State(), before, SaveFailure(message), o);
      var job := before.(status := Broken);
      job := job.(error := message);
      if !o.failure.side {
        var _ := db.UpdateJob(job);
      }
      assert goal == Finish(State(), job, ReportFailure(message), o);
      RecordEnvironmentFailure(job, message, o);
    }

    // The field assignments of failJob.
    method TakeFailure(before: Environment, job: Job, message: Failure) returns (env: Environment)
      ensures env == AfterFailure(before, job, message)
    {
      env := before.(status := Failed);
      env := env.(lastError := message);
      env := env.(lastJob := job.id);
      env := env.(revision := env.revision + 1);
    }

    // The rest of failJob.
    method RecordEnvironmentFailure(job: Job, message: Failure, o: Outcomes)
      modifies this, db
      ensures State() == Finish(old(State()), job, ReportFailure(message), o)
    {
      hide StartApply, StartPlan, StartDestroyPlan, SaveJob, ChoiceAt, Rank, AfterSuccess, AfterFailure;
      ghost var goal := Finish(State(), job, ReportFailure(message), o);
      if job.env == NONE { return; }
      var loaded := db.GetEnvironment(job.env);
      if loaded.None? { return; }
      var env := loaded.value;
      if env.lastJob != NONE && env.lastJob != job.id {
        assert goal == Finish(State(), job, Auditing(RunnerEvent(job, JobIgnored(job.id))), o);
        db.CreateAuditEvent(AuditEvent(job.env, NONE, JobIgnored(job.id)));
        return;
      }
      assert goal == Finish(State(), job, CommitFailure(message, env), o);
      env := TakeFailure(env, job, message);
      var ok := db.UpdateEnvironment(env);
      if ok {
        settled := settled + {job.id};
        assert goal == Finish(State(), job, Auditing(RunnerEvent(job, JobFailed(job.id, message))), o);
        db.CreateAuditEvent(AuditEvent(job.env, NONE, JobFailed(job.id, message)));
      } else {
        assert goal == Finish(State(), job, Auditing(RunnerEvent(job, JobConflict(job.id))), o);
        db.CreateAuditEvent(AuditEvent(job.env, NONE, JobConflict(job.id)));
      }
    }
  }
}
