/** The approval gate can always be passed, and a runner that does not stop always brings its job to
    an end, whatever everybody else does. */
module Progress {
  import opened Wrappers
  import opened Domain
  import opened Validation
  import opened Store
  import opened Handlers
  import opened RunnerLoop
  import opened Protocol
  import opened Safety
  import opened Preservation
  import opened Guarantees
  import opened Refinement
  import opened RunnerSteps
  import opened RunnerProgram
  import opened Effects

  // One request carried out without interruption, its job identifier drawn fresh.
  lemma RequestAtOnce(w: World, k: nat, rq: Handlers.Request, id: Id, now: nat) returns (w': World)
    requires Reachable(w) && k !in w.requests && rq.env in w.shared.db.envs && Fresh(w, id)
    requires DecideNow(w.shared, rq, id, now).Commit?
    ensures Reachable(w') && k !in w'.requests && w'.runners == w.runners
    ensures var d := DecideNow(w.shared, rq, id, now);
            w'.shared.db == Bundle(w.shared.db, d.env, d.job, d.event)
  {
    hide *;
    UninterruptedRequest(w, k, rq, id, now);
    var w1 := Exec(w, ReadEnv(k, rq));
    var w2 := Exec(w1, ReadJob(k));
    ReachableStep(w, ReadEnv(k, rq));
    ReachableStep(w1, ReadJob(k));
    ReachableStep(w2, CommitRequest(k, id, now));
    w' := Exec(w2, CommitRequest(k, id, now));
    RequestIsOver(w2, k, id, now);
    RowsAreRead(w, k, rq);
  }

  lemma RequestIsOver(w: World, k: nat, id: Id, now: nat)
    requires Enabled(w, CommitRequest(k, id, now))
    ensures var w' := Exec(w, CommitRequest(k, id, now)); k !in w'.requests && w'.runners == w.runners
  {
    hide Decide, Bundle;
  }

  lemma RowsAreRead(w: World, k: nat, rq: Handlers.Request)
    requires Enabled(w, ReadEnv(k, rq)) && Enabled(Exec(w, ReadEnv(k, rq)), ReadJob(k))
    ensures Exec(Exec(w, ReadEnv(k, rq)), ReadJob(k)).runners == w.runners
  {
  }

  lemma ApprovalLeads(s: Shared, rq: Handlers.Request, id: Id, now: nat)
    requires rq.env in s.db.envs && s.db.envs[rq.env].id == rq.env && rq.body.ApproveBody?
    requires DecideNow(s, rq, id, now).Commit?
    ensures var d := DecideNow(s, rq, id, now);
            var db := Bundle(s.db, d.env, d.job, d.event);
            && db.envs.Keys == s.db.envs.Keys && db.jobs == s.db.jobs
            && db.envs[rq.env].status == Approved && db.envs[rq.env].operation == s.db.envs[rq.env].operation
            && db.envs[rq.env].lastPlanJob == s.db.envs[rq.env].lastPlanJob
  {
  }

  lemma ApplyLeads(s: Shared, rq: Handlers.Request, id: Id, now: nat)
    requires rq.env in s.db.envs && s.db.envs[rq.env].id == rq.env && rq.body.ApplyBody?
    requires s.db.envs[rq.env].lastPlanJob in s.db.jobs
    requires s.db.jobs[s.db.envs[rq.env].lastPlanJob].id == s.db.envs[rq.env].lastPlanJob
    requires DecideNow(s, rq, id, now).Commit?
    ensures var d := DecideNow(s, rq, id, now);
            var db := Bundle(s.db, d.env, d.job, d.event);
            && rq.env in db.envs && db.envs[rq.env].status == Applying && db.envs[rq.env].lastJob == id
            && id in db.jobs && db.jobs[id].status == JobStatus.Queued && db.jobs[id].typ == Apply
            && db.jobs[id].source == s.db.envs[rq.env].lastPlanJob
  {
    hide Validate, Normalize;
  }

  lemma PlanRowStored(w: World, e: Id)
    requires Inv(w) && e in w.shared.db.envs
    requires w.shared.db.envs[e].status == PendingApproval || w.shared.db.envs[e].status == Approved
    ensures var env := w.shared.db.envs[e];
            env.id == e && env.lastPlanJob in w.shared.db.jobs && w.shared.db.jobs[env.lastPlanJob].id == env.lastPlanJob
  {
    StoredFacts(w, e);
    hide Inv, Clean, ArtifactOk, JobOk;
  }

  /** From every reachable state in which a plan waits for approval, for a known operation, an admin's
      approve and apply requests, carried out one after the other, lead to a reachable state in which
      an apply job of that very plan is queued. */
  lemma GateOpens(w: World, e: Id, admin: User, k: nat, id: Id, now: nat) returns (w': World)
    requires Reachable(w) && e in w.shared.db.envs && admin.isAdmin && k !in w.requests && Fresh(w, id)
    requires w.shared.db.envs[e].status == PendingApproval && !w.shared.db.envs[e].operation.Other?
    ensures Reachable(w')
    ensures var db := w'.shared.db;
            && e in db.envs && db.envs[e].status == Applying && db.envs[e].lastJob == id
            && id in db.jobs && db.jobs[id].status == JobStatus.Queued && db.jobs[id].typ == Apply
            && db.jobs[id].source == w.shared.db.envs[e].lastPlanJob
  {
    hide Reachable, Inv, Bundle, DecideNow;
    ReachableInv(w);
    PlanRowStored(w, e);
    var approve := Handlers.Request(e, admin, None, ApproveBody(""));
    ApproveAcceptedWhen(w, approve, id, now);
    ApprovalLeads(w.shared, approve, id, now);
    var w1 := RequestAtOnce(w, k, approve, id, now);
    ReachableInv(w1);
    PlanRowStored(w1, e);
    var apply := Handlers.Request(e, admin, None, ApplyBody);
    ApplyAcceptedWhen(w1, apply, id, now);
    ApplyLeads(w1.shared, apply, id, now);
    w' := RequestAtOnce(w1, k, apply, id, now);
  }

  // ---------- Runners ----------

  // Until it reports, a runner whose row exists goes on holding its job.
  lemma WorkingGoesOn(s: Shared, job: Job, stage: Stage, c: Choice)
    requires job.id in s.db.jobs && !Reporting(Busy(job, stage)) && !Committing(Busy(job, stage)) && !stage.Auditing?
    ensures var m := Advance(s, job, stage, c);
            m.runner.Busy? && m.runner.job.id == job.id && m.runner.job.env == job.env && !m.runner.stage.Auditing?
  {
    hide StartApply, StartPlan, StartDestroyPlan, LoadEnvironment, UpdateFromJob, PutJob;
    if stage.Start? {
      StartStarts(s, job, c);
    }
  }

  // A move of a runner that holds an environment job keeps hold of it or settles it.
  lemma MoveHoldsOrSettles(s: Shared, job: Job, stage: Stage, c: Choice)
    requires RowsOk(s) && OnlyLastUnsettled(s) && HolderOk(s, job, stage) && !stage.Auditing? && job.env != NONE
    ensures var m := Advance(s, job, stage, c);
            && m.runner.Busy? && m.runner.job.id == job.id && m.runner.job.env == job.env
            && (m.runner.stage.Auditing? ==> job.id in m.shared.settled)
  {
    hide RowsOk, OnlyLastUnsettled, HolderOk, Advance;
    HolderIsHere(s, job, stage);
    if stage.CommitSuccess? {
      CommitSuccessMove(s, job, stage.env, c);
    } else if stage.CommitFailure? {
      CommitFailureMove(s, job, stage.message, stage.env, c);
    } else if Reporting(Busy(job, stage)) {
      ReportingLoadsOnly(s, Busy(job, stage), c);
    } else {
      WorkingGoesOn(s, job, stage, c);
    }
  }

  lemma HolderIsHere(s: Shared, job: Job, stage: Stage)
    requires HolderOk(s, job, stage)
    ensures job.id in s.db.jobs && s.db.jobs[job.id].env == job.env && job.id !in s.settled
  {
    hide AtStage;
  }

  lemma HoldsMeans(w: World, r: nat)
    requires Inv(w) && Holds(w, r)
    ensures RowsOk(w.shared) && OnlyLastUnsettled(w.shared)
    ensures HolderOk(w.shared, w.runners[r].job, w.runners[r].stage) && !w.runners[r].stage.Auditing?
  {
    hide RowsOk, OnlyLastUnsettled, SettledOk, ApprovalsOk, AppliesOk, SpecsOk, RequestsOk, HolderOk;
    assert RunnerOk(w.shared, w.runners[r]);
  }

  /** Every move of a runner that holds an environment job either brings it closer to its end, still
      holding the job, or settles the job, after which its environment is no longer busy with it. */
  lemma RunnerProgresses(w: World, r: nat, c: Choice)
    requires Reachable(w) && Holds(w, r) && w.runners[r].job.env != NONE
    ensures Enabled(w, RunnerMove(r, c))
    ensures var w' := Exec(w, RunnerMove(r, c));
            var job := w.runners[r].job;
            || (Holds(w', r) && w'.runners[r].job.id == job.id && w'.runners[r].job.env == job.env
                && Rank(w'.runners[r].stage) < Rank(w.runners[r].stage))
            || (job.id in w'.shared.settled && job.env in w'.shared.db.envs
                && (w'.shared.db.envs[job.env].lastJob == job.id ==> !IsEnvironmentBusy(w'.shared.db.envs[job.env].status)))
  {
    hide Reachable, Inv, Enabled, Exec, HolderOk, RowsOk, OnlyLastUnsettled, Advance, Rank;
    ReachableInv(w);
    HoldsMeans(w, r);
    var job, stage := w.runners[r].job, w.runners[r].stage;
    MoveHoldsOrSettles(w.shared, job, stage, c);
    MovesDescend(w.shared, job, stage, c);
    RunnerCanMove(w, r, c);
    var w' := Exec(w, RunnerMove(r, c));
    ReachableStep(w, RunnerMove(r, c));
    HolderIsHere(w.shared, job, stage);
    HeldJobIsLast(w.shared, job.id);
    EnvironmentKept(w, RunnerMove(r, c), job.env);
    if job.id in w'.shared.settled {
      SettledIsIdle(w', job.id);
    }
  }

  lemma SettledIsIdle(w: World, j: Id)
    requires Reachable(w) && j in w.shared.settled
    ensures forall e :: e in w.shared.db.envs && w.shared.db.envs[e].lastJob == j ==> !IsEnvironmentBusy(w.shared.db.envs[e].status)
  {
    hide Reachable;
    forall e | e in w.shared.db.envs && w.shared.db.envs[e].lastJob == j ensures !IsEnvironmentBusy(w.shared.db.envs[e].status) {
      OneJobInFlight(w, e);
    }
  }

  lemma EnvironmentKept(w: World, step: Step, e: Id)
    requires Inv(w) && Enabled(w, step) && e in w.shared.db.envs
    ensures e in Exec(w, step).shared.db.envs
  {
    hide Inv, Enabled, Exec, Explains, Allowed, After;
    var x := StepEffect(w, step);
    StepAllowed(w, step, x);
    EffectIsMonotone(w.shared, x);
  }

  /** Nobody but the runner itself, and its crash, changes what a busy runner is doing. */
  lemma NobodyHindersARunner(w: World, step: Step, r: nat)
    requires Enabled(w, step) && r in w.runners && w.runners[r].Busy?
    requires step != Crash(r) && !(step.RunnerMove? && step.runner == r)
    ensures r in Exec(w, step).runners && Exec(w, step).runners[r] == w.runners[r]
  {
    hide CreateDecision, Decide, LegacyJob, DerivedJob, Bundle, Advance;
  }

  // ---------- Over a run ----------

  function MovesOf(steps: seq<Step>, r: nat): nat {
    if steps == [] then 0
    else
      var last := steps[|steps| - 1];
      MovesOf(steps[..|steps| - 1], r) + (if last.RunnerMove? && last.runner == r then 1 else 0)
  }

  lemma MovesOfLast(steps: seq<Step>, i: nat, n: nat, r: nat)
    requires i < n <= |steps|
    ensures MovesOf(steps[i..n], r) ==
            MovesOf(steps[i..n - 1], r) + (if steps[n - 1].RunnerMove? && steps[n - 1].runner == r then 1 else 0)
  {
    assert steps[i..n][..n - i - 1] == steps[i..n - 1];
  }

  // The runner has settled the job, or is still at it with this much left of its rank.
  ghost predicate SettledOrCloser(w: World, r: nat, job: Job, rank: int) {
    || job.id in w.shared.settled
    || (Holds(w, r) && w.runners[r].job.id == job.id && w.runners[r].job.env == job.env
        && Rank(w.runners[r].stage) <= rank)
  }

  lemma SettledStays(s: Shared, x: Effect)
    ensures s.settled <= After(s, x).settled
  {
  }

  lemma StepBringsCloser(w: World, step: Step, r: nat, job: Job, rank: int)
    requires Reachable(w) && Enabled(w, step) && step != Crash(r) && job.env != NONE
    requires SettledOrCloser(w, r, job, rank)
    ensures SettledOrCloser(Exec(w, step), r, job, rank - if step.RunnerMove? && step.runner == r then 1 else 0)
  {
    hide Reachable, Enabled, Exec, Rank;
    if job.id in w.shared.settled {
      ReachableInv(w);
      hide Inv, Explains, Allowed, After;
      var x := StepEffect(w, step);
      StepAllowed(w, step, x);
      SettledStays(w.shared, x);
    } else if step.RunnerMove? && step.runner == r {
      RunnerProgresses(w, r, step.choice);
    } else {
      NobodyHindersARunner(w, step, r);
    }
  }

  lemma {:induction false} RunBringsCloser(run: seq<World>, steps: seq<Step>, i: nat, n: nat, r: nat)
    requires IsTrace(run, steps) && i <= n <= |steps|
    requires Holds(run[i], r) && run[i].runners[r].job.env != NONE
    requires forall m :: i <= m < n ==> steps[m] != Crash(r)
    ensures SettledOrCloser(run[n], r, run[i].runners[r].job, Rank(run[i].runners[r].stage) - MovesOf(steps[i..n], r))
  {
    hide *;
    TraceLength(run, steps);
    HeldIsThere(run[i], r);
    if i == n {
      NoMovesYet(run[i], steps, i, r);
    } else {
      RunBringsCloser(run, steps, i, n - 1, r);
      TraceStep(run, steps, n - 1);
      TraceReaches(run, steps, n - 1);
      MovesOfLast(steps, i, n, r);
      StepBringsCloser(run[n - 1], steps[n - 1], r, run[i].runners[r].job,
                       Rank(run[i].runners[r].stage) - MovesOf(steps[i..n - 1], r));
    }
  }

  lemma NoMovesYet(w: World, steps: seq<Step>, i: nat, r: nat)
    requires Holds(w, r) && i <= |steps|
    ensures SettledOrCloser(w, r, w.runners[r].job, Rank(w.runners[r].stage) - MovesOf(steps[i..i], r))
  {
    assert steps[i..i] == [];
  }

  lemma HeldIsThere(w: World, r: nat)
    requires Holds(w, r)
    ensures r in w.runners && w.runners[r].Busy?
  {
  }

  lemma TraceReaches(run: seq<World>, steps: seq<Step>, n: nat)
    requires IsTrace(run, steps) && n < |run|
    ensures Reachable(run[n])
  {
    TraceIsRun(run, steps);
    hide Enabled, Exec, IsTrace, Next;
    var prefix := run[..n + 1];
    assert IsRun(prefix) && prefix[|prefix| - 1] == run[n];
  }

  /** In any run, whatever everybody else does in between, a runner that makes nine moves without
      stopping has settled the environment job it held, and its environment is not busy with it. */
  lemma NineMovesSettle(run: seq<World>, steps: seq<Step>, i: nat, n: nat, r: nat)
    requires IsTrace(run, steps) && i <= n <= |steps|
    requires Holds(run[i], r) && run[i].runners[r].job.env != NONE
    requires forall m :: i <= m < n ==> steps[m] != Crash(r)
    requires MovesOf(steps[i..n], r) >= 9
    ensures var job := run[i].runners[r].job; var s := run[n].shared;
            && job.id in s.settled
            && forall e :: e in s.db.envs && s.db.envs[e].lastJob == job.id ==> !IsEnvironmentBusy(s.db.envs[e].status)
  {
    hide IsTrace, MovesOf, Reachable;
    TraceLength(run, steps);
    RunBringsCloser(run, steps, i, n, r);
    TraceReaches(run, steps, n);
    SettledIsIdle(run[n], run[i].runners[r].job.id);
  }
}
