/** The split handlers and runners refine atomic ones: every run of the real system is, up to steps
    that change nothing, a run in which each request reads, decides and commits at once and each
    runner reports its result at once. Conversely every atomic state is reached by the real system. */
module Refinement {
  import opened Domain
  import opened Validation
  import opened Store
  import opened Handlers
  import opened RunnerLoop
  import opened Protocol
  import opened Safety
  import opened RunnerSteps
  import opened Preservation
  import opened Effects
  import opened Guarantees

  // ---------- The atomic system ----------

  datatype AtomicWorld = AtomicWorld(shared: Shared, legacy: map<nat, LegacyPending>, runners: map<nat, Runner>)

  datatype AtomicStep =
    | Plain(step: Step)                        // a step that is atomic already
    | Handle(rq: Handlers.Request, job: Id, now: nat)   // a whole request: read, decide, commit
    | Conclude(runner: nat)                    // a runner loads and updates its environment

  const ATOMIC_EMPTY := AtomicWorld(EMPTY_WORLD.shared, map[], map[])

  // The same state with no request in flight.
  function Embed(a: AtomicWorld): World {
    World(a.shared, map[], a.legacy, a.runners)
  }

  function Strip(w: World): AtomicWorld {
    AtomicWorld(w.shared, w.legacy, w.runners)
  }

  predicate Reporting(runner: Runner) {
    runner.Busy? && (runner.stage.ReportSuccess? || runner.stage.ReportFailure?)
  }

  predicate Committing(runner: Runner) {
    runner.Busy? && (runner.stage.CommitSuccess? || runner.stage.CommitFailure?)
  }

  // The end of a job: no result is ignored and none loses a race.
  function ConcludeJob(s: Shared, runner: Runner): Move
    requires Reporting(runner) && (runner.job.env == NONE || runner.job.env in s.db.envs)
  {
    var job := runner.job;
    if job.env == NONE then Move(s, Idle)
    else
      var env := s.db.envs[job.env];
      var env' := if runner.stage.ReportSuccess? then AfterSuccess(env, job) else AfterFailure(env, job, runner.stage.message);
      var action := if runner.stage.ReportSuccess? then JobSucceeded(job.id) else JobFailed(job.id, runner.stage.message);
      Move(Shared(PutEnvironment(s.db, env'), s.plans, s.settled + {job.id}), Busy(job, Auditing(RunnerEvent(job, action))))
  }

  ghost predicate AtomicEnabled(a: AtomicWorld, x: AtomicStep) {
    match x
    case Plain(step) =>
      && !step.ReadEnv? && !step.ReadJob? && !step.CommitRequest? && Enabled(Embed(a), step)
      && (step.RunnerMove? ==> !Reporting(a.runners[step.runner]))
    case Handle(rq, job, _) => rq.env in a.shared.db.envs && Fresh(Embed(a), job)
    case Conclude(r) =>
      && r in a.runners && Reporting(a.runners[r])
      && (a.runners[r].job.env == NONE || a.runners[r].job.env in a.shared.db.envs)
  }

  ghost function AtomicExec(a: AtomicWorld, x: AtomicStep): AtomicWorld
    requires AtomicEnabled(a, x)
  {
    match x
    case Plain(step) => Strip(Exec(Embed(a), step))
    case Handle(rq, job, now) => Strip(CommitDecision(Embed(a), DecideNow(a.shared, rq, job, now)))
    case Conclude(r) =>
      var m := ConcludeJob(a.shared, a.runners[r]);
      a.(shared := m.shared, runners := a.runners[r := m.runner])
  }

  ghost predicate AtomicNext(a: AtomicWorld, a': AtomicWorld) {
    exists x :: AtomicEnabled(a, x) && a' == AtomicExec(a, x)
  }

  ghost predicate IsAtomicRun(run: seq<AtomicWorld>) {
    && |run| > 0 && run[0] == ATOMIC_EMPTY
    && forall i :: 0 <= i < |run| - 1 ==> AtomicNext(run[i], run[i + 1])
  }

  ghost predicate AtomicReachable(a: AtomicWorld) {
    exists run :: IsAtomicRun(run) && run[|run| - 1] == a
  }

  // ---------- The abstraction ----------

  // A runner that has loaded its environment has, atomically seen, not begun to report.
  function ProjectRunner(runner: Runner): Runner {
    match runner
    case Busy(job, CommitSuccess(_)) => Busy(job, ReportSuccess)
    case Busy(job, CommitFailure(message, _)) => Busy(job, ReportFailure(message))
    case _ => runner
  }

  // Forgets the requests in flight and the rows runners have loaded.
  function Project(w: World): AtomicWorld {
    AtomicWorld(w.shared, w.legacy, map r | r in w.runners :: ProjectRunner(w.runners[r]))
  }

  // What a step of the real system is in the atomic one: a step, or nothing.
  ghost predicate Simulated(a: AtomicWorld, a': AtomicWorld) {
    a' == a || AtomicNext(a, a')
  }

  lemma Simulates(a: AtomicWorld, x: AtomicStep, a': AtomicWorld)
    requires AtomicEnabled(a, x) && a' == AtomicExec(a, x)
    ensures Simulated(a, a')
  {
    hide AtomicEnabled, AtomicExec;
  }

  // ---------- Requests ----------

  lemma HandleSimulates(w: World, k: nat, id: Id, now: nat)
    requires k in w.requests && w.requests[k].RowsRead? && Fresh(w, id) && SnapshotOk(w.shared, w.requests[k])
    ensures Simulated(Project(w), Project(Exec(w, CommitRequest(k, id, now))))
  {
    hide Decide, Bundle, IsOldestQueued, Simulated;
    var p := w.requests[k];
    var d := Decide(p.env, p.job, p.rq, id, now);
    var w' := Exec(w, CommitRequest(k, id, now));
    if d.Commit? && CasHolds(w.shared.db, d.env) {
      RowsStillCurrent(w.shared, p, id, now);
      assert d == DecideNow(w.shared, p.rq, id, now);
      Simulates(Project(w), Handle(p.rq, id, now), Project(w'));
    } else {
      Unchanged(Project(w));
      assert Project(w') == Project(w);
    }
  }

  lemma Unchanged(a: AtomicWorld)
    ensures Simulated(a, a)
  {
    hide AtomicNext;
  }

  // ---------- Steps that are atomic already ----------

  lemma CreateSimulates(w: World, step: Step)
    requires Enabled(w, step) && step.CreateEnv?
    ensures Simulated(Project(w), Project(Exec(w, step)))
  {
    hide CreateDecision, Bundle, Simulated;
    Simulates(Project(w), Plain(step), Project(Exec(w, step)));
  }

  lemma LegacySimulates(w: World, step: Step)
    requires Enabled(w, step) && (step.CreateLegacy? || step.ReadLegacy? || step.CommitLegacy?)
    ensures Simulated(Project(w), Project(Exec(w, step)))
  {
    hide LegacyJob, DerivedJob, PutJob, Simulated;
    Simulates(Project(w), Plain(step), Project(Exec(w, step)));
  }

  lemma ProjectSetsRunner(w: World, r: nat, runner: Runner)
    ensures Project(SetRunner(w, r, runner)) == Project(w).(runners := Project(w).runners[r := ProjectRunner(runner)])
  {
  }

  lemma ClaimSimulates(w: World, r: nat, j: Id)
    requires Enabled(w, ClaimJob(r, j))
    ensures Simulated(Project(w), Project(Exec(w, ClaimJob(r, j))))
  {
    var db' := Claim(w.shared.db, j);
    hide IsOldestQueued, Simulated;
    ProjectSetsRunner(WithDb(w, db'), r, Busy(db'.jobs[j], Start));
    Simulates(Project(w), Plain(ClaimJob(r, j)), Project(Exec(w, ClaimJob(r, j))));
  }

  lemma CrashSimulates(w: World, r: nat)
    ensures Simulated(Project(w), Project(SetRunner(w, r, Idle)))
  {
    hide Simulated;
    ProjectSetsRunner(w, r, Idle);
    Simulates(Project(w), Plain(Crash(r)), Project(SetRunner(w, r, Idle)));
  }

  // ---------- Runner moves ----------

  // Only the two load moves lead to an update move.
  lemma OnlyReportsLoad(s: Shared, job: Job, stage: Stage, c: Choice)
    requires !Reporting(Busy(job, stage))
    ensures !Committing(Advance(s, job, stage, c).runner)
  {
    hide Validate, Normalize;
  }

  lemma PlainMoveSimulates(w: World, r: nat, c: Choice)
    requires r in w.runners && w.runners[r].Busy? && !Reporting(w.runners[r]) && !Committing(w.runners[r])
    ensures Simulated(Project(w), Project(Exec(w, RunnerMove(r, c))))
  {
    hide Advance, Simulated;
    var m := Advance(w.shared, w.runners[r].job, w.runners[r].stage, c);
    OnlyReportsLoad(w.shared, w.runners[r].job, w.runners[r].stage, c);
    ProjectSetsRunner(w.(shared := m.shared), r, m.runner);
    Simulates(Project(w), Plain(RunnerMove(r, c)), Project(Exec(w, RunnerMove(r, c))));
  }

  // Loading changes nothing that the projection shows, unless the job has no environment.
  predicate LoadsOnly(s: Shared, runner: Runner, c: Choice) {
    && Reporting(runner)
    && var m := Advance(s, runner.job, runner.stage, c);
       && m.shared == s
       && (runner.job.env == NONE ==> m.runner == Idle)
       && (runner.job.env != NONE ==>
             runner.job.env in s.db.envs && Committing(m.runner) && m.runner.job == runner.job && ProjectRunner(m.runner) == runner)
  }

  lemma ReportingLoadsOnly(s: Shared, runner: Runner, c: Choice)
    requires RowsOk(s) && OnlyLastUnsettled(s) && RunnerOk(s, runner) && Reporting(runner)
    ensures LoadsOnly(s, runner, c)
  {
    hide RowsOk, OnlyLastUnsettled, StartApply, StartPlan, StartDestroyPlan, LoadEnvironment, UpdateFromJob, SaveJob;
    if runner.stage == ReportSuccess {
      HolderIsNamed(s, runner.job, env => CommitSuccess(env));
    } else {
      HolderIsNamed(s, runner.job, env => CommitFailure(runner.stage.message, env));
    }
  }

  lemma LoadSimulates(w: World, r: nat, c: Choice)
    requires r in w.runners && LoadsOnly(w.shared, w.runners[r], c)
    ensures Simulated(Project(w), Project(Exec(w, RunnerMove(r, c))))
  {
    hide Simulated, Advance;
    var job, stage, s := w.runners[r].job, w.runners[r].stage, w.shared;
    var m := Advance(s, job, stage, c);
    ProjectSetsRunner(w.(shared := m.shared), r, m.runner);
    if job.env == NONE {
      Simulates(Project(w), Conclude(r), Project(Exec(w, RunnerMove(r, c))));
    } else {
      Unchanged(Project(w));
      assert Project(Exec(w, RunnerMove(r, c))) == Project(w);
    }
  }

  lemma UpdateConcludes(s: Shared, runner: Runner, c: Choice)
    requires Committing(runner) && RowsOk(s) && OnlyLastUnsettled(s) && RunnerOk(s, runner)
    ensures var reporting := ProjectRunner(runner);
            && runner.job.env != NONE && runner.job.env in s.db.envs
            && Advance(s, runner.job, runner.stage, c) == ConcludeJob(s, reporting)
  {
    hide RowsOk, OnlyLastUnsettled, StartApply, StartPlan, StartDestroyPlan, LoadEnvironment;
    var job, stage := runner.job, runner.stage;
    HeldEnvironment(s, job, stage);
    if stage.CommitSuccess? {
      CommitSuccessMove(s, job, stage.env, c);
    } else {
      CommitFailureMove(s, job, stage.message, stage.env, c);
    }
  }

  lemma HeldEnvironment(s: Shared, job: Job, stage: Stage)
    requires RowsOk(s) && RunnerOk(s, Busy(job, stage)) && (stage.CommitSuccess? || stage.CommitFailure?)
    ensures job.env in s.db.envs && stage.env == s.db.envs[job.env] && stage.env.id == job.env != NONE
  {
    hide JobOk;
    assert EnvOk(s, s.db.envs[job.env]);
  }

  lemma UpdateSimulates(w: World, r: nat, c: Choice)
    requires r in w.runners && Committing(w.runners[r]) && w.runners[r].job.env in w.shared.db.envs
    requires Advance(w.shared, w.runners[r].job, w.runners[r].stage, c) == ConcludeJob(w.shared, ProjectRunner(w.runners[r]))
    ensures Simulated(Project(w), Project(Exec(w, RunnerMove(r, c))))
  {
    hide Simulated, Advance;
    var m := Advance(w.shared, w.runners[r].job, w.runners[r].stage, c);
    ProjectSetsRunner(w.(shared := m.shared), r, m.runner);
    Simulates(Project(w), Conclude(r), Project(Exec(w, RunnerMove(r, c))));
  }

  // ---------- Every step, every run ----------

  lemma MoveIsSimulated(w: World, r: nat, c: Choice)
    requires Inv(w) && Enabled(w, RunnerMove(r, c))
    ensures Simulated(Project(w), Project(Exec(w, RunnerMove(r, c))))
  {
    hide StoreOk, RunnersOk, RequestsOk, RunnerOk, RowsOk, OnlyLastUnsettled, Exec, Simulated, Project, Advance,
         LoadsOnly, ConcludeJob;
    RunnerFacts(w, r);
    if Reporting(w.runners[r]) {
      ReportingLoadsOnly(w.shared, w.runners[r], c);
      LoadSimulates(w, r, c);
    } else if Committing(w.runners[r]) {
      UpdateConcludes(w.shared, w.runners[r], c);
      UpdateSimulates(w, r, c);
    } else {
      PlainMoveSimulates(w, r, c);
    }
  }

  /** Every step of the real system is a step of the atomic one, or changes nothing in it. */
  lemma StepIsSimulated(w: World, step: Step)
    requires Inv(w) && Enabled(w, step)
    ensures Simulated(Project(w), Project(Exec(w, step)))
  {
    match step
    case CommitRequest(k, id, now) => hide StoreOk, RunnersOk, LegacyOk, SnapshotOk, Exec, Simulated, Project; HandleSimulates(w, k, id, now);
    case ReadEnv(k, _) => hide Inv, AtomicNext; assert Project(Exec(w, step)) == Project(w);
    case ReadJob(k) => hide Inv, AtomicNext; assert Project(Exec(w, step)) == Project(w);
    case ClaimJob(r, j) => hide *; ClaimSimulates(w, r, j);
    case Crash(r) => hide Inv, Simulated, Project; CrashSimulates(w, r);
    case RunnerMove(r, c) => MoveIsSimulated(w, r, c);
    case CreateEnv(_, _, _, _, _, _) => hide *; CreateSimulates(w, step);
    case _ => hide *; LegacySimulates(w, step);
  }

  lemma ExtendAtomicRun(run: seq<AtomicWorld>, a: AtomicWorld) returns (longer: seq<AtomicWorld>)
    requires IsAtomicRun(run) && Simulated(run[|run| - 1], a)
    ensures IsAtomicRun(longer) && longer[|longer| - 1] == a
  {
    hide AtomicNext;
    longer := if run[|run| - 1] == a then run else run + [a];
  }

  lemma EmptyIsSimulated()
    ensures IsAtomicRun([ATOMIC_EMPTY]) && Project(EMPTY_WORLD) == ATOMIC_EMPTY
  {
  }

  /** Every run of the real system is simulated by an atomic run that ends in the same shared state. */
  lemma {:induction false} RunIsSimulated(run: seq<World>, n: nat) returns (atomic: seq<AtomicWorld>)
    requires IsRun(run) && n < |run|
    ensures IsAtomicRun(atomic) && atomic[|atomic| - 1] == Project(run[n])
  {
    hide *;
    if n == 0 {
      RunStart(run);
      EmptyIsSimulated();
      atomic := [ATOMIC_EMPTY];
    } else {
      atomic := RunIsSimulated(run, n - 1);
      var step, x := RunStep(run, n - 1);
      StepIsSimulated(run[n - 1], step);
      atomic := ExtendAtomicRun(atomic, Project(run[n]));
    }
  }

  // ---------- The converse ----------

  lemma ReachableStep(w: World, step: Step)
    requires Reachable(w) && Enabled(w, step)
    ensures Reachable(Exec(w, step))
  {
    hide Enabled, Exec;
    var run :| IsRun(run) && run[|run| - 1] == w;
    var longer := run + [Exec(w, step)];
    assert Next(w, Exec(w, step));
    assert IsRun(longer);
  }

  // A request that runs alone has the effect of the atomic one.
  lemma HandleIsSequence(a: AtomicWorld, rq: Handlers.Request, id: Id, now: nat)
    requires AtomicEnabled(a, Handle(rq, id, now)) && a.shared.db.envs[rq.env].id == rq.env
    ensures Enabled(Embed(a), ReadEnv(0, rq))
    ensures var w1 := Exec(Embed(a), ReadEnv(0, rq)); Enabled(w1, ReadJob(0))
    ensures var w2 := Exec(Exec(Embed(a), ReadEnv(0, rq)), ReadJob(0));
            Enabled(w2, CommitRequest(0, id, now)) && Exec(w2, CommitRequest(0, id, now)) == Embed(AtomicExec(a, Handle(rq, id, now)))
  {
    hide Decide, Bundle;
    var env := a.shared.db.envs[rq.env];
    var w2 := Exec(Exec(Embed(a), ReadEnv(0, rq)), ReadJob(0));
    assert w2.requests[0] == RowsRead(rq, env, LookupJob(a.shared.db, JobToRead(env, rq.body)));
    assert w2.requests - {0} == map[];
  }

  lemma HandleIsReached(a: AtomicWorld, rq: Handlers.Request, id: Id, now: nat)
    requires Reachable(Embed(a)) && AtomicEnabled(a, Handle(rq, id, now))
    ensures Reachable(Embed(AtomicExec(a, Handle(rq, id, now))))
  {
    HandleEnvironment(a, rq, id, now);
    hide *;
    HandleIsSequence(a, rq, id, now);
    var w1 := Exec(Embed(a), ReadEnv(0, rq));
    var w2 := Exec(w1, ReadJob(0));
    ReachableStep(Embed(a), ReadEnv(0, rq));
    ReachableStep(w1, ReadJob(0));
    ReachableStep(w2, CommitRequest(0, id, now));
  }

  lemma HandleEnvironment(a: AtomicWorld, rq: Handlers.Request, id: Id, now: nat)
    requires Reachable(Embed(a)) && AtomicEnabled(a, Handle(rq, id, now))
    ensures rq.env in a.shared.db.envs && a.shared.db.envs[rq.env].id == rq.env
  {
    hide Reachable, Inv;
    ReachableInv(Embed(a));
    StoredFacts(Embed(a), rq.env);
  }

  const SOME_CHOICE := Choice(true, "", false)

  // A runner that loads and at once updates its environment has the effect of the atomic report.
  lemma ReportAlone(a: AtomicWorld, r: nat)
    requires AtomicEnabled(a, Conclude(r)) && a.runners[r].job.env == NONE
    requires var runner := a.runners[r]; Advance(a.shared, runner.job, runner.stage, SOME_CHOICE) == Move(a.shared, Idle)
    ensures Enabled(Embed(a), RunnerMove(r, SOME_CHOICE))
    ensures Exec(Embed(a), RunnerMove(r, SOME_CHOICE)) == Embed(AtomicExec(a, Conclude(r)))
  {
    hide Advance;
  }

  lemma LoadThenUpdate(a: AtomicWorld, r: nat)
    requires AtomicEnabled(a, Conclude(r))
    requires var runner := a.runners[r];
             var m := Advance(a.shared, runner.job, runner.stage, SOME_CHOICE);
             && m.shared == a.shared && m.runner.Busy?
             && Advance(a.shared, m.runner.job, m.runner.stage, SOME_CHOICE) == ConcludeJob(a.shared, runner)
    ensures Enabled(Embed(a), RunnerMove(r, SOME_CHOICE))
    ensures var w1 := Exec(Embed(a), RunnerMove(r, SOME_CHOICE));
            Enabled(w1, RunnerMove(r, SOME_CHOICE)) && Exec(w1, RunnerMove(r, SOME_CHOICE)) == Embed(AtomicExec(a, Conclude(r)))
  {
    hide Advance, ConcludeJob;
    var runner := a.runners[r];
    var m := Advance(a.shared, runner.job, runner.stage, SOME_CHOICE);
    var w1 := Exec(Embed(a), RunnerMove(r, SOME_CHOICE));
    assert w1.runners[r] == m.runner && w1.shared == a.shared;
    var w2 := Exec(w1, RunnerMove(r, SOME_CHOICE));
    assert w2.runners == a.runners[r := ConcludeJob(a.shared, runner).runner];
  }

  lemma ConcludeIsReached(a: AtomicWorld, r: nat)
    requires Reachable(Embed(a)) && AtomicEnabled(a, Conclude(r))
    ensures Reachable(Embed(AtomicExec(a, Conclude(r))))
  {
    HolderReports(a, r);
    var runner := a.runners[r];
    if runner.job.env == NONE {
      hide *;
      ReportAlone(a, r);
      ReachableStep(Embed(a), RunnerMove(r, SOME_CHOICE));
    } else {
      hide *;
      LoadThenUpdate(a, r);
      var w1 := Exec(Embed(a), RunnerMove(r, SOME_CHOICE));
      ReachableStep(Embed(a), RunnerMove(r, SOME_CHOICE));
      ReachableStep(w1, RunnerMove(r, SOME_CHOICE));
    }
  }

  lemma HolderReports(a: AtomicWorld, r: nat)
    requires Reachable(Embed(a)) && AtomicEnabled(a, Conclude(r))
    ensures r in a.runners && Reporting(a.runners[r])
    ensures var runner := a.runners[r];
            var m := Advance(a.shared, runner.job, runner.stage, SOME_CHOICE);
            && (runner.job.env == NONE ==> m == Move(a.shared, Idle))
            && (runner.job.env != NONE ==>
                  && m.shared == a.shared && m.runner.Busy? && runner.job.env in a.shared.db.envs
                  && Advance(a.shared, m.runner.job, m.runner.stage, SOME_CHOICE) == ConcludeJob(a.shared, runner))
  {
    hide Reachable, Advance, ConcludeJob, Inv, RowsOk, OnlyLastUnsettled;
    ReachableInv(Embed(a));
    RunnerFacts(Embed(a), r);
    ReportingLoadsOnly(a.shared, a.runners[r], SOME_CHOICE);
    var runner := a.runners[r];
    if runner.job.env != NONE {
      LoadedHolder(a.shared, runner);
      UpdateConcludes(a.shared, Advance(a.shared, runner.job, runner.stage, SOME_CHOICE).runner, SOME_CHOICE);
    }
  }

  lemma LoadedHolder(s: Shared, runner: Runner)
    requires RowsOk(s) && OnlyLastUnsettled(s) && RunnerOk(s, runner) && Reporting(runner)
    ensures RunnerOk(s, Advance(s, runner.job, runner.stage, SOME_CHOICE).runner)
  {
    hide RowsOk, OnlyLastUnsettled, RunnerOk, StartApply, StartPlan, StartDestroyPlan, LoadEnvironment,
         UpdateFromJob, SaveJob;
    if runner.stage == ReportSuccess {
      ReportSuccessLooks(s, runner.job, SOME_CHOICE);
    } else {
      ReportFailureLooks(s, runner.job, runner.stage.message, SOME_CHOICE);
    }
  }

  lemma PlainIsReached(a: AtomicWorld, step: Step)
    requires Reachable(Embed(a)) && AtomicEnabled(a, Plain(step))
    ensures Reachable(Embed(AtomicExec(a, Plain(step))))
  {
    hide Reachable, Advance, CreateDecision, LegacyJob, DerivedJob, Bundle, IsOldestQueued;
    ReachableStep(Embed(a), step);
    assert Exec(Embed(a), step) == Embed(AtomicExec(a, Plain(step)));
  }

  lemma {:induction false} AtomicRunIsReached(run: seq<AtomicWorld>, n: nat)
    requires IsAtomicRun(run) && n < |run|
    ensures Reachable(Embed(run[n]))
  {
    if n == 0 {
      hide Next, AtomicNext;
      assert IsRun([EMPTY_WORLD]);
      assert Embed(run[0]) == EMPTY_WORLD;
    } else {
      hide Reachable, AtomicEnabled, AtomicExec;
      AtomicRunIsReached(run, n - 1);
      assert AtomicNext(run[n - 1], run[n]);
      var x :| AtomicEnabled(run[n - 1], x) && run[n] == AtomicExec(run[n - 1], x);
      match x
      case Plain(step) => PlainIsReached(run[n - 1], step);
      case Handle(rq, job, now) => HandleIsReached(run[n - 1], rq, job, now);
      case Conclude(r) => ConcludeIsReached(run[n - 1], r);
    }
  }

  lemma ReachableIsSimulated(w: World)
    requires Reachable(w)
    ensures AtomicReachable(Project(w))
  {
    hide Next, AtomicNext;
    var run :| IsRun(run) && run[|run| - 1] == w;
    var atomic := RunIsSimulated(run, |run| - 1);
  }

  lemma AtomicIsReached(a: AtomicWorld)
    requires AtomicReachable(a)
    ensures Reachable(Embed(a))
  {
    hide Next, AtomicNext;
    var run :| IsAtomicRun(run) && run[|run| - 1] == a;
    AtomicRunIsReached(run, |run| - 1);
  }

  /** The split system and the atomic system reach exactly the same shared states. */
  lemma SameSharedStates(s: Shared)
    ensures (exists w :: Reachable(w) && w.shared == s) <==> (exists a :: AtomicReachable(a) && a.shared == s)
  {
    hide *;
    if w :| Reachable(w) && w.shared == s {
      ReachableIsSimulated(w);
      ProjectionShares(w);
    }
    if a :| AtomicReachable(a) && a.shared == s {
      AtomicIsReached(a);
      EmbeddingShares(a);
    }
  }

  lemma ProjectionShares(w: World)
    ensures Project(w).shared == w.shared
  {
  }

  lemma EmbeddingShares(a: AtomicWorld)
    ensures Embed(a).shared == a.shared
  {
  }
}
