/** The whole system as a labelled transition system: any number of API requests in flight, any
    number of runners, one database, one set of plan files. A request reads the environment row,
    then a job row, and then commits with a compare-and-set; between any two of these, and between
    any two moves of a runner, every other participant may act. */
module Protocol {
  import opened Wrappers
  import opened Domain
  import opened Store
  import opened Handlers
  import opened RunnerLoop

  // A request between its reads, with the rows it has read.
  datatype Pending =
    | EnvRead(rq: Request, env: Environment)
    | RowsRead(rq: Request, env: Environment, job: Option<Job>)

  datatype LegacyPending = LegacyPending(kind: LegacyKind, user: User, src: Job)

  datatype World = World(
    shared: Shared,
    requests: map<nat, Pending>,
    legacy: map<nat, LegacyPending>,
    runners: map<nat, Runner>)

  datatype Step =
    | CreateEnv(spec: EnvironmentSpec, template: string, user: User, env: Id, job: Id, now: nat)
    | ReadEnv(client: nat, rq: Request)
    | ReadJob(client: nat)
    | CommitRequest(client: nat, job: Id, now: nat)
    | CreateLegacy(typ: JobType, spec: EnvironmentSpec, user: User, job: Id, now: nat)
    | ReadLegacy(client: nat, kind: LegacyKind, user: User, src: Id)
    | CommitLegacy(client: nat, job: Id, now: nat)
    | ClaimJob(runner: nat, job: Id)
    | RunnerMove(runner: nat, choice: Choice)
    | Crash(runner: nat)

  const EMPTY_WORLD := World(Shared(Db(map[], map[], []), map[], {}), map[], map[], map[])

  // A uuid the store has not seen.
  predicate Fresh(w: World, id: Id) {
    id != NONE && id !in w.shared.db.envs && id !in w.shared.db.jobs
  }

  function RunnerAt(w: World, r: nat): Runner {
    if r in w.runners then w.runners[r] else Idle
  }

  ghost predicate Enabled(w: World, step: Step) {
    match step
    case CreateEnv(_, _, _, env, job, _) => Fresh(w, env) && Fresh(w, job) && env != job
    case ReadEnv(k, rq) => k !in w.requests && rq.env in w.shared.db.envs
    case ReadJob(k) => k in w.requests && w.requests[k].EnvRead?
    case CommitRequest(k, job, _) => k in w.requests && w.requests[k].RowsRead? && Fresh(w, job)
    case CreateLegacy(_, _, _, job, _) => Fresh(w, job)
    case ReadLegacy(k, _, _, src) => k !in w.legacy && src in w.shared.db.jobs
    case CommitLegacy(k, job, _) => k in w.legacy && Fresh(w, job)
    case ClaimJob(r, job) => RunnerAt(w, r) == Idle && IsOldestQueued(w.shared.db, job)
    case RunnerMove(r, _) => RunnerAt(w, r).Busy?
    case Crash(r) => true
  }

  function WithDb(w: World, db: Db): World {
    w.(shared := w.shared.(db := db))
  }

  // A bundled mutation: everything or, when the compare-and-set fails, nothing.
  function CommitDecision(w: World, d: Decision): World {
    if d.Commit? && CasHolds(w.shared.db, d.env)
    then WithDb(w, Bundle(w.shared.db, d.env, d.job, d.event))
    else w
  }

  function CreateCommit(w: World, d: Decision): World {
    if d.Commit? then WithDb(w, Bundle(w.shared.db, d.env, d.job, d.event)) else w
  }

  function InsertLegacy(w: World, job: Option<Job>): World {
    if job.Some?
    then WithDb(w, PutJob(w.shared.db, job.value))
    else w
  }

  function SetRunner(w: World, r: nat, runner: Runner): World {
    w.(runners := w.runners[r := runner])
  }

  ghost function Exec(w: World, step: Step): World
    requires Enabled(w, step)
  {
    var db := w.shared.db;
    match step
    case CreateEnv(spec, template, user, env, job, now) =>
      CreateCommit(w, CreateDecision(spec, template, user, env, job, now))
    case ReadEnv(k, rq) =>
      w.(requests := w.requests[k := EnvRead(rq, db.envs[rq.env])])
    case ReadJob(k) =>
      var p := w.requests[k];
      w.(requests := w.requests[k := RowsRead(p.rq, p.env, LookupJob(db, JobToRead(p.env, p.rq.body)))])
    case CommitRequest(k, job, now) =>
      var p := w.requests[k];
      CommitDecision(w, Decide(p.env, p.job, p.rq, job, now)).(requests := w.requests - {k})
    case CreateLegacy(typ, spec, user, job, now) =>
      InsertLegacy(w, LegacyJob(typ, spec, user, job, now))
    case ReadLegacy(k, kind, user, src) =>
      w.(legacy := w.legacy[k := LegacyPending(kind, user, db.jobs[src])])
    case CommitLegacy(k, job, now) =>
      var p := w.legacy[k];
      InsertLegacy(w, DerivedJob(p.kind, p.user, p.src, job, now)).(legacy := w.legacy - {k})
    case ClaimJob(r, job) =>
      var db' := Claim(db, job);
      SetRunner(WithDb(w, db'), r, Busy(db'.jobs[job], Start))
    case RunnerMove(r, c) =>
      var m := Advance(w.shared, w.runners[r].job, w.runners[r].stage, c);
      SetRunner(w.(shared := m.shared), r, m.runner)
    case Crash(r) => SetRunner(w, r, Idle)
  }

  ghost predicate Next(w: World, w': World) {
    exists step :: Enabled(w, step) && w' == Exec(w, step)
  }

  ghost predicate IsRun(run: seq<World>) {
    && |run| > 0
    && run[0] == EMPTY_WORLD
    && forall i :: 0 <= i < |run| - 1 ==> Next(run[i], run[i + 1])
  }

  ghost predicate Reachable(w: World) {
    exists run :: IsRun(run) && run[|run| - 1] == w
  }

  // A run with the steps that made it.
  ghost predicate IsTrace(run: seq<World>, steps: seq<Step>) {
    && |run| == |steps| + 1 && run[0] == EMPTY_WORLD
    && forall i :: 0 <= i < |steps| ==> Enabled(run[i], steps[i]) && run[i + 1] == Exec(run[i], steps[i])
  }
}
