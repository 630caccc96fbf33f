/** internal/storage/mysql/store.go: the job, environment and audit tables and the statements the
    handlers and the runner issue against them. */
module Store {
  import opened Wrappers
  import opened Domain

  datatype Db = Db(envs: map<Id, Environment>, jobs: map<Id, Job>, audit: seq<AuditEvent>)

  function LookupJob(db: Db, id: Id): Option<Job> {
    if id in db.jobs then Some(db.jobs[id]) else None
  }

  // environmentUpdateSQL: WHERE id = env.ID AND revision = env.Revision - 1.
  predicate CasHolds(db: Db, env: Environment) {
    env.id in db.envs && db.envs[env.id].revision + 1 == env.revision
  }

  function PutJob(db: Db, job: Job): Db {
    db.(jobs := db.jobs[job.id := job])
  }

  function PutEnvironment(db: Db, env: Environment): Db {
    db.(envs := db.envs[env.id := env])
  }

  function AppendAudit(db: Db, event: AuditEvent): Db {
    db.(audit := db.audit + [event])
  }

  // The three statements of a bundled mutation; the job is absent for an approval.
  function Bundle(db: Db, env: Environment, job: Option<Job>, event: AuditEvent): Db {
    var withEnv := PutEnvironment(db, env);
    var withJob := if job.Some? then PutJob(withEnv, job.value) else withEnv;
    AppendAudit(withJob, event)
  }

  predicate IsQueued(db: Db, id: Id) {
    id in db.jobs && db.jobs[id].status == Queued
  }

  // The row the claim statement's subquery can yield: ORDER BY created_at ASC LIMIT 1.
  ghost predicate IsOldestQueued(db: Db, id: Id) {
    IsQueued(db, id) && forall k :: IsQueued(db, k) ==> db.jobs[id].createdAt <= db.jobs[k].createdAt
  }

  function Claim(db: Db, id: Id): Db
    requires id in db.jobs
  {
    PutJob(db, db.jobs[id].(status := Running))
  }

  lemma {:induction false} OldestExists(db: Db, candidates: set<Id>) returns (id: Id)
    requires candidates != {} && forall k :: k in candidates ==> k in db.jobs
    ensures id in candidates && forall k :: k in candidates ==> db.jobs[id].createdAt <= db.jobs[k].createdAt
  {
    var x :| x in candidates;
    var rest := candidates - {x};
    if rest == {} {
      id := x;
    } else {
      var y := OldestExists(db, rest);
      id := if db.jobs[x].createdAt <= db.jobs[y].createdAt then x else y;
    }
    forall k | k in candidates ensures db.jobs[id].createdAt <= db.jobs[k].createdAt {
      assert k == x || k in rest;
    }
  }

  /** The production store. Each method is one transaction. */
  class Database {
    var envs: map<Id, Environment>
    var jobs: map<Id, Job>
    var audit: seq<AuditEvent>

    constructor ()
      ensures Contents() == Db(map[], map[], [])
    {
      envs, jobs, audit := map[], map[], [];
    }

    function Contents(): Db
      reads this
    {
      Db(envs, jobs, audit)
    }

    method GetEnvironment(id: Id) returns (env: Option<Environment>)
      ensures env == if id in envs then Some(envs[id]) else None
    {
      env := if id in envs then Some(envs[id]) else None;
    }

    method GetJob(id: Id) returns (job: Option<Job>)
      ensures job == LookupJob(Contents(), id)
    {
      job := if id in jobs then Some(jobs[id]) else None;
    }

    method CreateJob(job: Job) returns (ok: bool)
      modifies this
      ensures ok <==> job.id !in old(jobs)
      ensures Contents() == if ok then PutJob(old(Contents()), job) else old(Contents())
    {
      ok := job.id !in jobs;
      if ok {
        jobs := jobs[job.id := job];
      }
    }

    // UPDATE jobs ... WHERE id = job.ID.
    method UpdateJob(job: Job) returns (ok: bool)
      modifies this
      ensures ok <==> job.id in old(jobs)
      ensures Contents() == if ok then PutJob(old(Contents()), job) else old(Contents())
    {
      ok := job.id in jobs;
      if ok {
        jobs := jobs[job.id := job];
      }
    }

    method UpdateEnvironment(env: Environment) returns (ok: bool)
      modifies this
      ensures ok <==> CasHolds(old(Contents()), env)
      ensures Contents() == if ok then PutEnvironment(old(Contents()), env) else old(Contents())
    {
      ok := env.id in envs && envs[env.id].revision + 1 == env.revision;
      if ok {
        envs := envs[env.id := env];
      }
    }

    method CreateAuditEvent(event: AuditEvent)
      modifies this
      ensures Contents() == AppendAudit(old(Contents()), event)
    {
      audit := audit + [event];
    }

    // One transaction: a duplicate key rolls everything back.
    method CreateEnvironmentWithJobAndAudit(env: Environment, job: Job, event: AuditEvent) returns (ok: bool)
      modifies this
      ensures ok <==> env.id !in old(envs) && job.id !in old(jobs)
      ensures Contents() == if ok then Bundle(old(Contents()), env, Some(job), event) else old(Contents())
    {
      ok := env.id !in envs && job.id !in jobs;
      if ok {
        envs := envs[env.id := env];
        jobs := jobs[job.id := job];
        audit := audit + [event];
      }
    }

    // The job and audit rows are inserted only when the update changed one row; a duplicate key ends
    // the transaction before its commit.
    method UpdateEnvironmentWithJobAndAudit(env: Environment, job: Job, event: AuditEvent) returns (ok: bool)
      modifies this
      ensures ok <==> CasHolds(old(Contents()), env) && job.id !in old(jobs)
      ensures Contents() == if ok then Bundle(old(Contents()), env, Some(job), event) else old(Contents())
    {
      var updated := if env.id in envs && envs[env.id].revision + 1 == env.revision then 1 else 0;
      if updated == 1 && job.id in jobs { return false; }
      if updated == 1 { envs := envs[env.id := env]; }
      if updated == 1 { jobs := jobs[job.id := job]; }
      if updated == 1 { audit := audit + [event]; }
      ok := updated == 1;
    }

    method UpdateEnvironmentWithAudit(env: Environment, event: AuditEvent) returns (ok: bool)
      modifies this
      ensures ok <==> CasHolds(old(Contents()), env)
      ensures Contents() == if ok then Bundle(old(Contents()), env, None, event) else old(Contents())
    {
      var updated := if env.id in envs && envs[env.id].revision + 1 == env.revision then 1 else 0;
      if updated == 1 { envs := envs[env.id := env]; }
      if updated == 1 { audit := audit + [event]; }
      ok := updated == 1;
    }

    method ClaimNextQueuedJob() returns (claimed: Option<Job>)
      requires forall k :: k in jobs ==> jobs[k].id == k
      modifies this
      ensures claimed.None? ==> Contents() == old(Contents()) && forall k :: !IsQueued(old(Contents()), k)
      ensures claimed.Some? ==>
        && IsOldestQueued(old(Contents()), claimed.value.id)
        && claimed.value == old(jobs)[claimed.value.id].(status := Running)
        && Contents() == Claim(old(Contents()), claimed.value.id)
    {
      var queued := set k | k in jobs && jobs[k].status == Queued;
      if queued == {} {
        assert forall k :: IsQueued(Contents(), k) ==> k in queued;
        return None;
      }
      ghost var oldest := OldestExists(Contents(), queued);
      var id :| id in queued && forall k :: k in queued ==> jobs[id].createdAt <= jobs[k].createdAt;
      var job := jobs[id].(status := Running);
      jobs := jobs[id := job];
      claimed := Some(job);
    }
  }
}
