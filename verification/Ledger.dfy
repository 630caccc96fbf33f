/** Conservation laws: an environment's revision, jobs, retries and audit rows account for each other. */
module Ledger {
  import opened Domain
  import opened Store
  import opened Handlers
  import opened RunnerLoop
  import opened Protocol
  import opened History
  import opened Safety
  import opened SharedSteps
  import opened Preservation
  import opened Effects

  // ---------- The accounts ----------

  ghost function JobsOf(s: Shared, e: Id): set<Id> {
    set j | j in s.db.jobs && s.db.jobs[j].env == e
  }

  ghost function SettledOf(s: Shared, e: Id): set<Id> {
    set j | j in s.settled && j in s.db.jobs && s.db.jobs[j].env == e
  }

  // How many more commits the current attempt can make before it ends.
  function CommitsLeft(status: EnvironmentStatus): nat {
    match status
    case Planning => 4
    case PendingApproval => 3
    case Approved => 2
    case Applying => 1
    case _ => 0
  }

  function Potential(env: Environment): int {
    5 * (env.maxRetries - env.retryCount) + CommitsLeft(env.status)
  }

  ghost predicate Balanced(s: Shared, e: Id)
    requires e in s.db.envs
  {
    && |JobsOf(s, e)| == Count(s.db.audit, JobRequestsIn(e))
    && s.db.envs[e].revision == |JobsOf(s, e)| + |SettledOf(s, e)| + Count(s.db.audit, ApprovalsIn(e))
  }

  ghost predicate RetriesCounted(s: Shared, e: Id)
    requires e in s.db.envs
  {
    && s.db.envs[e].retryCount == Count(s.db.audit, RetriesIn(e))
    && s.db.envs[e].retryCount <= s.db.envs[e].maxRetries == 3
    && forall j :: j in s.db.jobs && s.db.jobs[j].env == e ==>
         s.db.jobs[j].retryCount <= s.db.envs[e].retryCount && s.db.jobs[j].maxRetries == 3
  }

  ghost predicate WithinBudget(s: Shared, e: Id)
    requires e in s.db.envs
  {
    s.db.envs[e].revision + Potential(s.db.envs[e]) <= 20 + 5 * Count(s.db.audit, PlanRequestsIn(e))
  }

  // No audit row speaks of an environment that does not exist.
  ghost predicate NoHistory(s: Shared, e: Id) {
    && Count(s.db.audit, JobRequestsIn(e)) == 0 && Count(s.db.audit, ApprovalsIn(e)) == 0
    && Count(s.db.audit, RetriesIn(e)) == 0 && Count(s.db.audit, PlanRequestsIn(e)) == 0
  }

  ghost predicate AccountsOk(s: Shared, e: Id) {
    if e in s.db.envs then Balanced(s, e) && RetriesCounted(s, e) && WithinBudget(s, e) else NoHistory(s, e)
  }

  // ---------- Each effect ----------

  // The audit table tells nothing new about environment e.
  ghost predicate SameCounts(audit: seq<AuditEvent>, audit': seq<AuditEvent>, e: Id) {
    && Count(audit', JobRequestsIn(e)) == Count(audit, JobRequestsIn(e))
    && Count(audit', ApprovalsIn(e)) == Count(audit, ApprovalsIn(e))
    && Count(audit', RetriesIn(e)) == Count(audit, RetriesIn(e))
    && Count(audit', PlanRequestsIn(e)) == Count(audit, PlanRequestsIn(e))
  }

  // The row and the jobs of environment e are the same.
  ghost predicate SameRows(s: Shared, s': Shared, e: Id) {
    && (e in s'.db.envs <==> e in s.db.envs)
    && (e in s.db.envs ==> s'.db.envs[e] == s.db.envs[e])
    && JobsOf(s', e) == JobsOf(s, e) && SettledOf(s', e) == SettledOf(s, e)
    && (forall j :: j in JobsOf(s, e) ==>
          s'.db.jobs[j].retryCount == s.db.jobs[j].retryCount && s'.db.jobs[j].maxRetries == s.db.jobs[j].maxRetries)
  }

  // Nothing that concerns environment e changed.
  ghost predicate Untouched(s: Shared, s': Shared, e: Id) {
    SameRows(s, s', e) && SameCounts(s.db.audit, s'.db.audit, e)
  }

  lemma UntouchedAccounts(s: Shared, s': Shared, e: Id)
    requires AccountsOk(s, e) && Untouched(s, s', e)
    ensures AccountsOk(s', e)
  {
    forall j | j in s'.db.jobs && s'.db.jobs[j].env == e ensures j in JobsOf(s, e) {
      assert j in JobsOf(s', e);
    }
  }

  lemma EventElsewhere(audit: seq<AuditEvent>, event: AuditEvent, e: Id)
    requires event.env != e || ReportsOutcome(event)
    ensures SameCounts(audit, audit + [event], e)
  {
    CountAppend(audit, event);
  }

  lemma JobElsewhere(s: Shared, s': Shared, env: Environment, job: Job, e: Id)
    requires job.id !in s.db.jobs && job.env == env.id != e
    requires s'.db.envs == s.db.envs[env.id := env] && s'.db.jobs == s.db.jobs[job.id := job] && s'.settled == s.settled
    ensures SameRows(s, s', e)
  {
    assert JobsOf(s', e) == JobsOf(s, e) && SettledOf(s', e) == SettledOf(s, e);
  }

  lemma EnvironmentElsewhere(s: Shared, s': Shared, env: Environment, e: Id)
    requires env.id != e
    requires s'.db.envs == s.db.envs[env.id := env] && s'.db.jobs == s.db.jobs && s'.settled == s.settled
    ensures SameRows(s, s', e)
  {
    assert JobsOf(s', e) == JobsOf(s, e) && SettledOf(s', e) == SettledOf(s, e);
  }

  // The environment whose row an effect writes, NONE when it writes none.
  function Subject(x: Effect): Id {
    match x
    case Queueing(env, _, _) => env.id
    case Approval(env, _) => env.id
    case Settlement(env, _) => env.id
    case _ => NONE
  }

  lemma OthersUntouched(s: Shared, x: Effect, e: Id)
    requires RowsOk(s) && Allowed(s, x) && e != NONE && e != Subject(x)
    ensures Untouched(s, After(s, x), e)
  {
    hide RowsOk, Untouched;
    match x
    case Queueing(env, job, event) => OthersUntouchedByQueueing(s, env, job, event, e);
    case Approval(env, event) => OthersUntouchedByEvent(s, env, event, e);
    case Report(event) => OthersUntouchedByReport(s, event, e);
    case Settlement(env, job) => OthersUntouchedBySettlement(s, env, job, e);
    case Legacy(job) => OthersUntouchedByWrite(s, job, e);
    case JobWrite(job) => OthersUntouchedByWrite(s, job, e);
    case PlanWrite(_) => SameRowsUntouched(s, After(s, x), e);
    case Nothing => SameRowsUntouched(s, s, e);
  }

  lemma SameRowsUntouched(s: Shared, s': Shared, e: Id)
    requires s'.db == s.db && s'.settled == s.settled
    ensures Untouched(s, s', e)
  {
  }

  lemma OthersUntouchedByQueueing(s: Shared, env: Environment, job: Job, event: AuditEvent, e: Id)
    requires job.id !in s.db.jobs && job.env == event.env == env.id && e != env.id
    ensures Untouched(s, After(s, Queueing(env, job, event)), e)
  {
    hide SameRows, SameCounts;
    EventElsewhere(s.db.audit, event, e);
    JobElsewhere(s, After(s, Queueing(env, job, event)), env, job, e);
  }

  lemma OthersUntouchedByEvent(s: Shared, env: Environment, event: AuditEvent, e: Id)
    requires event.env == env.id && e != env.id
    ensures Untouched(s, After(s, Approval(env, event)), e)
  {
    hide SameRows, SameCounts;
    EventElsewhere(s.db.audit, event, e);
    EnvironmentElsewhere(s, After(s, Approval(env, event)), env, e);
  }

  lemma OthersUntouchedByReport(s: Shared, event: AuditEvent, e: Id)
    requires ReportsOutcome(event)
    ensures Untouched(s, After(s, Report(event)), e)
  {
    hide SameCounts;
    EventElsewhere(s.db.audit, event, e);
  }

  lemma OthersUntouchedBySettlement(s: Shared, env: Environment, job: Job, e: Id)
    requires RowsOk(s) && MaySettle(s, env, job) && e != env.id
    ensures Untouched(s, After(s, Settlement(env, job)), e)
  {
    hide RowsOk, SuccessStatus;
    LastJobStored(s, env.id);
    var s' := After(s, Settlement(env, job));
    assert JobsOf(s', e) == JobsOf(s, e) && SettledOf(s', e) == SettledOf(s, e);
  }

  // A row that is new and belongs to no environment, or that keeps its environment and retry counts.
  lemma OthersUntouchedByWrite(s: Shared, job: Job, e: Id)
    requires MayInsert(s, job) || MaySave(s, job)
    requires e != NONE
    ensures Untouched(s, WithShared(s, PutJob(s.db, job)), e)
  {
    hide JobOk, OwnsWorkdir;
  }

  // Sizes after adding one job, or settling one.
  lemma OneMore(small: set<Id>, j: Id, big: set<Id>)
    requires j !in small && big == small + {j}
    ensures |big| == |small| + 1
  {
  }

  lemma QueueingSets(s: Shared, env: Environment, job: Job, event: AuditEvent)
    requires SettledOk(s) && job.id !in s.db.jobs && job.env == env.id
    ensures var s' := After(s, Queueing(env, job, event));
            && |JobsOf(s', env.id)| == |JobsOf(s, env.id)| + 1
            && SettledOf(s', env.id) == SettledOf(s, env.id)
  {
    var s' := After(s, Queueing(env, job, event));
    OneMore(JobsOf(s, env.id), job.id, JobsOf(s', env.id));
  }

  lemma SettlementSets(s: Shared, env: Environment, job: Job)
    requires job.id in s.db.jobs && s.db.jobs[job.id].env == env.id && job.id !in s.settled
    ensures var s' := After(s, Settlement(env, job));
            && JobsOf(s', env.id) == JobsOf(s, env.id)
            && |SettledOf(s', env.id)| == |SettledOf(s, env.id)| + 1
  {
    var s' := After(s, Settlement(env, job));
    OneMore(SettledOf(s, env.id), job.id, SettledOf(s', env.id));
  }

  lemma CreationCounts(audit: seq<AuditEvent>, event: AuditEvent, e: Id)
    requires event.env == e && event.action.EnvironmentCreated?
    requires Count(audit, JobRequestsIn(e)) == 0 && Count(audit, ApprovalsIn(e)) == 0
    requires Count(audit, RetriesIn(e)) == 0 && Count(audit, PlanRequestsIn(e)) == 0
    ensures var audit' := audit + [event];
            && Count(audit', JobRequestsIn(e)) == 1 && Count(audit', ApprovalsIn(e)) == 0
            && Count(audit', RetriesIn(e)) == 0 && Count(audit', PlanRequestsIn(e)) == 0
  {
    CountAppend(audit, event);
  }

  lemma CreationAccounts(s: Shared, env: Environment, job: Job, event: AuditEvent)
    requires RowsOk(s) && SettledOk(s) && Allowed(s, Queueing(env, job, event))
    requires env.id !in s.db.envs && AccountsOk(s, env.id)
    ensures AccountsOk(After(s, Queueing(env, job, event)), env.id)
  {
    hide MayQueue, RowsOk, SettledOk, JobsOf, SettledOf, Count;
    QueueFacts(s, env, job);
    QueueingSets(s, env, job, event);
    CreationCounts(s.db.audit, event, env.id);
    NoJobsYet(s, env.id);
  }

  lemma NoJobsYet(s: Shared, e: Id)
    requires RowsOk(s) && e !in s.db.envs && e != NONE
    ensures |JobsOf(s, e)| == 0 && |SettledOf(s, e)| == 0
    ensures forall j :: j in s.db.jobs ==> s.db.jobs[j].env != e
  {
    hide EnvOk;
    forall j | j in s.db.jobs ensures s.db.jobs[j].env != e {
      assert JobOk(s, s.db.jobs[j]);
    }
    assert JobsOf(s, e) == {} && SettledOf(s, e) == {};
  }

  lemma QueueFacts(s: Shared, env: Environment, job: Job)
    requires MayQueue(s, env, job)
    ensures env.id != NONE && job.id !in s.db.jobs && job.env == env.id
  {
  }

  lemma TransitionAccounts(s: Shared, env: Environment, job: Job, event: AuditEvent)
    requires RowsOk(s) && SettledOk(s) && Allowed(s, Queueing(env, job, event))
    requires env.id in s.db.envs && AccountsOk(s, env.id)
    ensures AccountsOk(After(s, Queueing(env, job, event)), env.id)
  {
    hide MayQueue, RowsOk, JobsOf, SettledOf, StartsOver;
    QueueFacts(s, env, job);
    QueueingSets(s, env, job, event);
    CountAppend(s.db.audit, event);
    LastJobStored(s, env.id);
  }

  lemma ApprovalAccounts(s: Shared, env: Environment, event: AuditEvent)
    requires Allowed(s, Approval(env, event)) && AccountsOk(s, env.id)
    ensures AccountsOk(After(s, Approval(env, event)), env.id)
  {
    CountAppend(s.db.audit, event);
    var s' := After(s, Approval(env, event));
    assert JobsOf(s', env.id) == JobsOf(s, env.id) && SettledOf(s', env.id) == SettledOf(s, env.id);
  }

  /** Every commit other than a plan or a destroy request lowers the potential. */
  lemma PotentialFalls(s: Shared, x: Effect)
    requires RowsOk(s) && Allowed(s, x) && Subject(x) in s.db.envs
    requires x.Queueing? ==> !x.event.action.PlanRequested? && !x.event.action.DestroyRequested?
    ensures Potential(After(s, x).db.envs[Subject(x)]) < Potential(s.db.envs[Subject(x)])
  {
    hide JobOk, MayQueue, ArtifactOk;
    NoEnvironmentIsNone(s);
    assert EnvOk(s, s.db.envs[Subject(x)]);
  }

  lemma SettlementAccounts(s: Shared, env: Environment, job: Job)
    requires RowsOk(s) && Allowed(s, Settlement(env, job)) && AccountsOk(s, env.id)
    ensures AccountsOk(After(s, Settlement(env, job)), env.id)
  {
    hide RowsOk, SuccessStatus, JobsOf, SettledOf, Potential;
    PotentialFalls(s, Settlement(env, job));
    LastJobStored(s, env.id);
    SettlementSets(s, env, job);
  }

  lemma EffectAccounts(s: Shared, x: Effect, e: Id)
    requires RowsOk(s) && SettledOk(s) && Allowed(s, x) && AccountsOk(s, e) && e != NONE
    ensures AccountsOk(After(s, x), e)
  {
    if e != Subject(x) {
      hide *;
      OthersUntouched(s, x, e);
      UntouchedAccounts(s, After(s, x), e);
    } else {
      hide AccountsOk, RowsOk, SettledOk, Allowed, After;
      match x
      case Queueing(env, job, event) =>
        if e in s.db.envs {
          TransitionAccounts(s, env, job, event);
        } else {
          CreationAccounts(s, env, job, event);
        }
      case Approval(env, event) => ApprovalAccounts(s, env, event);
      case Settlement(env, job) => SettlementAccounts(s, env, job);
      case _ =>
    }
  }

  // ---------- Every run ----------

  lemma {:induction false} RunAccounts(run: seq<World>, n: nat, e: Id)
    requires IsRun(run) && n < |run| && e != NONE
    ensures AccountsOk(run[n].shared, e)
  {
    hide *;
    if n == 0 {
      RunStart(run);
      NoAccounts(e);
    } else {
      RunAccounts(run, n - 1, e);
      var step, x := RunStep(run, n - 1);
      InvParts(run[n - 1]);
      StepAllowed(run[n - 1], step, x);
      EffectAccounts(run[n - 1].shared, x, e);
    }
  }

  lemma NoAccounts(e: Id)
    ensures AccountsOk(EMPTY_WORLD.shared, e)
  {
  }

  lemma ReachableAccounts(w: World, e: Id)
    requires Reachable(w) && e in w.shared.db.envs
    ensures AccountsOk(w.shared, e) && Inv(w)
  {
    hide Inv, AccountsOk;
    var run :| IsRun(run) && run[|run| - 1] == w;
    ReachableInv(w);
    assert e != NONE by { InvParts(w); NoEnvironmentIsNone(w.shared); }
    RunAccounts(run, |run| - 1, e);
  }

  /** Revision equals API audit rows plus runner commits, job rows equal the audit rows that announce
      a job, and so the revision has a closed form. */
  lemma RevisionIsConserved(w: World, e: Id)
    requires Reachable(w) && e in w.shared.db.envs
    ensures var s := w.shared; var env := s.db.envs[e];
            && |JobsOf(s, e)| == Count(s.db.audit, JobRequestsIn(e))
            && env.revision == Count(s.db.audit, JobRequestsIn(e)) + Count(s.db.audit, ApprovalsIn(e)) + |SettledOf(s, e)|
            && env.revision == 2 * Count(s.db.audit, JobRequestsIn(e)) + Count(s.db.audit, ApprovalsIn(e))
                               - (if IsEnvironmentBusy(env.status) then 1 else 0)
  {
    hide Reachable, Inv;
    ReachableAccounts(w, e);
    InvParts(w);
    AllButLastSettled(w.shared, e);
  }

  lemma AllButLastSettled(s: Shared, e: Id)
    requires RowsOk(s) && SettledOk(s) && OnlyLastUnsettled(s) && e in s.db.envs
    ensures |JobsOf(s, e)| == |SettledOf(s, e)| + (if IsEnvironmentBusy(s.db.envs[e].status) then 1 else 0)
  {
    hide JobOk, StatusOk, ArtifactOk;
    var env := s.db.envs[e];
    assert EnvOk(s, env);
    if IsEnvironmentBusy(env.status) {
      OneMore(SettledOf(s, e), env.lastJob, JobsOf(s, e));
    } else {
      assert JobsOf(s, e) == SettledOf(s, e);
    }
  }

  /** Retries ever committed for an environment are its retry count, never more than 3 across any mix
      of later plans and destroys, and they bound every job's own retry count. */
  lemma RetriesAreBounded(w: World, e: Id)
    requires Reachable(w) && e in w.shared.db.envs
    ensures var s := w.shared;
            && Count(s.db.audit, RetriesIn(e)) == s.db.envs[e].retryCount <= s.db.envs[e].maxRetries == 3
            && forall j :: j in s.db.jobs && s.db.jobs[j].env == e ==> s.db.jobs[j].retryCount <= s.db.envs[e].retryCount
  {
    hide Reachable, Inv;
    ReachableAccounts(w, e);
  }

  /** The revision never exceeds 20 plus 5 for every plan and destroy request. */
  lemma RevisionIsBounded(w: World, e: Id)
    requires Reachable(w) && e in w.shared.db.envs
    ensures w.shared.db.envs[e].revision <= 20 + 5 * Count(w.shared.db.audit, PlanRequestsIn(e))
  {
    hide Reachable, Inv;
    ReachableAccounts(w, e);
  }

  /** A request that loses the compare-and-set, or is refused, leaves no job, no audit row and no
      other trace: either all three writes of its bundle happen, or none. */
  lemma AllOrNothing(w: World, k: nat, id: Id, now: nat)
    requires Reachable(w) && Enabled(w, CommitRequest(k, id, now))
    ensures var p := w.requests[k];
            var d := Decide(p.env, p.job, p.rq, id, now);
            var s, s' := w.shared, Exec(w, CommitRequest(k, id, now)).shared;
            if d.Commit? && p.rq.env in s.db.envs && p.env == s.db.envs[p.rq.env]
            then
              && s'.db.envs == s.db.envs[p.rq.env := d.env]
              && s'.db.jobs == (if d.job.Some? then s.db.jobs[d.job.value.id := d.job.value] else s.db.jobs)
              && s'.db.audit == s.db.audit + [d.event]
            else s' == s
  {
    hide Reachable, StoreOk, RunnersOk, SnapshotOk, LegacyOk, Decide;
    ReachableInv(w);
    SnapshotHolds(w, k);
    SnapshotFacts(w.shared, w.requests[k]);
    var p := w.requests[k];
    if Decide(p.env, p.job, p.rq, id, now).Commit? {
      DecisionShape(p.env, p.job, p.rq, id, now);
    }
  }

  lemma SnapshotFacts(s: Shared, p: Pending)
    requires SnapshotOk(s, p)
    ensures p.env.id == p.rq.env && p.env.id in s.db.envs
    ensures p.env.revision == s.db.envs[p.env.id].revision ==> p.env == s.db.envs[p.env.id]
  {
  }
}
