/** What clients are told: every answer of the split system is one the atomic handler gives at some
    moment while the request is open, or says that another writer came first. */
module Responses {
  import opened Wrappers
  import opened Domain
  import opened Validation
  import opened Store
  import opened Handlers
  import opened RunnerLoop
  import opened Protocol
  import opened Safety
  import opened RunnerSteps
  import opened Preservation
  import opened Effects
  import opened Guarantees

  datatype Answer = Accepted | Refused(reason: Reason) | Conflict

  // The answer to a request that has read its rows, should it commit now.
  function AnswerTo(s: Shared, p: Pending, id: Id, now: nat): Answer
    requires p.RowsRead?
  {
    match Decide(p.env, p.job, p.rq, id, now)
    case Reject(reason) => Refused(reason)
    case Commit(env, _, _) => if CasHolds(s.db, env) then Accepted else Conflict
  }

  // The step changes the tables exactly as the answer says.
  lemma AnswerIsCarriedOut(w: World, k: nat, id: Id, now: nat)
    requires Enabled(w, CommitRequest(k, id, now))
    ensures var p := w.requests[k];
            var d := Decide(p.env, p.job, p.rq, id, now);
            var s' := Exec(w, CommitRequest(k, id, now)).shared;
            if AnswerTo(w.shared, p, id, now) == Accepted
            then s' == w.shared.(db := Bundle(w.shared.db, d.env, d.job, d.event))
            else s' == w.shared
  {
    hide Decide, Bundle;
  }

  // ---------- A request's history ----------

  // The request at k arrived in world m and has been open since; m is where its environment row is from.
  ghost predicate OpenSince(run: seq<World>, m: nat, n: nat, k: nat)
    requires m < n < |run| && k in run[n].requests
  {
    var p := run[n].requests[k];
    && k !in run[m].requests
    && (forall i :: m < i <= n ==> k in run[i].requests && run[i].requests[k].rq == p.rq)
    && p.rq.env in run[m].shared.db.envs && p.env == run[m].shared.db.envs[p.rq.env]
  }

  // Its job row is from world q.
  ghost predicate JobReadAt(run: seq<World>, q: nat, n: nat, k: nat)
    requires q < n < |run| && k in run[n].requests && run[n].requests[k].RowsRead?
  {
    var p := run[n].requests[k];
    p.job == LookupJob(run[q].shared.db, JobToRead(p.env, p.rq.body))
  }

  // What a step has left of the request at k, from one world to the next.
  ghost predicate Kept(w: World, w': World, k: nat)
    requires k in w'.requests
  {
    var p := w'.requests[k];
    || (k !in w.requests && p.EnvRead? && p.rq.env in w.shared.db.envs && p.env == w.shared.db.envs[p.rq.env])
    || (k in w.requests && p == w.requests[k])
    || (k in w.requests && p.RowsRead? && p.rq == w.requests[k].rq && p.env == w.requests[k].env
        && p.job == LookupJob(w.shared.db, JobToRead(p.env, p.rq.body)))
  }

  lemma StepKeepsRequest(w: World, step: Step, k: nat)
    requires Enabled(w, step) && k in Exec(w, step).requests
    ensures Kept(w, Exec(w, step), k)
  {
    hide CreateDecision, Decide, LegacyJob, DerivedJob, Bundle, Advance;
  }

  lemma HistoryBegins(run: seq<World>, n: nat, k: nat)
    requires n + 1 < |run| && k in run[n + 1].requests && k !in run[n].requests && Kept(run[n], run[n + 1], k)
    ensures OpenSince(run, n, n + 1, k) && run[n + 1].requests[k].EnvRead?
  {
  }

  lemma HistoryGoesOn(run: seq<World>, m: nat, q: nat, n: nat, k: nat) returns (q': nat)
    requires m < n < n + 1 < |run| && k in run[n + 1].requests && k in run[n].requests && Kept(run[n], run[n + 1], k)
    requires OpenSince(run, m, n, k) && (run[n].requests[k].RowsRead? ==> m < q < n && JobReadAt(run, q, n, k))
    ensures OpenSince(run, m, n + 1, k)
    ensures run[n + 1].requests[k].RowsRead? ==> m < q' < n + 1 && JobReadAt(run, q', n + 1, k)
  {
    hide JobToRead, LookupJob;
    q' := if run[n + 1].requests[k] == run[n].requests[k] then q else n;
  }

  lemma NoneAtFirst(run: seq<World>, k: nat)
    requires IsRun(run)
    ensures k !in run[0].requests
  {
    RunStart(run);
  }

  // The worlds an open request's rows are from.
  lemma {:induction false} RowsReadIn(run: seq<World>, n: nat, k: nat) returns (m: nat, q: nat)
    requires IsRun(run) && n < |run| && k in run[n].requests
    ensures m < n && OpenSince(run, m, n, k)
    ensures run[n].requests[k].RowsRead? ==> m < q < n && JobReadAt(run, q, n, k)
  {
    hide *;
    NoneAtFirst(run, k);
    if n > 0 {
      var step, x := RunStep(run, n - 1);
      StepKeepsRequest(run[n - 1], step, k);
      if k in run[n - 1].requests {
        m, q := RowsReadIn(run, n - 1, k);
        q := HistoryGoesOn(run, m, q, n - 1, k);
      } else {
        HistoryBegins(run, n - 1, k);
        m, q := n - 1, 0;
      }
    }
  }

  // ---------- The answers ----------

  // A final job row is the same whenever it is read later.
  lemma FinalRowStays(s: Shared, s': Shared, j: Id)
    requires Monotone(s, s')
    requires LookupJob(s.db, j).Some? && (LookupJob(s.db, j).value.status == Done || LookupJob(s.db, j).value.status == Broken)
    ensures LookupJob(s'.db, j) == LookupJob(s.db, j)
  {
  }

  // Approve and apply look at the job row only when it is final.
  lemma LooksAtFinalRow(s: Shared, rq: Request, other: Option<Job>, id: Id, now: nat)
    requires rq.env in s.db.envs && RowFacts(s, rq.env) && (rq.body.ApproveBody? || rq.body.ApplyBody?)
    ensures var env := s.db.envs[rq.env];
            var job := LookupJob(s.db, JobToRead(env, rq.body));
            || (job.Some? && job.value.status == Done)
            || Decide(env, other, rq, id, now) == DecideNow(s, rq, id, now)
  {
    hide Validate, Normalize, ArtifactOk, Clean;
  }

  // Whatever is accepted on the rows of one moment is accepted with the job row read later.
  lemma LaterRowDecides(s: Shared, s': Shared, rq: Request, id: Id, now: nat)
    requires Monotone(s, s') && rq.env in s.db.envs && RowFacts(s, rq.env)
    ensures var env := s.db.envs[rq.env];
            var late := Decide(env, LookupJob(s'.db, JobToRead(env, rq.body)), rq, id, now);
            && (DecideNow(s, rq, id, now).Commit? ==> late == DecideNow(s, rq, id, now))
            && (!rq.body.RetryBody? ==> late == DecideNow(s, rq, id, now))
  {
    hide RowFacts, Monotone, LookupJob, PlanDecision, ApproveDecision, ApplyDecision, RetryDecision, DestroyDecision;
    var env := s.db.envs[rq.env];
    var j := JobToRead(env, rq.body);
    if DecideNow(s, rq, id, now).Commit? {
      UsesFinalRow(env, LookupJob(s.db, j), rq, id, now);
    }
    if rq.body.ApproveBody? || rq.body.ApplyBody? {
      LooksAtFinalRow(s, rq, LookupJob(s'.db, j), id, now);
    }
    if LookupJob(s.db, j).Some? && (LookupJob(s.db, j).value.status == Done || LookupJob(s.db, j).value.status == Broken) {
      FinalRowStays(s, s', j);
    }
  }

  // What an answer says, given the world m the request arrived in and the world it is answered in.
  ghost predicate Justified(before: Shared, s: Shared, p: Pending, id: Id, now: nat)
    requires p.RowsRead? && p.rq.env in before.db.envs && p.rq.env in s.db.envs
  {
    match AnswerTo(s, p, id, now)
    case Accepted =>
      && s.db.envs[p.rq.env] == before.db.envs[p.rq.env]
      && DecideNow(s, p.rq, id, now) == Decide(p.env, p.job, p.rq, id, now)
    case Refused(reason) =>
      && DecideNow(before, p.rq, id, now).Reject?
      && (!p.rq.body.RetryBody? ==> DecideNow(before, p.rq, id, now) == Reject(reason))
    case Conflict => s.db.envs[p.rq.env].revision > before.db.envs[p.rq.env].revision
  }

  lemma AnswerIsJustified(before: Shared, s: Shared, p: Pending, id: Id, now: nat)
    requires p.RowsRead? && SnapshotOk(s, p) && p.rq.env in before.db.envs && p.env == before.db.envs[p.rq.env]
    requires DecideNow(before, p.rq, id, now).Commit? ==> Decide(p.env, p.job, p.rq, id, now) == DecideNow(before, p.rq, id, now)
    requires !p.rq.body.RetryBody? ==> Decide(p.env, p.job, p.rq, id, now) == DecideNow(before, p.rq, id, now)
    ensures p.rq.env in s.db.envs && Justified(before, s, p, id, now)
  {
    hide Decide, DecideNow, FinalRow;
    if Decide(p.env, p.job, p.rq, id, now).Commit? {
      DecisionShape(p.env, p.job, p.rq, id, now);
      if CasHolds(s.db, Decide(p.env, p.job, p.rq, id, now).env) {
        RowsCurrent(s, p, id, now);
      }
    }
  }

  lemma RowsCurrent(s: Shared, p: Pending, id: Id, now: nat)
    requires SnapshotOk(s, p) && p.RowsRead?
    requires Decide(p.env, p.job, p.rq, id, now).Commit? && CasHolds(s.db, Decide(p.env, p.job, p.rq, id, now).env)
    ensures p.env == s.db.envs[p.rq.env]
    ensures DecideNow(s, p.rq, id, now) == Decide(p.env, p.job, p.rq, id, now)
  {
    hide Decide;
    RowsStillCurrent(s, p, id, now);
  }

  /** Every answer is justified by a moment at which the request was open. An acceptance is what the
      atomic handler decides on the rows stored at the commit, with the environment untouched since the request arrived. A refusal is what it decides on the rows
      stored when the request arrived, with the same reason unless the request is a retry. A conflict
      says truly that the environment was changed in between. */
  lemma AnswersAreAtomic(run: seq<World>, n: nat, k: nat, id: Id, now: nat) returns (m: nat)
    requires IsRun(run) && n < |run| && Enabled(run[n], CommitRequest(k, id, now))
    ensures k in run[n].requests && run[n].requests[k].RowsRead?
    ensures m < n && OpenSince(run, m, n, k)
    ensures run[n].requests[k].rq.env in run[n].shared.db.envs
    ensures Justified(run[m].shared, run[n].shared, run[n].requests[k], id, now)
  {
    assert k in run[n].requests && run[n].requests[k].RowsRead?;
    hide IsRun, Enabled, Inv, Monotone, RowFacts, Decide, DecideNow, JobToRead, LookupJob, SnapshotOk, Justified;
    var q: nat;
    m, q := RowsReadIn(run, n, k);
    var p := run[n].requests[k];
    RunIsMonotone(run, m, q);
    RunKeepsInv(run, m);
    RunKeepsInv(run, n);
    StoredFacts(run[m], p.rq.env);
    LaterRowDecides(run[m].shared, run[q].shared, p.rq, id, now);
    SnapshotIn(run[n], k);
    AnswerIsJustified(run[m].shared, run[n].shared, p, id, now);
  }

  lemma SnapshotIn(w: World, k: nat)
    requires Inv(w) && k in w.requests
    ensures SnapshotOk(w.shared, w.requests[k])
  {
    hide StoreOk, RunnersOk, SnapshotOk;
  }
}
