/** Counting audit rows. */
module History {
  import opened Domain

  // The questions asked of the audit table.
  datatype Query =
    | ApprovalsOf(plan: Id)         // environment.approved rows naming a plan job
    | ApprovalsIn(env: Id)          // environment.approved rows of an environment
    | JobRequestsIn(env: Id)        // rows written together with a new job
    | PlanRequestsIn(env: Id)       // plan and destroy requests
    | RetriesIn(env: Id)

  predicate Matches(event: AuditEvent, q: Query) {
    match q
    case ApprovalsOf(plan) => event.action.PlanApproved? && event.action.plan == plan
    case ApprovalsIn(env) => event.env == env && event.action.PlanApproved?
    case JobRequestsIn(env) => event.env == env && AddsJob(event.action)
    case PlanRequestsIn(env) => event.env == env && (event.action.PlanRequested? || event.action.DestroyRequested?)
    case RetriesIn(env) => event.env == env && event.action.RetryRequested?
  }

  predicate AddsJob(action: Action) {
    action.EnvironmentCreated? || action.PlanRequested? || action.ApplyRequested?
    || action.RetryRequested? || action.DestroyRequested?
  }

  function Count(audit: seq<AuditEvent>, q: Query): nat {
    if audit == [] then 0
    else Count(audit[..|audit| - 1], q) + (if Matches(audit[|audit| - 1], q) then 1 else 0)
  }

  lemma CountAppend(audit: seq<AuditEvent>, event: AuditEvent)
    ensures forall q :: Count(audit + [event], q) == Count(audit, q) + (if Matches(event, q) then 1 else 0)
  {
    assert (audit + [event])[..|audit|] == audit;
  }
}
