/** The entities of internal/domain and the lifecycle guards of environment_lifecycle.go.

    Identifiers are natural numbers standing for uuid strings; NONE stands for the empty string.
    A working directory is named by the job it was created for, so it is such an identifier too. */
module Domain {

  type Id = nat
  const NONE: Id := 0

  // Go's int on the platforms the programs are built for.
  type Int64 = n: int | -0x8000_0000_0000_0000 <= n < 0x8000_0000_0000_0000

  datatype Network = Network(name: string, cidr: string)
  datatype Subnet = Subnet(name: string, cidr: string, gatewayIp: string, enableDhcp: bool)
  datatype Instance = Instance(name: string, image: string, flavor: string, sshKeyName: string, count: Int64)
  datatype EnvironmentSpec = EnvironmentSpec(
    environmentName: string, tenantName: string, network: Network, subnet: Subnet,
    instances: seq<Instance>, securityGroups: seq<string>)

  // The operation is an open string in the source: any value other than the three known ones is Other.
  datatype Operation = Create | Update | Destroy | Other(name: string)

  datatype EnvironmentStatus =
    | Draft | Planning | PendingApproval | Approved | Applying | Active | Destroying | Destroyed | Failed

  datatype ApprovalStatus = NotRequested | Pending | Granted

  // planPath is "" or the constant ".infra-orch/plan/plan.bin".
  datatype PlanPath = NoPlan | PlanBin

  // The error text of a job or an environment, by what it says; the rest are words of the outside world.
  datatype Failure =
    | NoFailure
    | ApplyWithoutSource | SourceNotLoaded | SourceNotDonePlan | SourceWithoutArtifact
    | DestroyWithoutEnvironment | EnvironmentNotLoaded | NoAppliedWorkdir | MetadataNotSaved
    | SpecRefused | PlanFileMissing
    | OutsideFailure(text: string)

  datatype Environment = Environment(
    id: Id, name: string, status: EnvironmentStatus, operation: Operation, approval: ApprovalStatus,
    spec: EnvironmentSpec, createdBy: Id, approvedBy: Id,
    lastPlanJob: Id, lastApplyJob: Id, lastJob: Id, lastError: Failure,
    retryCount: nat, maxRetries: nat, workdir: Id, planPath: PlanPath, outputs: string, revision: nat)

  datatype JobType = EnvironmentCreate | Plan | Apply
  datatype JobStatus = Queued | Running | Done | Broken

  datatype Job = Job(
    id: Id, typ: JobType, status: JobStatus, createdAt: nat, env: Id, operation: Operation,
    spec: EnvironmentSpec, template: string, workdir: Id, planPath: PlanPath, outputs: string,
    source: Id, retryCount: nat, maxRetries: nat, requestedBy: Id, error: Failure)

  datatype User = User(id: Id, isAdmin: bool)

  datatype Action =
    | EnvironmentCreated(job: Id)
    | PlanRequested(job: Id, operation: Operation)
    | PlanApproved(plan: Id, comment: string)
    | ApplyRequested(job: Id)
    | RetryRequested(job: Id)
    | DestroyRequested(job: Id, confirmation: string, comment: string)
    | JobSucceeded(job: Id)
    | JobFailed(job: Id, error: Failure)
    | JobIgnored(job: Id)
    | JobConflict(job: Id)

  datatype AuditEvent = AuditEvent(env: Id, actor: Id, action: Action)

  predicate IsEnvironmentBusy(status: EnvironmentStatus) {
    match status
    case Planning => true
    case Applying => true
    case Destroying => true
    case _ => false
  }

  predicate CanQueuePlan(status: EnvironmentStatus, operation: Operation) {
    if IsEnvironmentBusy(status) then false
    else match operation
      case Create => status == Draft || status == Destroyed
      case Update => status != Draft && status != Destroyed
      case _ => false
  }

  predicate CanApprovePlan(status: EnvironmentStatus, approval: ApprovalStatus) {
    status == PendingApproval && approval == Pending
  }

  predicate CanQueueApply(status: EnvironmentStatus, approval: ApprovalStatus, operation: Operation) {
    if status != Approved || approval != Granted then false
    else match operation
      case Create => true
      case Update => true
      case Destroy => true
      case Other(_) => false
  }

  predicate CanQueueDestroy(status: EnvironmentStatus) {
    !IsEnvironmentBusy(status) && status != Destroyed
  }

  predicate CanRetry(status: EnvironmentStatus) {
    status == Failed
  }
}
