# Verified model of the environment orchestrator

A Dafny 4.11 model of the parts of the repository where a mistake would be hardest to see, with
proofs of what those parts are for. `dafny verify dfyconfig.toml` checks all of it.

## What is modelled

**The environment lifecycle as a concurrent protocol.** Request handlers read an environment row,
then a job row, check their guards and commit with a compare-and-set on `revision`, in one transaction
with a job insert and an audit insert. Runners claim jobs, write plan files, finish the job row and
then update the environment with the same compare-and-set. `Protocol` interleaves any number of both,
one store access at a time, with runners that may stop anywhere. `Safety` states the invariant,
`Preservation` proves it over every run, and the following modules draw the consequences:

- `Guarantees`: an apply runs the plan that was approved; one job in flight; a busy row is frozen; no
  result is dropped; what each route accepts, exactly; legacy routes stay away from environments.
- `Ledger`: revision, jobs, retries and audit rows account for each other, and the revision is bounded.
- `Provenance`: how an environment comes to be destroyed and how it leaves that state.
- `Commits`: the rows every request leaves, field by field, and why the others are refused.
- `Passes`: the rows one pass of the runner leaves, for every outcome of its commands; `Results`: what an
  environment shows is its last job's result, and where errors come from.
- `Progress`: the approval gate can always be passed; a runner that does not stop always brings its job
  to an end; `Crashes`: one that stops leaves its environment busy for ever.
- `Refinement`: the split handlers reach exactly the shared states that atomic handlers reach.
- `Responses`: every answer a client gets is one the atomic handler gives while the request is open.
- `RetriedDestroy`: a retried destroy plan can never succeed.
- `Scenarios`: runs that reach the states these results speak of, from creation to destruction.
- `ClaimOrder`, `SqliteStore`: the order of claims in both stores.

The handlers, the runner and the store are there as the imperative programs they are (`Api`,
`RunnerProgram`, `Store`), each proved to compute the decision or the moves that the protocol
interleaves (`Handlers`, `RunnerLoop`).

**Codecs.** `Frames` holds both ends of the WebSocket connection (sections 5.2 and 5.3 of RFC 6455),
`FrameBytes` what they do bit by bit. `SqlText` holds string literals as written and as lexed
(section 9.1.1 of the MySQL 8.0 Reference Manual). `Base64` and `RowChannel` hold the text channel through which rows come back (section 4 of
RFC 4648).

**Log streaming.** `LogTail`: the bytes read for a subscriber are the growth of the files, and the text
the subscriber receives equals the file if and only if the log is UTF-8 (`Utf8`, section 4 of RFC 3629)
and every stored offset fell on a character boundary.

**Address arithmetic and spec validation.** `DottedDecimal` says which texts are addresses and prefixes and
what they denote; `Checks` which error is reported. `IPv4`, `Validation`, `Wizard`: the server's and the
browser wizard's checks, written differently, both mean inclusion of address sets. They part where
the server's total of instance counts wraps around, and on notations that only the wizard reads.

### Representation

Identifiers are natural numbers, 0 for the empty string. A workdir is named by the job it was made for.
The plan path is a constant in the source, so it is present or absent. Error texts are represented by what
they say, and the words of commands as they are. Times are natural numbers. A new
uuid is an identifier the store does not hold. Passwords, e-mail addresses and log directories play no part.
Commands run by the runner succeed or fail as an outside choice; `plans` records who last wrote a workdir's
plan file. One piece of history is kept beside the rows: which jobs' results have reached their
environment. Instance counts are 64-bit integers. Proofs hide the definitions they do not need (`hide`),
which keeps them quick.

### Where the code and its promises part

- A retried destroy plan cannot succeed: retry clears the environment's workdir and a destroy plan needs
  it. More generally a destroy plan is prepared if and only if its environment still has a workdir. Such
  a retry is reached (`RetriedDestroyPlanIsReached`).
- If the write that marks a job failed is lost, the environment is failed but its last job is not, and
  retry is never accepted for it (`RetryAcceptedWhen`, `LostWriteIsReached`).
- An unknown operation can be planned and approved, and never applied (`ApplyAcceptedWhen`,
  `UnknownOperationIsReached`).
- The limit of two instances in all does not hold for counts whose sum exceeds 2^63 - 1: the total wraps
  around to a negative number and the spec is accepted, while the wizard flags it (`AcceptedMeansWellFormed`,
  `WizardAgreesWithServer`, `OverflowIsAccepted`).
- What follows a second slash in a prefix the wizard ignores and the server refuses (`WizardIgnoresTail`).
- The validator's rejection of a blank SSH key name never reaches a caller, since every route normalizes
  first (`NormalizeFirst`, `BlankKeyVanishes`).
- A runner that stops leaves its environment busy for ever: nothing takes its job up again (`CrashLeavesBusy`).
- A character of a log file that is split between two ticks reaches the subscriber as replacement
  characters, since each chunk is encoded as JSON on its own (`SubscriberSeesTheFile`,
  `SplitCharacterIsLost`).
- Rows whose columns are all empty vanish from the row channel, and the bytes `35 42 CB` (hex) arrive as
  nothing; all else arrives (`RowRoundTrip`).
- SQLite's text order of timestamps inverts two times exactly when they fall in the same second and the
  earlier one's printed fraction is a proper prefix of the later one's (`TextOrder`, `TimesSortInverted`).

## Model

| member | source | states |
|---|---|---|
| Preservation.StepKeepsInv | cmd/runner/main.go:84-260 | every step of every participant, taken at any moment by any of them, keeps the system invariant |
| Preservation.RunKeepsInv | internal/api/environments.go:329-803 | the invariant holds in every world of every run, for any number of requests and runners |
| Preservation.RowsStillCurrent | internal/storage/mysql/store.go:1013-1079 | if the compare-and-set succeeds, the environment row read earlier is the stored one, and deciding again on the rows stored now gives the same decision: no lost update, no ABA |
| Effects.StepEffect | internal/api/environments.go:329-803 | whatever a step does to the shared state is one of seven kinds of write, each within the lifecycle's rules for status, approval, attempt state, retry count and the new job; requests were decided on the rows stored at that moment |
| Guarantees.ApplyRunsItsPlan | cmd/runner/main.go:103-147 | whenever a runner is about to apply, the plan file in its workdir was last written by the job's source plan, which is done, of the same environment, operation and spec, and approved exactly once; so the missing-file check cannot fail |
| Guarantees.PlanIsAppliedOnce | internal/api/environments.go:501-608 | of all apply jobs with one plan as source, retries included, at most one ever succeeds |
| Guarantees.PlanIsApprovedAtMostOnce | internal/api/environments.go:419-499 | a plan is approved at most once over any run, and only after its result reached the environment |
| Guarantees.OneJobInFlight | internal/domain/environment_lifecycle.go:3-48 | an environment is busy exactly while its last job's result is outstanding; no other job of it is outstanding; draft and destroying are never reached |
| Guarantees.BusyRowIsFrozen | internal/storage/mysql/store.go:687-715 | while an environment is busy, the only step that changes its row is the final update of the runner that holds its last job |
| Guarantees.ResultsAreNeverDropped | cmd/runner/main.go:402-522 | a runner that reports a result finds its job still named by the environment and wins the compare-and-set; the stale-ignored and conflict branches are never taken |
| Guarantees.PlanAcceptedWhen | internal/api/environments.go:53-81 | plan is accepted if and only if the spec, if given, is acceptable, the environment is not busy, the operation, which unless named is create in state destroyed and update in any other, is not destroy and is create exactly in state destroyed, and the revision is as expected; a stored spec is always acceptable |
| Guarantees.ApproveAcceptedWhen | internal/api/environments.go:438-466 | approve is accepted if and only if an admin asks in state pending_approval at the expected revision: the plan job is then always there and done |
| Guarantees.ApplyAcceptedWhen | internal/api/environments.go:519-553 | apply is accepted if and only if an admin asks in state approved at the expected revision for a known operation: the artifact is then always ready |
| Guarantees.RetryAcceptedWhen | internal/api/environments.go:628-660 | retry is accepted if and only if the environment and its last job are failed, budget is left, and the caller may retry that kind of job |
| Guarantees.DestroyAcceptedWhen | internal/api/environments.go:745-757 | destroy is accepted if and only if an admin confirms the name in a state neither busy nor destroyed, at the expected revision |
| Guarantees.UninterruptedRequest | internal/api/environments.go:329-803 | a request nobody interrupts commits all writes of the decision on the current rows, or nothing |
| Commits.PlanWithoutOperation | internal/api/environments.go:53-58 | in every reachable state, a plan request that names neither operation nor spec commits if and only if the environment is not busy and the revision is as expected; the row and the job stored then say create if it was destroyed and update otherwise |
| Commits.PlanCommits | internal/api/environments.go:329-383 | every field of the environment row, the job row and the audit row that a committed plan request leaves, in terms of the row before it and the request |
| Commits.ApproveCommits | internal/api/environments.go:467-484 | a committed approval changes approval, status, approver and revision only, and records which plan it approved |
| Commits.ApplyCommits | internal/api/environments.go:553-585 | a committed apply queues the approved plan's row over again, its workdir, plan path, template, spec and operation included, as a new apply of it, stamped and owned by the request |
| Commits.RetryCommits | internal/api/environments.go:661-690 | a committed retry queues the failed job over again, stamped when it was asked for, without its error, counted once more and owned by who asked; the environment row forgets the attempt |
| Commits.DestroyCommits | internal/api/environments.go:758-783 | a committed destroy request queues a destroy plan of the stored spec; the environment keeps spec, name and workdir |
| Commits.CreateCommits | internal/api/environments.go:195-238 | a spec whose normalized form is valid is stored normalized with a first plan and an audit row; any other leaves nothing |
| Commits.LegacyCreates | internal/api/jobs.go:21-64 | a job of its own is inserted exactly for a valid spec and a type other than apply, with the spec normalized |
| Commits.DerivedIs | internal/api/jobs.go:166-297 | a derived job is its source over again under a new name, and exists if and only if the source has no environment, its spec is valid and, for an apply, it is a done plan with an artifact and the user an admin |
| Commits.AcceptedOnAnyRows | internal/api/environments.go:329-757 | on any rows, reachable or not, each route accepts if and only if the listed conditions hold |
| Commits.RefusedBecause | internal/api/environments.go:60-122 | the reason a refused request is given in a reachable state; five of the source's reasons are never given there |
| Commits.AnswerIsDecision | internal/api/environments.go:419-437 | the routes for admins refuse others before they look for the environment, the other routes after it |
| Guarantees.RunIsMonotone | internal/storage/mysql/store.go:1013-1079 | between any two worlds of a run, a changed environment row has a larger revision, claimed jobs are never queued again, done and failed job rows never change |
| Guarantees.NoJobIsClaimedTwice | internal/storage/mysql/store.go:364-404 | no job is claimed by two claims of a run |
| Guarantees.LegacyRoutesLeaveEnvironments | internal/api/jobs.go:166-260 | the legacy job routes change no environment, no existing job and no audit row, and add only jobs without an environment |
| Progress.GateOpens | internal/api/environments.go:419-608 | from every reachable state in which a plan of a known operation waits, an admin's approve and apply, each uninterrupted, reach a state with an apply job of that very plan queued |
| Progress.RunnerProgresses | cmd/runner/main.go:95-259 | every move of a runner holding an environment job lowers its distance to the end, still holding the job, or settles the job, after which the environment is not busy with it |
| Progress.NineMovesSettle | cmd/runner/main.go:95-259 | in any run, whatever everybody else does in between, a runner that makes nine moves without stopping has settled the environment job it held, and its environment is not busy with it |
| Progress.NobodyHindersARunner | cmd/runner/main.go:84-94 | no step of anybody else changes what a busy runner is doing |
| Crashes.CrashLeavesBusy | cmd/runner/main.go:84-94 | after a runner stops while it holds a job of an environment, that environment is busy with that job in every later world of the run: no participant changes it |
| Ledger.RevisionIsConserved | internal/storage/mysql/store.go:670-740 | an environment's revision equals its API audit rows plus its runner commits, its job rows equal the audit rows that announce a job, and the revision is 2 jobs + approvals, less one while busy |
| Ledger.RetriesAreBounded | internal/api/environments.go:653-671 | retries ever committed equal the retry count, which never exceeds 3 across any mix of plans and destroys and bounds every job's own count |
| Ledger.PotentialFalls | cmd/runner/main.go:422-500 | every commit other than a plan or destroy request strictly lowers 5 x remaining retries + status rank |
| Ledger.RevisionIsBounded | internal/api/environments.go:209-222 | the revision never exceeds 20 + 5 x (plan and destroy requests) |
| Ledger.AllOrNothing | internal/storage/mysql/store.go:941-972 | a request commits environment, job and audit row together exactly when the row it read is still current; a refused or late one leaves no trace |
| Provenance.EventOrigin | internal/storage/mysql/store.go:1098-1116 | every audit row was appended by one step of the run, after exactly the rows before it |
| Provenance.DestroyedMeansConfirmedAndApproved | internal/api/environments.go:721-783 | a destroyed environment got there by a done destroy apply of a destroy plan that was itself created by an admin's destroy request matching the environment's name at that step, and approved by an admin at a later step while it was pending |
| Provenance.DestroyedByItsApply | cmd/runner/main.go:492-498 | the only step into destroyed is the success report of a done destroy apply that is the environment's last job |
| Provenance.DestroyedIsLeftByCreatePlan | internal/api/environments.go:60-81 | the only step out of destroyed is a committed plan request with operation create |
| Refinement.StepIsSimulated | internal/api/environments.go:329-803 | each step of the split system leads to the state of a step of the system with atomic handlers and reports, or is invisible in it |
| Responses.AnswersAreAtomic | internal/api/environments.go:329-803 | in any run: a request is accepted only with the environment row untouched since it arrived and with the decision on the rows stored at its commit; it is refused only if the atomic handler refuses it on the rows stored when it arrived, for the same reason unless it is a retry; it is told of a conflict only if the environment's revision grew in between |
| Responses.AnswerIsCarriedOut | internal/storage/mysql/store.go:687-740 | the commit step writes the whole bundle exactly when the answer is acceptance, and nothing otherwise |
| Refinement.RunIsSimulated | internal/storage/mysql/store.go:687-740 | every interleaved run is simulated by an atomic run that ends in the same tables, plan files and runners |
| Refinement.AtomicRunIsReached | internal/api/environments.go:329-803 | every state of an atomic run is reached by the split system |
| Refinement.SameSharedStates | internal/storage/mysql/store.go:1013-1079 | the split and the atomic system reach exactly the same shared states |
| RetriedDestroy.RetriedDestroyPlanNeverSucceeds | internal/api/environments.go:661-680 | in no run is a retried destroy plan ever done; a runner that starts one fails it before preparing a workdir |
| RetriedDestroy.DestroyPlanNeedsWorkdir | cmd/runner/main.go:263-283 | a destroy plan is prepared if and only if its environment has a workdir when the runner takes it up |
| Scenarios.RetriedDestroyPlanIsReached | internal/api/environments.go:653-680 | a run from creation over an applied plan and a failed destroy plan to a runner that takes up the retry of that destroy plan |
| Scenarios.LostWriteIsReached | cmd/runner/main.go:402-447 | a run that ends with a failed environment whose last job is still running; retry is refused for every user |
| Scenarios.UnknownOperationIsReached | internal/domain/environment_lifecycle.go:31-41 | a run that ends with an approved plan of an unknown operation; apply is refused for every user |
| Scenarios.DestroyedIsReached | cmd/runner/main.go:492-498 | a run that creates an environment, applies its plan and destroys it |
| ClaimOrder.ClaimedInTurn | internal/storage/mysql/store.go:364-404 | a job with k older queued jobs stays queued through k claims and is taken by exactly the next one, when stamps are distinct and later jobs are stamped later |
| SqliteStore.TextOrder | internal/storage/sqlite/store.go:102-127 | stored timestamp text sorts an earlier time first unless both share the second and the earlier's printed fraction is a proper prefix of the later's; then the later sorts first |
| Examples.TimesSortInverted | internal/storage/sqlite/store.go:102-127 | 2024-01-01T00:00:00Z, as printed, sorts after 2024-01-01T00:00:00.5Z |
| SqliteStore.Store.ClaimNextQueuedJob | internal/storage/sqlite/store.go:222-284 | takes a queued job of least stored text and marks it running, or nothing when none is queued; the guarded update cannot lose within its transaction |
| Store.Database.ClaimNextQueuedJob | internal/storage/mysql/store.go:364-404 | takes a queued job with the least creation time and marks it running, changing nothing else; nothing when none is queued |
| Store.Database.CreateEnvironmentWithJobAndAudit | internal/storage/mysql/store.go:670-685 | all three rows or, on a duplicate key, none |
| Store.Database.UpdateEnvironmentWithJobAndAudit | internal/storage/mysql/store.go:687-715 | all three writes exactly when the stored revision is the new one less one; otherwise nothing changes |
| Store.Database.UpdateEnvironmentWithAudit | internal/storage/mysql/store.go:717-740 | both writes exactly when the compare-and-set holds; otherwise nothing changes |
| Store.Database.UpdateEnvironment | internal/storage/mysql/store.go:646-660 | the row is replaced exactly when the compare-and-set holds |
| Store.Database.UpdateJob | internal/storage/mysql/store.go:308-362 | replaces an existing job row, reports a missing one |
| Api.Server.HandleCreate | internal/api/environments.go:195-238 | commits the environment with its first plan job and audit row, or refuses and changes nothing |
| Api.Server.HandlePlan | internal/api/environments.go:329-383 | statement by statement: the response and the whole database afterwards are those of the plan decision on the stored rows, committed as one bundle or refused without a trace |
| Api.Server.HandleApprove | internal/api/environments.go:419-484 | the response and the whole database afterwards are those of the approval decision on the stored environment and plan job |
| Api.Server.HandleApply | internal/api/environments.go:501-585 | the response and the whole database afterwards are those of the apply decision, the new job taking workdir and plan path from the approved plan |
| Api.Server.HandleRetry | internal/api/environments.go:610-692 | the response and the whole database afterwards are those of the retry decision; the retry count rises by one |
| Api.Server.HandleDestroy | internal/api/environments.go:721-783 | the response and the whole database afterwards are those of the destroy decision; of the attempt state only the workdir survives |
| Handlers.ResetLeavesNothing | internal/api/environments.go:123-133 | after a reset every approve and every apply is refused, whoever asks and whatever job row is read, and putting the traces of the attempt back gives the old row |
| Api.Server.HandleJobs | internal/api/jobs.go:21-64 | creates a job without environment from a valid spec, never an apply |
| Api.Server.HandleJobPlan | internal/api/jobs.go:166-206 | derives a plan job only from a job without environment |
| Api.Server.HandleJobApply | internal/api/jobs.go:208-260 | derives an apply job, for admins, only from a done plan with an artifact and without environment |
| Handlers.DerivedJobArtifact | internal/api/jobs.go:272-297 | a derived plan carries no artifact and cannot itself be applied before it has run; a derived apply takes over workdir and plan path of a done plan, for admins only; neither belongs to an environment |
| RunnerProgram.RunnerProcess.ProcessJob | cmd/runner/main.go:95-259 | one pass over a claimed job leaves the store, the plan files and the history exactly where the runner's moves, run to the end, lead; a destroy plan whose first write fails goes to failJob |
| Passes.PassLeaves | cmd/runner/main.go:95-259 | for every outcome of the commands of one undisturbed pass over a job taken up in a reachable state: the whole job table, environment table, audit table and the plan files afterwards; the row is done or says the first thing that went wrong, and the environment shows workdir, plan path and outputs of a success |
| Passes.OutputsAreStored | cmd/runner/main.go:143-158 | after an apply command that succeeds and yields a text, the job row and the environment row end with that text, unless it is a destroy or the text could not be read: then with the outputs the job had |
| Passes.UnfitJobsAreFailed | cmd/runner/main.go:103-138 | on any rows, a job that cannot be started, for one of eight reasons, ends failed with the first that applies as its error |
| Passes.LateResultsAreDropped | cmd/runner/main.go:424-447 | on any rows, a result for an environment that names another job, or one that loses the compare-and-set, changes nothing but the audit table, which says which of the two happened |
| Results.EnvironmentShowsItsLastJob | cmd/runner/main.go:464-500 | in every reachable state an environment whose last job is settled shows that job's workdir, plan path and outputs and no error if it is done, and its error and failure if it failed |
| Results.ErrorsComeFromOutside | cmd/runner/main.go:95-283 | in every reachable state a job's error is what the outside world said or, for a destroy plan only, that there was no workdir or that it could not be saved: no other check of the runner ever fails |
| RunnerProgram.RunnerProcess.FailJob | cmd/runner/main.go:402-447 | from the point where a job has failed, leaves the state where the runner's moves lead, also when the job write is lost |
| RunnerProgram.RunnerProcess.RecordEnvironmentSuccess | cmd/runner/main.go:464-522 | from the point where a job is done, leaves the state where the runner's moves lead, whichever of its three endings is taken |
| RunnerProgram.FinishIsReached | cmd/runner/main.go:84-260 | running a job to the end undisturbed is a sequence of steps of the interleaved system, after which the runner is idle |
| Validation.NormalizeEnvironmentSpec | internal/validation/environment.go:11-29 | rewrites the caller's instance and group lists in place to the normalized spec |
| Validation.ValidateEnvironmentSpec | internal/validation/environment.go:31-104 | reports the first check, in source order, that the spec fails; the total of the counts wraps around as a 64-bit integer |
| Validation.AcceptedMeansWellFormed | internal/validation/environment.go:31-113 | the validator accepts a spec if and only if its names are filled, every subnet address is a network address, the gateway is a subnet address, no security group is blank, and either its instances number and count 1 or 2 or there are two with positive counts whose sum is 2^63 or more; never both |
| Examples.SmallIsAccepted | internal/validation/environment.go:31-104 | a spec with one instance that is accepted, normalized or not |
| Examples.OverflowIsAccepted | internal/validation/environment.go:50-71 | two counts of 2^63 - 1 are accepted with a running total of -2, although the true total is 2^64 - 2; the wizard flags a field |
| Examples.BlankKeyVanishes | internal/validation/environment.go:11-29 | a blank key name is rejected by the validator and accepted by every route |
| Validation.NormalizeIdempotent | internal/validation/environment.go:11-29 | normalizing twice is normalizing once |
| Validation.NormalizeFirst | internal/api/environments.go:921-927 | normalizing before validating changes the verdict for blank SSH key names only, and never from accepted to rejected |
| Text.TrimTakesOffSpace | internal/validation/environment.go:11-29 | a text is its trimmed form with white space before and after it, and that form neither starts nor ends with any |
| Checks.NormalizeStripsEveryText | internal/validation/environment.go:11-29 | normalization strips every text in its place, SSH key names included, and keeps counts, the DHCP flag and the lists' order |
| Checks.FirstFailingCheck | internal/validation/environment.go:31-104 | an error is reported if and only if what it says holds of the spec and nothing holds that is looked for before it |
| IPv4.ContainsMeansDenotes | internal/validation/environment.go:86-97 | prefix containment is membership in the block of 2^(32-bits) addresses |
| IPv4.MaskedSameBlock | internal/validation/environment.go:106-113 | masking a prefix keeps the addresses it denotes |
| IPv4.ServerSubnetTestMeansWithin | internal/validation/environment.go:86-88 | the server's subnet test holds if and only if every subnet address is a network address |
| IPv4.WizardSubnetTestMeansWithin | web/src/utils/environmentValidation.ts:23-27 | the wizard's mask test on unmasked prefixes means the same inclusion |
| IPv4.WizardAddressTestMeansDenotes | web/src/utils/environmentValidation.ts:35-38 | the wizard's gateway test means membership in the block, also for /0 and /32 |
| DottedDecimal.AddressNotation | web/src/utils/environmentValidation.ts:29-33 | the addresses are exactly the texts of four decimal numerals up to 255 between points, the first weighing 2^24, the second 2^16, the third 2^8 |
| DottedDecimal.PrefixNotation | internal/validation/environment.go:106-113 | the prefixes are exactly an address, a slash and a decimal numeral up to 32 |
| DottedDecimal.WrittenPrefixDenotes | internal/validation/environment.go:86-97 | a.b.c.d/24 denotes exactly the addresses written a.b.c.x, a.b.c.d/16 those written a.b.x.y, a.b.c.d/8 those written a.x.y.z |
| DottedDecimal.EveryAddressIsWritten | web/src/utils/environmentValidation.ts:29-33 | every address has such a text |
| Wizard.ValidateEnvironmentSpecForWizard | web/src/utils/environmentValidation.ts:40-124 | collects exactly the flagged fields, in one pass |
| Wizard.WizardAgreesWithServer | web/src/utils/environmentValidation.ts:40-124 | on specs in the server's notation the wizard flags nothing if and only if the server accepts and the true total of counts fits 64 bits; every spec the server accepts is in that notation, and has no flagged field if and only if its total fits |
| Wizard.AddressingFields | web/src/utils/environmentValidation.ts:54-82 | each addressing field on its own, blank or in the server's notation: network flagged when missing, subnet when missing or not within a given network, gateway when given and not in a given subnet |
| Wizard.NameFlagsAreErrors | web/src/utils/environmentValidation.ts:40-53 | each name field, and the security groups, are flagged exactly when the server's check of that field fails |
| Wizard.InstanceFlagsAreErrors | web/src/utils/environmentValidation.ts:84-110 | so is each field of each instance, but that a count above 2 is flagged too |
| Wizard.ListFlagIsError | web/src/utils/environmentValidation.ts:84-110 | the list of instances is flagged when it is empty, longer than 2 or truly counts more than 2 |
| Wizard.WizardIgnoresTail | web/src/utils/environmentValidation.ts:12-21 | what follows a second slash is ignored by the wizard and refused by the server |
| Frames.ServerReadsFrame | internal/api/websocket.go:103-145 | the server's reader gives back opcode and payload of any masked frame in any of the three length forms and leaves what follows |
| Frames.ClientReadsFrame | cmd/ws-smoke/main.go:320-352 | the client's reader gives back the payload of any server text frame and leaves what follows |
| FrameBytes.ReadsTheBytes | internal/api/websocket.go:103-145 | in the bits of the stream: opcode, announced length in all three forms, every payload bit flipped exactly where mask byte i mod 4 has a one, and the rest |
| FrameBytes.ReadsOrFails | internal/api/websocket.go:103-145 | a frame is read if and only if it is final, masked and whole; otherwise which error is given |
| FrameBytes.ClientReadsTheBytes | cmd/ws-smoke/main.go:320-352 | what the client reads or why it fails, for any stream, in its bytes |
| FrameBytes.WritesTheBytes | internal/api/websocket.go:147-171 | header bytes and payload of an unmasked frame up to 65535 bytes |
| FrameBytes.PongBytes | internal/api/websocket.go:80-101 | a pong is 8A, the length and the ping's payload |
| FrameBytes.HelloFrames | cmd/ws-smoke/main.go:289-318 | the frames are byte for byte the examples of section 5.7 of RFC 6455, masked and unmasked, text, ping and pong |
| FrameBytes.HelloIsRead | internal/api/websocket.go:103-145 | the standard's masked examples are read as Hello, its fragmented and unmasked ones refused |
| FrameBytes.LongFrames | internal/api/websocket.go:147-171 | the standard's examples with a 16-bit and a 64-bit length |
| Frames.ClientStreamRoundTrip | internal/api/websocket.go:103-145 | any sequence of masked frames is read back as exactly its payloads with nothing left over |
| Frames.ServerStreamRoundTrip | cmd/ws-smoke/main.go:320-352 | any sequence of server text frames is read back as exactly its payloads with nothing left over |
| Frames.ReadsNextText | internal/api/websocket.go:80-101 | one ReadJSON skips to the first text frame, leaves exactly the frames after it and has written one equal pong per ping before it |
| Frames.ConversationIsRead | internal/api/websocket.go:80-101 | n ReadJSON calls return exactly the first n text payloads in order, leave exactly the frames after them, and have written exactly one equal pong per ping passed, in order |
| FrameBytes.StopsAtFrame | internal/api/websocket.go:80-101 | after any pings and pongs, each answered as owed, a close frame ends the call as closed and any other opcode as unexpected |
| FrameBytes.StopsAtError | internal/api/websocket.go:80-101 | so does a fragmented, an unmasked or a cut frame, with its error |
| Frames.Wire.ReadClientFrame | internal/api/websocket.go:103-145 | the reader, unmasking its buffer in place, consumes and returns what the frame format says, with the same errors |
| Frames.Wire.WriteFrame | internal/api/websocket.go:147-171 | appends one unmasked final frame in its shortest length form |
| Frames.Wire.ReadJSON | internal/api/websocket.go:80-101 | the loop returns the next text message, having answered the pings on the way |
| Frames.Wire.Unmask | internal/api/websocket.go:141-143 | the in-place loop leaves every byte combined with its mask byte |
| Frames.Wire.WriteClientTextFrame | cmd/ws-smoke/main.go:289-318 | appends one masked text frame for a payload up to 65535 bytes, otherwise writes nothing and reports it |
| Frames.Wire.ReadServerTextFrame | cmd/ws-smoke/main.go:320-352 | the client's reader as a function of the stream |
| SqlText.QuotedIsOneLiteral | internal/storage/mysql/store.go:1606-1617 | a quoted string followed by any text is lexed as exactly that string and that text, if and only if the text does not start with a quote |
| SqlText.ValueListRoundTrip | internal/storage/mysql/store.go:911-939 | a comma-separated list of quoted strings lexes back to its fields |
| SqlText.WrittenEscapes | internal/storage/mysql/store.go:1606-1617 | the seven escaped characters and the separator, byte for byte |
| SqlText.OthersAsTheyAre | internal/storage/mysql/store.go:1606-1617 | every other character is written as it is |
| SqlText.ReadEscapes | internal/storage/mysql/store.go:1606-1617 | what each escape sequence stands for, as Table 9.1 of the manual has it |
| Base64.DecodesToBase64 | internal/storage/mysql/store.go:1244-1246 | the decoder gives back any bytes from MySQL's encoding, whether its line breaks are still there or dropped |
| Base64.SymbolsAreTheAlphabet | internal/storage/mysql/store.go:1573-1582 | a symbol stands for its place in the alphabet of Table 1 of RFC 4648, and no other character stands for anything |
| Base64.QuadsAreNumbers | internal/storage/mysql/store.go:1573-1582 | the octets decoded from each quadruple are the 24-bit number its symbols make up, cut to whole octets where it is padded |
| Base64.DecodesExactly | internal/storage/mysql/store.go:1573-1582 | decoded are exactly the quadruples of symbols with at most two equal signs at the end |
| Base64.DoneDecodes | internal/storage/mysql/store.go:1573-1582 | ZG9uZQ== decodes to the text done |
| Base64.BreaksDoNotMatter | internal/storage/mysql/store.go:1573-1582 | line feeds and carriage returns anywhere do not change what is decoded |
| Base64.LinesOf76 | internal/storage/mysql/store.go:1244-1246 | the encoding has its line breaks after every 76 symbols and nowhere else |
| RowChannel.FieldArrives | internal/storage/mysql/store.go:1573-1582 | a field arrives unchanged if and only if it is not the one byte string whose base64 reads NULL |
| RowChannel.RowsArrive | internal/storage/mysql/store.go:1118-1128 | for any rows, what arrives is those rows without the all-empty ones and with that byte string emptied; trailing empty fields arrive |
| RowChannel.RowRoundTrip | internal/storage/mysql/store.go:1248-1321 | the channel gives back what was printed if and only if every row has a non-empty field and none is that byte string |
| RowChannel.TextRowsRoundTrip | internal/storage/mysql/store.go:1248-1321 | rows of valid UTF-8 with a non-empty key always arrive |
| RowChannel.RejoinedFields | internal/storage/mysql/store.go:1478-1507 | a joined session and user line, split, its user part joined and split again: the user parser finds exactly the fields after the session's |
| RowChannel.CollectOutputLines | internal/storage/mysql/store.go:1118-1128 | the loop keeps the non-blank lines in order |
| RowChannel.LineEndsDoNotMatter | internal/storage/mysql/store.go:1118-1128 | however its lines are ended, with or without carriage returns, the output gives back its lines that are not blank, untouched and in order |
| RowChannel.FieldsInOrder | internal/storage/mysql/store.go:1248-1321 | a line is taken apart if and only if each field decodes, and then into those fields in order |
| LogTail.ChunksAreThePrefix | internal/api/ws.go:129-178 | after any ticks since subscribing, the chunks read for a file that only grows are exactly its prefix up to the stored offset: no gap, no repeat |
| LogTail.SubscriberSeesTheFile | internal/api/websocket.go:72-78 | for such a file, the text the subscriber receives is the content as last read if and only if that is UTF-8 and every tick left the offset on a character boundary |
| LogTail.SplitCharacterIsLost | internal/api/ws.go:129-178 | a two-byte character seen half by one tick and half by the next arrives as two replacement characters |
| Utf8.JsonKeepsUtf8 | internal/api/websocket.go:72-78 | a string survives JSON encoding if and only if it is UTF-8 |
| Utf8.ValidMeansEncoded | internal/api/websocket.go:72-78 | the byte strings taken for UTF-8 are exactly the encodings of sequences of Unicode scalar values by the table of section 3 of RFC 3629 |
| Utf8.StrayBytes | internal/api/websocket.go:72-78 | each byte that starts no character becomes one U+FFFD |
| LogTail.FollowIsExact | internal/api/ws.go:227-253 | one more tick keeps that if and only if the file still starts with what was read and was not shorter when its size was asked, even if it is cut before it is read |
| LogTail.NewFileIsReadWhole | internal/api/ws.go:153-178 | after a file has vanished or become shorter than what was read of it, what further ticks read under its name, while it only grows, is exactly its content from the start |
| LogTail.VanishedIsForgotten | internal/api/ws.go:155-158 | no offset is stored for a file that was gone when last listed |
| LogTail.TickSendsInOrder | internal/api/ws.go:129-178 | a tick sends the status first, if it has changed, and then for each listed file in turn what has not been sent of it |
| LogTail.StatusesAreTheChanges | internal/api/ws.go:129-146 | the status messages are the sampled status and error pairs with consecutive duplicates removed |
| LogTail.JobStream.Subscribe | internal/api/ws.go:122-127 | forgets everything about the previous job |
| LogTail.JobStream.Tick | internal/api/ws.go:129-178 | one pass over the listed files updates offsets and sends what the per-file rule says |
| LogTail.JobStream.ReadLogChunks | internal/api/ws.go:227-253 | returns the unread bytes as at most one chunk; a shrunken file is read from its start |
| LogTail.JobStream.ReadLogTail | internal/api/ws.go:255-283 | returns a suffix of the file that is no longer than the limit, unless the file grew after its size was asked |

## Left out

- The fallback branches of the handlers for a store without bundled mutations: not the production store. On them a retry is counted twice.
- HTTP routing, JSON decoding, sessions, password hashing and encryption: library calls. A request carries its user with an admin flag.
- Job types other than the three known ones in POST /api/jobs: refused by the source, not expressible in the model.
- Store writes that fail for reasons other than a missing row or a lost compare-and-set: a runner then gives up the job, which is the crash step. Two such failures are modelled: the ignored job write of failJob, which is lost, and the first write of a destroy plan, which leads to failJob.
- Progress after a crash: there is none (`CrashLeavesBusy`), so `RunnerProgresses` and `NineMovesSettle` speak of runners that go on moving.
- Creation and update times except the creation time of jobs, log directories, e-mail addresses, audit messages and metadata other than job, plan, operation, confirmation and comment.
- Provider selection, template copying and the tofu commands: outside choices.
- Refinement.StepIsSimulated: compares states, not responses; those are the subject of `Responses.AnswersAreAtomic`.
- Responses.AnswersAreAtomic: a refused retry may be given another reason than the atomic handler would give on the rows at its arrival, because the job row is read later than the environment row.
- Unicode white space and letters: trimming is over ASCII white space.
- Counts that are not integers, which the wizard flags and the server's JSON decoder refuses, and the width of the revision column.
- The encoding of the whole-file answer of `ReadLogTail`: it returns bytes.
- JavaScript number notations other than decimal numerals: the wizard is verified for any reader that agrees on decimals.
- The wizard's messages and per-step summaries: single-field facts.
- Addresses and prefixes of IPv6: the source rejects them too, here they do not parse.
- Frames too large to hold in memory, write errors, locking of the writer, the handshake.
- Timestamp and integer columns of the row channel: they are printed without base64 and hold no separators.
- Read errors of log files other than a vanished file, and the base name used in log messages instead of the path.
- A log file truncated and grown again past the stored offset between two ticks: the code cannot notice, and `FollowIsExact` says exactly when that matters.
- The OpenStack client, catalog, review signals, overview counters, user administration and the web pages: none of them changes an environment or a job.
