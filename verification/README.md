# A verified model of the VM migration controller

The system migrates virtual machines from Nutanix AHV to KubeVirt. A controller
drives every VM of a migration through about twenty phases, at most MaxInFlight
VMs at a time. A cold migration powers the VM off and copies its disks. A warm
one copies the disks while the VM runs, brings the copies up to date in precopy
rounds (snapshot, export, changed-region query, delta pods), and after cutover
powers the VM off and does one last round.

The project models that controller as a state machine over a changing world and
proves what holds in every reachable state and over every run, for any guest
writes, API failures, pod and DataVolume progress, power changes, cancellations
and edits of the cutover time. It also models, as pure data, the parts the
pipeline leans on: names, disk order, the delta pod's script and Range headers,
the paging of changed regions and the plan validator.

`dafny verify dfyconfig.toml` checks everything.

## How it is laid out

| files | content |
|---|---|
| `Wrappers`, `Phases`, `Disks`, `Machine` | options, phase orders, disks with last-write times, the machine's state, steps and runs |
| `Structure`, `Power`, `Convergence`, `Ledger`, `Rounds`, `Departure` | the inductive invariants, one lemma per kind of step |
| `Theorems`, `Cutover`, `Witnesses` | the guarantees over whole runs, where they stop, and runs that show it |
| `Api` | the answers of the APIs to one handler execution, and the result the handler must give |
| `Controller` | the phase handlers as methods that update one VM's status in place; every execution, with interference between the API calls, is a run of the machine and ends with the result `Api` prescribes |
| `Scheduler`, `Migration` | the pass over all VMs: as a specification, and as methods that update the VMs in place |
| `Credentials` | the secret that the VMs of a migration share |
| `Decimals`, `Sanitize`, `RangeHeader`, `DeltaScript`, `CbtPaging`, `Alignment`, `Validation` | the pure-data companions |

A machine step is an API call of a handler that changes something, or one event
outside it, so guest writes and the rest may fall between any two of them. What is
taken together, and why that loses nothing:

- The deletion requests that end a round, a failed VM or a finished VM are one
  step: the properties speak of what was requested, not in which order.
- A status assignment belongs to the call next to it, since the status is only
  written out at the end of a pass.
- The changed-region query (cluster discovery and all its pages), the ConfigMap and
  the creation of the pod are one step, `SyncDisk`. The handler still lets anything
  happen between them: `Controller.AnswerStands` shows that no later event
  invalidates an answer about the two snapshots.
- Collecting a succeeded pod and reading the VM afterwards is one step,
  `CollectPod`: the pod has ended, so no event in between concerns it.

The central difficulty is that images are exported from the live disk and not
from the snapshot, some time after it. No copy is ever a copy of a snapshot.
What every step keeps is agreement up to a time: a copy has the live value of
every byte not written since the snapshot it has been brought up to.

## What is assumed

- Created ids are fresh, and an API call that reports an error has created nothing.
- The plan's type, MaxInFlight, MaxPrecopyRounds, the precopy interval, the target
  power state and the VM's list of disks do not change during a run.
- The cutover time is read live. The controller reads the copy fetched at the start
  of its pass; an edit made during a pass counts as made after it.
- A changed-region answer contains every byte last written between the two
  snapshots, and is an answer for the disk the round is at (the query names no disk).
- A delta pod that succeeded has written every region it was given. The script as
  it stands does not meet this: see `DeltaScript.TerminatedLinesLoseLast`,
  `DeltaScript.RunScript` and `DeltaScript.ScriptConvergesIff`. Everything proved
  about warm convergence is about a script that does.
- The status write at the end of a pass succeeds. `Witnesses.LostStatusLeaks`
  and `Witnesses.LostStatusLosesPower` show what happens otherwise.
- Once the controller has seen the source off, only its own PowerOn turns it on;
  before that anybody may change the power. The clock does not run backwards.
- A VM or DataVolume that "already exists" at creation is the one this VM made
  earlier, which `Alignment.DiskNamesShared` ties to the 8-character id prefixes.

## What turned out not to hold

- Warm convergence fails when Precopy is left in the middle of a round. FinalSync
  then continues the old round and takes no snapshot of its own. A cutover is safe if
  and only if no delta snapshot is set, or the open round's pod has failed (then no
  target is ever built), or the disks are empty: `Cutover.CutoverIsSafeIffBetweenRounds`;
  `Witnesses.StaleTargetHappens` is a run.
- Both copies can be on after a failed PostHook: `Witnesses.BothOnIffFailedPostHook`.
- The delta script never acts on the last region, because the region text does not
  end in a newline and `read` reports failure on an unterminated line
  (POSIX.1-2017, `read`, exit status). It brings every disk up to date if and only if
  the last region lies within the others: `DeltaScript.ScriptAlwaysConvergesIff`. A
  single changed region is not copied at all.
- The validator's de-duplication key joins id and name with a slash, so an id that
  contains a slash can hide an unmapped container or subnet:
  `Validation.DeduplicationIsSafeIff`.
- The changed-region loop has no bound of its own. It ends if and only if no offset
  is asked for twice: `CbtPaging.LoopEndsIff`; `CbtPaging.PingPongSpins` is a server
  against which it does not.
- The credential secret can be deleted under a VM that still transfers with it, if and
  only if two VMs can be active at once: `Credentials.SecretUsedAfterDeleteIff`.

## Model

| member | source | states |
|---|---|---|
| `Theorems.TargetEqualsSource` | internal/controller/migration_controller.go:1241-1719 | In every reachable state from CreateVM until the target is started, each target disk has the live value of every byte not written since the last round's snapshot; unless Precopy was left in mid-round, each target disk equals its source disk byte for byte, cold or warm, for any guest writes and any number of rounds |
| `Theorems.RoundInvariant` | internal/controller/migration_controller.go:1425-1655 | In every reachable state of a delta round, also with a half-finished pod: disks below DeltaDiskIndex agree with the live disk on every byte not written since the delta snapshot, the others on every byte not written since the base snapshot |
| `Theorems.LedgerTheorem` | internal/controller/migration_controller.go:898-1038 | In every reachable state the snapshots and images created and not requested for deletion are named by the status, of a warm VM only as base or as the round in progress, and there are none after the final sync; a Completed or Failed VM has requested deletion of exactly what was created; DataVolumes are deleted for Failed VMs only, and then all of them |
| `Theorems.NoUseAfterDelete` | internal/controller/migration_controller.go:1402-1563 | Both snapshots of a changed-region query, the exported image behind it, and the image behind every importing DataVolume and active pod of a VM that has not failed have no deletion requested; at most one pod is active, none from CreateVM on |
| `Theorems.PodLedger` | internal/controller/migration_controller.go:994-998 | In every reachable state deletion was requested of every delta pod but the one the status names, and of every one once the VM is Completed or Failed, or on track from CreateVM on |
| `Theorems.LeavesNoActivePod` | internal/controller/migration_controller.go:1337-1350 | In every reachable state past Precopy the pod named when Precopy was left had been read, and not as active; if it is active still, that read had failed |
| `Theorems.PowerRestored` | internal/controller/migration_controller.go:544-579 | OriginalPowerState is the state seen before the first PowerOff; a source that was OFF never gets a power command; a Failed VM that was ON has exactly one PowerOn, after its last PowerOff; no other VM has one; a VM past PowerOff had exactly one PowerOff unless it was OFF |
| `Theorems.TwoLiveCopies` | internal/controller/migration_controller.go:859-990 | The target is started only after the source was seen off; both sides can be on only for a VM that failed in PostHook, was ON and was to be started |
| `Theorems.TargetRuns` | internal/controller/migration_controller.go:859-894 | Past StartVM the target is started if it is to be, and halted otherwise |
| `Theorems.HistoryFollowsOrder` | internal/controller/migration_controller.go:53-85 | Every VM's phase history is a prefix of its cold or warm order, then possibly Failed or Cancelled |
| `Theorems.TerminalIsAbsorbing` | internal/controller/migration_controller.go:445-447 | Over every run, a VM that is Completed, Failed or Cancelled keeps its status, and nothing more is requested for it |
| `Theorems.PrecopyDiscipline` | internal/controller/migration_controller.go:1336-1388 | No PowerOff of a warm VM before the cutover time Precopy was left for; PrecopyRounds never exceeds the limit; successive round completions are at least the interval apart |
| `Theorems.BytesConserved` | internal/controller/migration_controller.go:1511-1655 | CumulativeBytes plus DeltaBytes is the total length of all regions ever fetched, DeltaBytes that of the round in progress, LastDeltaBytes that of the round completed last, and no disk is fetched twice in a round |
| `Theorems.StepKeepsInv` | internal/controller/migration_controller.go:502-1719 | Every step of the controller or of the world keeps the whole invariant |
| `Theorems.ReachableInv` | internal/controller/migration_controller.go:340-360 | The invariant holds in every state reachable from a fresh VM status |
| `Structure.StepKeepsStructure` | internal/controller/migration_controller.go:502-1719 | Every step keeps the shape of the status: the phase belongs to the order, ids are known, the fields are as full as the phase says, at most one round is open |
| `Power.StepKeepsPower` | internal/controller/migration_controller.go:544-990 | Every step keeps the rules on power commands and on which side may be on |
| `Convergence.StepKeepsConvergence` | internal/controller/migration_controller.go:1425-1655 | Every step, including a guest write and a single byte copied by a pod, keeps each copy's agreement with its disk up to the snapshot it has reached |
| `Convergence.StepKeepsPods` | internal/controller/migration_controller.go:1527-1563 | Every step keeps that only the pod named by the status is active and that no later round asks for a name already used |
| `Ledger.StepKeepsLedger` | internal/controller/migration_controller.go:898-1038 | Every step keeps the books of created, held and deleted snapshots and images |
| `Rounds.StepKeepsCourse` | internal/controller/migration_controller.go:1336-1655 | Every step keeps the history, the round limit, the spacing of rounds and the byte count |
| `Departure.StepKeepsDeparture` | internal/controller/migration_controller.go:1337-1350 | Every step keeps that what was read as ended has ended, and that Precopy is left only under a pod not read as active |
| `Machine.AnyFreshVm` | internal/controller/migration_controller.go:340-360 | A run may begin with any power state, disks, clock and cutover |
| `Machine.EnvironmentIsFree` | internal/controller/migration_controller.go:1241-1719 | What is not assumed: time, the cutover, guest writes, failures of pods and volumes, outside power changes and writes of a started target are possible whenever their object exists |
| `Machine.AnyCoveringAnswer` | internal/controller/migration_controller.go:1489-1509 | Every list of regions that contains the bytes written between the two snapshots is a possible answer |
| `Disks.TotalLengthAddsUp` | internal/transfer/delta.go:94-100 | The total is zero of nothing, the length of one region, and adds up over lists |
| `Disks.CopyCompletes` | internal/controller/migration_controller.go:1567-1607 | Once every byte of regions covering the writes between two snapshots is copied from an image exported after the later one, the copy agrees up to the later snapshot |
| `Disks.CopyByteKeepsAgreement` | internal/transfer/delta.go:49-58 | A pod that has copied only part of its regions does not break the older agreement |
| `Disks.DeltaBytes` | internal/transfer/delta.go:94-100 | The summing loop computes the total length of the regions |
| `Cutover.CutoverIsSafeIffBetweenRounds` | internal/controller/migration_controller.go:1337-1476 | From every reachable cutover, with the source on or off, every continuation builds the target from equal disks if and only if no delta snapshot is set when Precopy is left, or the named pod has failed, or no disk has a byte |
| `Cutover.MidRoundDiverges` | internal/controller/migration_controller.go:1402-1476 | Left in mid-round with a pod that has not failed, some continuation reaches CreateVM with a target disk that differs from its source |
| `Cutover.FailedPodNeverBuilds` | internal/controller/migration_controller.go:1402-1405 | Left with a failed pod, no continuation ever gets to CreateVM |
| `Cutover.MidRoundIsSettled` | internal/controller/migration_controller.go:1425-1436 | Nothing after Precopy changes whether it was left in mid-round |
| `Witnesses.StaleTargetHappens` | internal/controller/migration_controller.go:1337-1476 | A run from a fresh VM whose target is created from a stale disk |
| `Witnesses.BothOnIffFailedPostHook` | internal/controller/migration_controller.go:981-990 | From PostHook, both sides can come to be on if and only if the original state was ON and the target is started |
| `Witnesses.BothOnHappens` | internal/controller/migration_controller.go:981-990 | A run in which both sides are on |
| `Witnesses.LostStatusLeaks` | internal/controller/migration_controller.go:232-234 | If the status write of any pass is lost, every snapshot and image the pass created and did not itself request for deletion is never requested for deletion by any continuation |
| `Witnesses.LostStatusLosesPower` | internal/controller/migration_controller.go:232-234 | If the status write of the pass that recorded ON and powered off is lost, a run ends Failed with the source off and no PowerOn |
| `Phases.NextPhaseInOrder` | internal/controller/migration_controller.go:1185-1195 | The search returns the successor in the order, or the phase itself if it has none |
| `Phases.OrdersWrittenOut` | internal/controller/migration_controller.go:53-85 | The two orders, phase by phase |
| `Phases.StepProgressesIffInOrder` | internal/controller/migration_controller.go:1185-1195 | The driving loop makes progress exactly on phases of the order before its last; its measure, the phases left, then drops by one |
| `Phases.SuccessorIsNext` | internal/controller/migration_controller.go:53-85 | Searching either order gives the machine's successor table |
| `Controller.VmMigration.PhaseStorePowerState` | internal/controller/migration_controller.go:544-561 | A run; a state recorded before is kept, a broken read is an error, otherwise the state recorded is the one read |
| `Controller.VmMigration.PhasePowerOff` | internal/controller/migration_controller.go:564-579 | A run; an error exactly when the source was not OFF and the PowerOff call breaks, otherwise completed |
| `Controller.VmMigration.PhaseWaitForPowerOff` | internal/controller/migration_controller.go:582-598 | A run; a broken read is an error, OFF completes, any other state waits |
| `Controller.VmMigration.PhaseCreateSnapshot` | internal/controller/migration_controller.go:601-621 | A run; a recorded snapshot is not taken again; an error exactly when a new one is needed and the call breaks |
| `Controller.VmMigration.PhaseExportDisks` | internal/controller/migration_controller.go:624-671 | A run; an error exactly when reading the VM or the export of a disk without an image breaks, otherwise completed with an image of every disk |
| `Controller.VmMigration.PhaseImportDisks` | internal/controller/migration_controller.go:675-824 | A run; an error when reading the VM, the secrets or a missing DataVolume breaks; otherwise the result of polling |
| `Controller.VmMigration.PollDataVolumes` | internal/controller/migration_controller.go:1815-1848 | A run; an error exactly when a volume is read as failed or its read breaks, completed exactly when all are read as succeeded, otherwise waiting |
| `Controller.VmMigration.PhaseCreateVM` | internal/controller/migration_controller.go:828-855 | A run; an error exactly when reading the VM or creating the target breaks, otherwise completed with the target there |
| `Controller.VmMigration.PhaseStartVM` | internal/controller/migration_controller.go:859-894 | A run; completed without a call if the target is to stay stopped; otherwise an error exactly when a call breaks |
| `Controller.VmMigration.PhaseCleanup` | internal/controller/migration_controller.go:898-933 | Always completes, as a run, with deletion of the bulk snapshot and images requested |
| `Controller.VmMigration.CleanupFailedVM` | internal/controller/migration_controller.go:938-1038 | The order of requests the source makes amounts to the machine's failing step: everything held is requested for deletion, the pod is deleted, power is restored if it was ON |
| `Controller.VmMigration.PhaseBulkCopy` | internal/controller/migration_controller.go:1241-1310 | A run; an error exactly when a missing snapshot, reading the VM, a missing export, the secrets or a missing DataVolume breaks, otherwise completed with the warm status set |
| `Controller.VmMigration.PhaseWaitBulkCopy` | internal/controller/migration_controller.go:1313-1320 | A run; the result of polling |
| `Controller.VmMigration.PhasePrecopy` | internal/controller/migration_controller.go:1324-1388 | A run; with a passed cutover, a named pod read as active waits and any other read completes; otherwise a named pod is checked, the round limit and the interval wait, and else a round is run with its exact result |
| `Controller.VmMigration.PhaseFinalSync` | internal/controller/migration_controller.go:1391-1409 | A run; a named pod is checked, else the round is run; completed exactly when the round is closed |
| `Controller.VmMigration.RunDeltaRound` | internal/controller/migration_controller.go:1413-1564 | A run, whatever happens between the calls; an open round goes on without a new snapshot; an error exactly when a call that is reached breaks; otherwise the round is closed, the disk is passed or its pod is named |
| `Controller.AnswerStands` | internal/controller/migration_controller.go:1489-1509 | A changed-region answer collected page by page still covers what it must when the pod is created, whatever happened meanwhile |
| `Api.SeenIsFaithful` | internal/controller/migration_controller.go:1860-1870 | A read of a pod that does not break tells its phase; a broken read, or a pod that is gone, tells nothing |
| `Controller.VmMigration.CheckDeltaPod` | internal/controller/migration_controller.go:1567-1607 | A run; a failed pod is an error; a succeeded one is deleted and the round goes to the next disk, or errs if reading the VM breaks; any other read waits and changes nothing |
| `Controller.VmMigration.FinalizePrecopyRound` | internal/controller/migration_controller.go:1610-1663 | The new status and the deletion requests are those of the machine's round-closing step |
| `Controller.VmMigration.FinalizeFinalSync` | internal/controller/migration_controller.go:1666-1719 | The new status and the deletion requests are those of the machine's final step |
| `Controller.VmMigration.ExecutePhase` | internal/controller/migration_controller.go:502-541 | For every active phase the execution is a run of the machine, and the result is the one prescribed for the entry state, the answers and what was read |
| `Controller.VmMigration.RunPhase` | internal/controller/migration_controller.go:449-451 | One execution, entered in a state that only the environment can have changed since the last one, gives the prescribed result |
| `Controller.VmMigration.Settle` | internal/controller/migration_controller.go:453-499 | An error cleans up and fails the VM, waiting changes nothing, completion moves to the next phase of the order |
| `Controller.VmMigration.AdvanceSingleVM` | internal/controller/migration_controller.go:432-499 | The unbounded loop ends; the VM stays on a run from its initial state; a VM that has not ended is executed at least once; a requeue is asked for exactly when the VM has not ended, and then the last handler waited |
| `Controller.VmMigration.CancelVM` | internal/controller/migration_controller.go:375-382 | Cancelling is a machine step that touches nothing outside the status |
| `Migration.MigrationStatus.ProcessCancellations` | internal/controller/migration_controller.go:363-383 | Exactly the listed VMs that have not ended become Cancelled |
| `Migration.MigrationStatus.AdvanceVMs` | internal/controller/migration_controller.go:387-428 | The in-place loop follows the scheduling specification; a requeue is asked for exactly when some VM has not ended |
| `Migration.MigrationStatus.Reconcile` | internal/controller/migration_controller.go:223-240 | After every pass: requeue if and only if some VM has not ended, if and only if the overall phase is Running; with MaxInFlight (at least one) VMs allowed, no more are active, ended VMs are left alone, every VM under way is driven, and a VM left Pending means that the VMs active before and those started have reached that number; every VM is still on a run of its machine |
| `Migration.MigrationStatus.UpdateOverallStatus` | internal/controller/migration_controller.go:1041-1123 | The counters give Running, Cancelled, Failed or Completed exactly as the per-VM phases say |
| `Scheduler.ScheduleTheorem` | internal/controller/migration_controller.go:226-428 | After any number of passes with any cancellations, failures and progress, at most MaxInFlight VMs (one if that is less than one) are active, and every VM behind a Pending one is Pending or was cancelled unstarted |
| `Scheduler.PassMeaning` | internal/controller/migration_controller.go:226-428 | One pass VM by VM, without the loop: who is left alone, driven or started, the bound on active VMs, and that nobody waits while the bound is not reached |
| `Scheduler.LoopKeepsSchedule` | internal/controller/migration_controller.go:387-428 | The same at every point inside a pass, where the controller's own count bounds the true one |
| `Scheduler.TerminalCounts` | internal/controller/migration_controller.go:1041-1064 | The three counters add up to the number of VMs if and only if all VMs have ended |
| `Scheduler.CountMeaning` | internal/controller/migration_controller.go:1046-1056 | A counter equals the number of VMs, or is positive, exactly when all, or some, VMs are in that phase |
| `Sanitize.SanitizeName` | internal/builder/sanitize.go:37-80 | The result is a valid label (section 2.1 of RFC 1123, section 2.3.4 of RFC 1035) outside the existing names: the base if it is free, else the first free one of base-2, base-3, ..., with the base cut to make the whole fit 63 characters and no hyphen at the cut; found within one more try than there are existing names, and unchanged by sanitising it again |
| `Sanitize.BaseNameMeaning` | internal/builder/sanitize.go:38-62 | The passes over the name amount to its lower-case alphanumeric words joined by single hyphens, cut at 63 characters without a hyphen at the end, or "vm"; always a valid label |
| `Sanitize.BaseNameFixpoints` | internal/builder/sanitize.go:38-62 | A name is left alone if and only if it is a valid label without a double hyphen |
| `Sanitize.BaseNameIdempotent` | internal/builder/sanitize.go:38-66 | Sanitising twice is sanitising once |
| `Sanitize.AlnumCodePoints` | internal/builder/sanitize.go:27-30 | Which characters survive: a to z and 0 to 9, by code point |
| `Sanitize.CandidatesDiffer` | internal/builder/sanitize.go:69-79 | Candidates for different numbers differ, also when truncated |
| `Sanitize.TriesAreBounded` | internal/builder/sanitize.go:69-79 | The collision loop cannot fail more often than there are existing names |
| `RangeHeader.ParseRangeHeader` | pkg/mock/handlers_image.go:163-204 | The parser's branches compute the RFC meaning of the header (section 14.1.2 of RFC 9110) |
| `Decimals.IntegersWrittenOut` | pkg/mock/handlers_image.go:177-199 | Texts that the parser does and does not take as integers |
| `Decimals.NumeralsWrittenOut` | internal/transfer/delta.go:88 | Numerals, digit by digit |
| `RangeHeader.ResolveSelects` | pkg/mock/handlers_image.go:176-201 | A range is refused exactly when it selects no byte, and otherwise resolves to exactly the bytes it selects |
| `RangeHeader.HeaderResolves` | internal/transfer/delta.go:51-54 | Every header the script can send, in 64-bit arithmetic, is honoured if and only if the offset is inside the image and not after the end position |
| `RangeHeader.HeaderWrittenOut` | internal/transfer/delta.go:50-52 | A header, character by character |
| `RangeHeader.RegionResolves` | internal/transfer/delta.go:51-54 | The server answers with [offset, min(offset + length, size) - 1] if the length is at least 1 and the offset lies inside the image, and refuses otherwise |
| `RangeHeader.RequestRegion` | internal/transfer/delta.go:50-53 | The same of the header and the parser put together |
| `DeltaScript.RegionsToText` | internal/transfer/delta.go:85-91 | The loop builds the region lines joined by newlines |
| `DeltaScript.TextWrittenOut` | internal/transfer/delta.go:85-91 | A region list as text, character by character |
| `DeltaScript.SplitRecoversAll` | internal/transfer/delta.go:85-91 | Splitting the text on newlines recovers exactly the region list |
| `DeltaScript.TerminatedLinesLoseLast` | internal/transfer/delta.go:45-91 | A reader of newline-terminated lines recovers all regions but the last |
| `DeltaScript.FinalNewlineRecoversAll` | internal/transfer/delta.go:85-91 | With one more newline at the end such a reader would recover all of them |
| `DeltaScript.RunScript` | internal/transfer/delta.go:45-60 | The script succeeds exactly when every region but the last can be fetched and fits on the target, and then has overwritten exactly those regions in place |
| `DeltaScript.LastRegionMatters` | internal/transfer/delta.go:45-60 | Leaving out the last region makes no difference if and only if the bytes only it covers are already right |
| `DeltaScript.ScriptConvergesIff` | internal/transfer/delta.go:45-60 | After the script the target is up to the delta snapshot if and only if it already was on the bytes that only the last region covers |
| `DeltaScript.LastRegionRedundantIff` | internal/transfer/delta.go:45-91 | Leaving out the last region is harmless for every content of a disk of a given size if and only if every byte of it is covered by an earlier region |
| `DeltaScript.ScriptAlwaysConvergesIff` | internal/transfer/delta.go:45-91 | The script brings every target of a given size up to the delta snapshot, for all disks, images and snapshots the answer fits, if and only if the last region is covered by earlier ones |
| `DeltaScript.PatchingConverges` | internal/transfer/delta.go:45-60 | Overwriting every region would bring the target up to the delta snapshot |
| `DeltaScript.SingleRegionIsSkipped` | internal/transfer/delta.go:45-60 | A concrete changed byte that is not copied |
| `CbtPaging.GetAllRegions` | internal/controller/migration_controller.go:1489-1509 | Against any server that serves consecutive pages and makes progress the loop ends with exactly the list |
| `CbtPaging.PageWrittenOut` | pkg/mock/handlers_cbt.go:75-113 | A page of the mock holds three regions or what is left and names where the next starts; past the end it is empty; a negative offset is zero |
| `CbtPaging.PageServes` | pkg/mock/handlers_cbt.go:75-113 | The mock pager is such a server |
| `CbtPaging.GetMockRegions` | pkg/mock/handlers_cbt.go:75-113 | Against the mock pager the loop yields exactly the configured list |
| `CbtPaging.CutPageServes` | internal/controller/migration_controller.go:1489-1509 | However a list is cut into pages, the pages make such a server |
| `CbtPaging.LoopEndsIff` | internal/controller/migration_controller.go:1491-1509 | For every server with 64-bit offsets the loop ends if and only if no offset is asked for twice |
| `CbtPaging.PingPongSpins` | internal/controller/migration_controller.go:1491-1509 | A concrete server with two pages that name each other keeps the loop going for ever |
| `CbtPaging.StuckServerSpins` | internal/controller/migration_controller.go:1491-1509 | So does every server that names the offset it was just asked for |
| `CbtPaging.ProgressEnds` | pkg/mock/handlers_cbt.go:75-113 | A server that makes progress through its list ends the loop |
| `Credentials.SecretUsedAfterDeleteIff` | internal/controller/migration_controller.go:920-930 | A VM can come to rely on the shared secret after another VM's Cleanup deleted it if and only if there are at least two VMs and MaxInFlight is at least two, for cold and for warm migrations |
| `Credentials.HandleWrittenOut` | internal/controller/migration_controller.go:699-705 | Only the handlers that create DataVolumes bring the secret back, and only Cleanup deletes it |
| `Alignment.MigrateDisks` | internal/controller/migration_controller.go:720-777 | From any resumable point and for any mix of disks and CDROMs: the k-th image is cut from the k-th data disk, the k-th DataVolume imports that image with that disk's storage mapping, the k-th volume and delta pod claim that DataVolume, the pod copies from that disk, and the names differ |
| `Alignment.FilterDataDisks` | internal/controller/migration_controller.go:1218-1227 | The result is the disks at the data positions, in order |
| `Alignment.DataIndicesMeaning` | internal/controller/migration_controller.go:1218-1227 | The data positions are increasing and are exactly those of the disks that are not CDROMs |
| `Alignment.CdromWrittenOut` | internal/controller/migration_controller.go:1221-1223 | A disk is skipped exactly when its device type spells CDROM in any case |
| `Alignment.ExportDisks` | internal/controller/migration_controller.go:645-668 | The k-th image is cut from the k-th data disk, whatever was recorded before and wherever an export fails |
| `Alignment.CreateDataVolumes` | internal/controller/migration_controller.go:1758-1808 | One DataVolume per image, the k-th importing the k-th image with the k-th data disk's storage mapping and size; one that already exists is left as it is, and the loop resumes without duplicates |
| `Alignment.BuildDisksAndVolumes` | internal/builder/vm.go:195-254 | The k-th volume claims the k-th PVC and is named after the position of the k-th data disk; only the first data disk gets the boot order |
| `Alignment.DiskNamesShared` | internal/controller/migration_controller.go:1230-1235 | Two VMs of one migration share a DataVolume name if and only if their ids have the same first eight characters, or are equal if one is shorter |
| `Alignment.PodNamesShared` | internal/controller/migration_controller.go:1529-1531 | The same of pod names |
| `Alignment.NamesWrittenOut` | internal/controller/migration_controller.go:1456-1458 | The names of DataVolumes, round images and pods, written out with the eight-character prefixes |
| `Alignment.PodTextInjective` | internal/controller/migration_controller.go:1529-1531 | Within one VM a pod name belongs to one round and one disk |
| `Validation.Validate` | internal/validation/validator.go:72-102 | No Error if and only if the five rules and the remaining rules' outcomes have none; with unambiguous keys, no Error means that every data disk finds a storage mapping whose class was looked up, and every NIC with a subnet a destination whose NAD was found |
| `Validation.CheckUnmappedStorage` | internal/validation/validator.go:116-148 | No Error if and only if every container that is the first of its key is mapped |
| `Validation.CheckUnmappedNetwork` | internal/validation/validator.go:167-194 | No Error if and only if every subnet that is the first of its key is mapped |
| `Validation.CheckVolumeGroupDisks` | internal/validation/validator.go:227-247 | No Error if and only if every data disk has a container |
| `Validation.CheckStorageClasses` | internal/validation/validator.go:339-385 | No Error if and only if no matching entry's class is reported missing |
| `Validation.CheckMultusNads` | internal/validation/validator.go:387-442 | No Error if and only if every needed NAD that is the first of its key is found |
| `Validation.HasErrors` | internal/validation/validator.go:105-112 | True if and only if some concern is an Error |
| `Validation.FirstMatchMeaning` | internal/validation/validator.go:150-165 | The search finds the destination of the first entry whose non-empty id or non-empty name is the reference's, and finds one if and only if there is such an entry |
| `Validation.FindDestination` | internal/validation/validator.go:444-459 | The loop is that search |
| `Validation.SilenceMeansAllPass` | internal/validation/validator.go:120-135 | If keys tell the references apart, the de-duplicated rule is silent if and only if every reference passes |
| `Validation.SlashFreeIdsDistinguish` | internal/validation/validator.go:129-133 | Ids without a slash make the keys unambiguous |
| `Validation.DeduplicationIsSafeIff` | internal/validation/validator.go:120-135 | For references with an id and a name, silence can be trusted under every map if and only if the keys tell them apart |
| `Validation.SlashInIdHidesContainer` | internal/validation/validator.go:129-133 | A concrete unmapped container that goes unreported |
| `Validation.PickStorageClass` | internal/transfer/manager.go:120-137 | After a validation without Error the class comes from a matching entry and was looked up: the "default" fallback is not used |
| `Validation.BuildNetwork` | internal/builder/vm.go:257-324 | After a validation without Error a NIC's network is the destination the validator checked, and the emitted name resolves to the very NAD that was found |

## Left out

- Theorems.LedgerTheorem: covers snapshots, images and DataVolumes, not the regions ConfigMaps, the credential secret and the CA ConfigMap, which Cleanup deletes for the whole migration (see Credentials); a Cancelled VM is excluded, because cancellation does no cleanup; deletion is counted when requested, since failed deletions are only logged.
- Credentials.SecretUsedAfterDeleteIff: looks at phases only; whether an importer or a pod that has already read the secret still needs it is not modelled, nor is the order in which VMs are started.
- Theorems.TwoLiveCopies: speaks of one VM and its own target; two VMs whose names sanitise to the same label are outside it.
- Theorems.BytesConserved: counts in unbounded integers, without int64 overflow.
- Theorems.PrecopyDiscipline: status times keep their full precision; the truncation of stored times to seconds is not modelled.
- DeltaScript.RunScript: the image server is the mock's parser and the target has a fixed size; lines that are not a region's are not modelled, since the text never contains one.
- Validation.Validate: what it guarantees for the migration is one direction only; the storage-class rule looks at every matching entry, so it can report an Error for a class no disk would use. The rules on GPUs, NIC types, MAC addresses, IDE disks, the namespace and installed operators enter as their outcome.
- Scheduler.ScheduleTheorem: MaxInFlight is fixed for the migration.
- Hook Jobs: PreHook and PostHook wait, succeed or fail; their retries are not modelled.
- The Nutanix HTTP client, authentication, task polling and the token cache: their results are choices of the environment.
- setMigrationFailed, deletion handling and initializeVMStatuses: they end a pass early or set up a fresh status and change no VM under way.
- Provider and plan controllers, conditions, events, metrics and logging: thin wrappers over Kubernetes.
- Pod, Secret, ConfigMap and DataVolume objects, size rounding, CPU, memory, firmware and bus mapping, the command line tool and the rest of the mock server: declarative, or easy members only.
