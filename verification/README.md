# Agent GUI runtime: verified models

Dafny models of the protocols and algorithms that the Agent GUI runtime relies on. Each module takes one
piece of the program, keeps its branches, error cases and constants, and proves what that piece is for over every
input, every interleaving, or every run with crashes at any step.

| files | what they model |
|---|---|
| `Transaction`, `Consistency`, `UpdateSteps`, `Updater`, `RecoveryLimits`, `PathOrder` | the transactional updater: write-ahead journal, backups, ordered file exchange, registry value, the marker that blocks startup, installation leases and the session registry |
| `Admission` | HTTP ownership: initialise, POST, GET, DELETE, and the proof that releases an owner |
| `Budget`, `Sharing`, `Runner` | the token budget journal, any number of processes that share it, and the benchmark runner that sends each request at most once |
| `Matching` | one-to-one scoring of ambiguous boxes by augmenting paths |
| `CurrentAgent` | the click session of the current Agent |
| `LearningLedger` | the ledger of action learning |
| `ContentTree`, `ContentStability` | control trees and the proof that two frames show the same content |
| `Installer` | the component installer and its two nested compensations |
| `ModuleClosure` | the sources a component needs |
| `MetadataTables` | the table stream of a managed assembly (section II.24.2.6 of ECMA-335) |
| `InputPump` | the writer that feeds a child's standard input |
| `PlanSnapshots` | what a client accepts as the next snapshot of a task plan |
| `Values` | an option type, and what counts as white space |

Objects whose methods update fields are classes with those fields; the environment (crashes, exceptions, replies,
timeouts, partial writes, other processes) is an argument such as a fault script, so a contract that holds for every
argument holds for every behaviour of the environment. SHA-256 is a constructor or the value itself, canonical JSON is
the value it encodes, an atomic replace is one step, and a file system is a map from path to content.

## What is proved

- Updater. `Updater.RuntimeUpdater.Run`: for any file set, any operations, and faults or crashes at any steps, also
  inside recovery, every operation path holds exactly its old or its new content, files that are not one complete
  installation lie behind the pending marker, and a process that holds a lease sees a complete installation. `Apply`
  and `Recover` say what an answer means: applied is the complete new installation, rolled back is the old one. Every
  session that was ever launched is registered or settled, so maintenance never overtakes a running one. An applied
  target is always a later patch of the same release line with the same configuration and dependencies, and over any
  run the installed version never leaves its line and falls only through a rollback or a recovery.
- Recovery has a limit, and the limit is exact. Undisturbed, `Recover` succeeds if and only if the journal is still
  `preparing` or every old file has its complete copy in the backup. `RecoveryLimits` shows that the other case is
  reachable: rolling back a transaction that was `preparing` saves `rolled_back` (app/runtime_update.py:881-882), and a
  crash before the marker is cleared (app/runtime_update.py:883) leaves a journal that is validated against an
  incomplete backup (app/runtime_update.py:825). The files are the old ones, startup stays blocked, and no later run
  of these operations gets out. It takes two faults: `Apply` with at most one exception or crash never strands an
  update, and with one fixed script of two faults it always does.
- Admission. The POST counter is the number of POSTs in flight, with one exception that the model keeps: when a failed
  handshake cannot be terminated inside the `finally` block (app/instant_mcp_http.py:258-266), the exception skips the
  counter and the flag. `abandoned` counts that case; `Step` says exactly when it rises, `Run` that it does not rise
  without such an event, and `HandshakeIsAbandoned` reaches it. From then on nobody is ever admitted again. A Runtime
  that was ever started loses its owner only after its host has given its final report.
- Budget and runner. The books of every journal balance, and each appended event replays to the state the writer
  computed. However many processes in however many output directories share a journal, and however their moves
  interleave, no request id is ever sent twice (`Sharing.RunTogether`); `RunAgain` keeps this for crashed and resumed
  runs of one directory among the others. A complete undisturbed run with a journal of its own accounts for every
  committed token. A crashed run can be resumed: undisturbed, it completes if and only if each task is new and fits, is
  reserved without receipt, or has a receipt that matches, and each row says which (`Run`, `ResumeAfterCrashes`).
- Matching. The answer is true if and only if the boxes can be paired one to one so that each pair shares enough of its
  pixels; the quotient is proved to be a count of pixels, and a failed search yields a Hall violator.
- Click session. No outer id is transmitted twice, two clicks are separated by a terminal receipt and a decisive
  verdict, nothing is prepared, resolved or continued after cancel or complete. The verified phase does not imply that
  the latest verdict is decisive, and the exception is exact: over any run it is implied as long as no uncertain
  verdict is accepted while a pending setup command is to restore the verified phase (`Run`, `AgentVerify`); after
  such a verdict the phase is wrong exactly when that command's receipt is read back (`AgentStatus`, `AgentCancel`).
  `StaleFromTheStart` gets there from a new session. While the latest report leaves open whether the click was executed,
  no further click is ever sent. That no verdict is accepted either is not true of the program: a receipt that says
  "pending" replaces the unknown phase (scripts/current_agent_client.py:292-294), and the gate of a verdict only looks
  at the phase (scripts/current_agent_client.py:492-493). `VerdictInDoubt` gets there from a new session, and `Run`
  proves that it takes such a reply.
- Learning ledger. Active sessions and bound runtimes correspond one to one. The program's own validator does not
  enforce it (`ValidatorIsWeaker`): a ledger that it accepts has this property if and only if no two active sessions
  share a runtime (`AcceptedIsSoundIf`). A receipt makes at most one event in a session, but a later session of the
  same runtime may hold another (`SecondSessionSecondEvent`): over any run, receipts stay unique in the whole ledger
  if and only if no awaited delivery had an id that another session already holds (`Observe`, `Run`). Not every gap can
  be cleared (`DuplicateLeavesGap`): a delivery clears a gap if and only if its receipt id is new to the session.
- Same content. The ancestor lists pass the checks if and only if they are the parent paths of one rooted tree, and
  accepted frames agree on every pixel of every control inside a visible document. A pixel that changed belongs to one
  renamed leaf of a tool bar and to nothing else that could be hit.
- Plan snapshots. Over any calls, the snapshots that a client accepts of one run share their binding, their histories
  are prefixes of each other, the command of a waiting step changes at most once, and completion comes with every
  planned step a success. Review packets are chained only in part, and the condition is exact. While every snapshot
  comes with its packet, a packet is named by a later one of the same step if and only if the command is still the same
  (`PacketsDescendIf`), and a packet about a field or before an action if and only if no ordinary review packet has
  followed (`EarlyDescendsIf`). So the chain starts over when a step is resumed (`RetryInTurn`), when an ordinary packet
  follows an early one (`FieldInTurn`), and after a snapshot without a packet (`ChainIsForgotten`, `GapInTurn`).
- Installer, closure, tables: whichever single step fails, compensation restores everything, the worklist computes the
  least closed set, and one end check bounds every number that the walk over the tables reads. A second identity type
  is refused only if one before it owns fields (app/runtime_update.py:397), which `FindIdentity` states exactly.
- Pump: the child receives a prefix of what was submitted. Closing does not always drain the queue
  (`LastFrameIsLost`): everything arrives if and only if the close does not fall between the moment the writer found
  the queue empty and its look at the closed input, with a frame submitted in that moment (`FinishAndDrain`).

## Model

| member | source | states |
|---|---|---|
| Transaction.SoundDescribes | app/runtime_update.py:917-925 | the journal's operations name each old or new path exactly once with its own facts, and the marker comes last |
| Transaction.IntactIffValid | app/runtime_update.py:818-850 | for a transaction written by `apply`, a directory passes validation exactly when it holds every old fact |
| Transaction.InstalledMeans | app/runtime_update.py:547-572 | an installation is complete exactly if the uninstaller and every file of the manifest inside it are there unchanged, and the record says the same version and files |
| Transaction.UnchangedIffWhole | app/runtime_update.py:547-572 | holding all facts of a record is the same as being its complete, unmodified installation |
| Transaction.CompatibleMeans | app/runtime_update.py:632-651 | a target is compatible exactly if it is a later patch of the same major and minor number, the updater's own files are installed, and no configuration or dependency file differs |
| Transaction.AllOldIsWhole | app/runtime_update.py:852-880 | when every operation path is old, the root is the complete old installation |
| Transaction.AllNewIsWhole | app/runtime_update.py:944-967 | when every operation path is new, the root is the complete new installation under the new marker |
| Transaction.Names | app/runtime_update.py:920-920 | the order of the paths: each once, the uninstaller before the marker at the end |
| PathOrder.Sorted | app/runtime_update.py:920-920 | the sorted names are the same names, ordered, each once |
| PathOrder.Trichotomy | app/runtime_update.py:920-920 | the order of names is total and irreflexive |
| PathOrder.LeastIsUnique | app/runtime_update.py:920-920 | a set of names has one first name |
| Consistency.UnblockedIsComplete | app/runtime_update.py:783-797 | in every phase each path is old or new, and without the marker all are old or all are new |
| Consistency.IncompleteIsBlocked | app/runtime_lifecycle.py:93-97 | a consistent disk whose files are not one installation carries the pending marker, so no lease is granted |
| Consistency.SaveFits | app/runtime_update.py:780-781 | saving a phase that fits the files keeps the disk consistent |
| Consistency.Unrelated | app/runtime_update.py:721-750 | staging and creating transaction directories cannot break the current transaction |
| Consistency.SameRoot | app/runtime_update.py:863-877 | putting every operation path back, and nothing else, gives back the very same files |
| UpdateSteps.MadePlanIsFresh | app/runtime_update.py:899-925 | the plan `apply` writes after its checks is sound and describes the installed files as all old |
| UpdateSteps.PrepareSteps | app/runtime_update.py:913-928 | each step that creates a transaction leaves a consistent disk |
| UpdateSteps.RootStep | app/runtime_update.py:944-959 | exchanging one file for its old or new content keeps every path old or new behind the marker |
| UpdateSteps.SourceMatches | app/runtime_update.py:953-956 | the staged source of each operation carries the promised new content |
| UpdateSteps.ValidityIsSaved | app/runtime_update.py:824-828 | past `preparing`, a transaction validates exactly when its backup is complete |
| UpdateSteps.PrecheckIsSaved | app/runtime_update.py:985-996 | without the marker, recovery's own checks accept exactly the recoverable transactions |
| UpdateSteps.CommittedIsIntact | app/runtime_update.py:998-1003 | a committed transaction passes the checks of its completed recovery |
| UpdateSteps.AtomicView | app/runtime_update.py:891-975 | seen from before the update, a path is unchanged or holds its new fact, and no other path is touched |
| UpdateSteps.AppliedView | app/runtime_update.py:891-975 | an untried plan means the very same installation, a tried one the complete new installation and registry value |
| UpdateSteps.NotStranded | app/runtime_update.py:824-828 | an update that is unblocked, backed up or still `preparing` is not stranded |
| UpdateSteps.StrandedIf | app/runtime_update.py:881-883 | saving `rolled_back` before any copy was made, with the marker in place, strands the update |
| UpdateSteps.VersionOfPlan | app/runtime_update.py:944-959 | wherever an update was cut short, the recorded version is the old or the new one, and the new one is a later patch of the same line |
| UpdateSteps.AppliedIsNext | app/runtime_update.py:891-975 | at the end of `apply` the files a patch may not change are the same, and an applied target is a later patch |
| UpdateSteps.UnfitIsRefused | app/runtime_update.py:632-651 | a target that is not a later patch, or that changes configuration or dependencies, passes the guard of neither `stage` nor `apply` |
| UpdateSteps.GuardMeans | app/runtime_update.py:721-750 | when exactly a target may be staged; what holds before an update can be applied; a target older than one seen is refused |
| Updater.RuntimeUpdater.Commit | app/runtime_update.py:208-231 | a durable step happens whole or not at all, whatever the fault |
| Updater.RuntimeUpdater.SavePhase | app/runtime_update.py:780-781 | the journal on disk carries the old phase or the new one, never anything else |
| Updater.RuntimeUpdater.PublishPending | app/runtime_update.py:783-790 | the marker is set for this transaction, or nothing changed |
| Updater.RuntimeUpdater.ClearPending | app/runtime_update.py:792-797 | only a committed or rolled back transaction loses its marker |
| Updater.RuntimeUpdater.Prepare | app/runtime_update.py:913-928 | creating the transaction leaves the installation alone; cut short, it is not stranded |
| Updater.RuntimeUpdater.BackupOne | app/runtime_update.py:930-939 | one copy: complete and checked, or the step raises and only this copy is in doubt |
| Updater.RuntimeUpdater.BackupFiles | app/runtime_update.py:930-939 | finishing without a fault leaves a complete copy of every old file; nothing else changes |
| Updater.RuntimeUpdater.ApplyOne | app/runtime_update.py:944-959 | one exchange: the path holds its new content, or is as before |
| Updater.RuntimeUpdater.ApplyFiles | app/runtime_update.py:944-959 | finishing makes every operation path new; at every cut each path is old or new and no other path is touched |
| Updater.RuntimeUpdater.ReplaceAll | app/runtime_update.py:944-961 | finishing makes every file and the registry value new |
| Updater.RuntimeUpdater.CheckHealth | app/runtime_update.py:964-967 | the update passes only when healthy and whole |
| Updater.RuntimeUpdater.RestoreOne | app/runtime_update.py:863-877 | one restore: the path holds its old content, or is as before; a foreign file is refused |
| Updater.RuntimeUpdater.RestoreFiles | app/runtime_update.py:863-877 | finishing makes every operation path old; at every cut each path is old or new and no other path is touched |
| Updater.RuntimeUpdater.TryRollback | app/runtime_update.py:854-884 | undisturbed it succeeds exactly when the phase is `preparing` or the backup is complete |
| Updater.RuntimeUpdater.RestoreAll | app/runtime_update.py:860-879 | finishing makes all files and the registry value old |
| Updater.RuntimeUpdater.FinishRollback | app/runtime_update.py:880-883 | the rollback ends unblocked, or with the files old and the marker in place |
| Updater.RuntimeUpdater.UndoTransaction | app/runtime_update.py:852-889 | rolled back means all old and unblocked; with an incomplete backup no file is touched |
| Updater.RuntimeUpdater.EnterMaintenance | app/runtime_task_ledger.py:326-354 | maintenance starts only without leases and with every registered session settled; unsettled ones are never dropped |
| Updater.RuntimeUpdater.TryApply | app/runtime_update.py:929-967 | failing while `preparing` has changed nothing; failing later leaves a complete backup |
| Updater.RuntimeUpdater.Exchange | app/runtime_update.py:942-967 | from the complete backup on, each path is old or new and the backup stays complete |
| Updater.RuntimeUpdater.Execute | app/runtime_update.py:929-975 | applied means all new and healthy, rolled back means all old; undisturbed, health decides |
| Updater.RuntimeUpdater.Finish | app/runtime_update.py:971-974 | saving `committed` and clearing the marker keep the new files |
| Updater.RuntimeUpdater.Apply | app/runtime_update.py:891-975 | crash atomicity of `apply`; an applied target is a strictly later patch of the installed line, configuration and dependency files never change, and any other, superseded or unready target is refused; exactly when it applies, rolls back or refuses without faults; one fault never strands an update, and one script of two faults always does |
| Updater.RuntimeUpdater.Resume | app/runtime_update.py:985-1006 | recovery of a known transaction: success exactly when it is recoverable, otherwise the files stay as they are |
| Updater.RuntimeUpdater.Recover | app/runtime_update.py:977-1006 | a recovery that returns leaves all paths old, or all new when, and for any faults only when, the journal says committed; exact success condition; the version stays in its line |
| Updater.RuntimeUpdater.Rollback | app/runtime_update.py:1008-1024 | rolling back a committed update gives the complete old installation; refusals change nothing; the version stays in its line |
| Updater.RuntimeUpdater.StageTarget | app/runtime_update.py:721-750 | staging changes no installed file, never lowers the highest version seen, refuses every target that is not a later patch of the line or is older than one seen, and undisturbed succeeds exactly for the others when their stage is valid |
| Updater.RuntimeUpdater.AcquireLease | app/runtime_lifecycle.py:60-104 | a lease is granted exactly while no update is pending, and then the installation is complete |
| Updater.RuntimeUpdater.RegisterSession | app/runtime_task_ledger.py:116-171 | an entry is published whole or not at all and never overwritten, so whoever publishes first stays its registrant, with any other writer at any moment |
| Updater.RuntimeUpdater.AbandonUnlaunched | app/runtime_task_ledger.py:174-189 | an entry goes exactly when its own registrant asks and no session directory exists |
| Updater.RuntimeUpdater.LaunchSession | app/instant_mcp.py:312-357 | a host is created only after its process holds a lease and its session is registered; cut short anywhere, the session stays registered |
| Updater.RuntimeUpdater.ClearSession | app/runtime_task_ledger.py:314-323 | a session leaves the registry only with its settlement evidence |
| Updater.RuntimeUpdater.CloseLease | app/runtime_lifecycle.py:106-110 | closing or dying drops exactly this lease |
| Updater.RuntimeUpdater.Maintenance | app/runtime_update.py:891-1024 | any operation with any faults: nothing changes while a lease is held or a session is unsettled; the version stays in its line and `apply` never lowers it |
| Updater.RuntimeUpdater.Step | app/runtime_update.py:891-1024 | no maintenance step changes the installation while a lease is held or a registered session is unsettled; no entry of the registry is overwritten; only a rollback or a recovery may lower the version |
| Updater.RuntimeUpdater.Run | app/runtime_update.py:891-1024 | safety of every run: complete or blocked, each path old or new, leases see complete files, every launched session is registered or settled, stranded updates stay stranded; the version never leaves its line and falls only through a rollback or a recovery |
| RecoveryLimits.WindowOf | app/runtime_update.py:881-883 | the disk between saving `rolled_back` and clearing the marker is consistent and whole, and recoverable exactly with a complete backup |
| RecoveryLimits.StuckWindow | app/runtime_update.py:881-883 | the window exists for every installation and every update |
| RecoveryLimits.EmptyBackupIsStuck | app/runtime_update.py:824-828 | with no copy made yet, recovery refuses for good |
| RecoveryLimits.StuckExample | app/runtime_update.py:881-883 | one concrete installation and update that end up stranded |
| Admission.CleanIsProven | app/core/instant_attachment_transport.py:143-145 | a Runtime is clean exactly if its host is not alive, nothing is pending, and it was never started or has given its final report |
| Admission.CleanIsStable | app/instant_mcp.py:249-258 | a clean status reading stays true while no tool call runs |
| Admission.InstantHttpMcpApp.Admit | app/instant_mcp_http.py:187-200 | exactly which POST and GET requests are admitted, and as what |
| Admission.InstantHttpMcpApp.ToolRuns | app/instant_mcp.py:260-262 | a tool call inside an admitted POST cannot spoil a clean reading, since no DELETE is in progress |
| Admission.InstantHttpMcpApp.CommitHandshake | app/instant_mcp_http.py:247-251 | an owner is set only from none |
| Admission.InstantHttpMcpApp.EndRequest | app/instant_mcp_http.py:252-266 | the request leaves; the counter is lowered except for the handshake that could not be terminated |
| Admission.InstantHttpMcpApp.BeginDelete | app/instant_mcp_http.py:306-315 | a DELETE starts exactly for the owner, with no transition and no POST in flight |
| Admission.InstantHttpMcpApp.ReadStatus | app/instant_mcp_http.py:317-326 | the reading is clean exactly if it succeeds, the host is not alive, nothing is pending, and the host was never started or has given its final report |
| Admission.InstantHttpMcpApp.Release | app/instant_mcp_http.py:330-335 | the owner is dropped exactly after a successful native DELETE on a clean reading, and the host is then dead, with its final report if it was ever started |
| Admission.InstantHttpMcpApp.EndDelete | app/instant_mcp_http.py:338-341 | the DELETE leaves, and a new transition may start |
| Admission.InstantHttpMcpApp.HostProgresses | app/core/instant_attachment_transport.py:96-145 | the host may only exit, answer and finish; a clean reading survives that |
| Admission.InstantHttpMcpApp.Step | app/instant_mcp_http.py:187-341 | every block keeps the counter, the flags and the owner consistent, and says in plain fields when a request is admitted, the owner is set or dropped, and a request leaves; a handshake is abandoned exactly when its termination raises; the owner never passes from one id to another |
| Admission.InstantHttpMcpApp.Run | app/instant_mcp_http.py:187-341 | at rest the counter and the flags are back to zero, unless a handshake was abandoned, which takes an event that abandons one, and then nobody is admitted again; a Runtime that was ever started is released only after its final report |
| Admission.HandshakeIsAbandoned | app/instant_mcp_http.py:258-266 | one initialise whose failed handshake cannot be terminated leaves the counter at one for good |
| Admission.OnlyInitial | app/instant_mcp_http.py:187-197 | at most one request initialises |
| Admission.PostExcludesDelete | app/instant_mcp_http.py:309-312 | while a POST is in flight nothing is being deleted |
| Admission.DeleteExcludesPosts | app/instant_mcp_http.py:309-312 | a DELETE is alone and sees no POST in flight |
| Budget.ArgumentRules | scripts/decision_benchmark_budget.py:42-51 | a request id has at most 256 characters, not all white space; a hash is 64 digits of lower-case hexadecimal |
| Budget.JournalBalances | scripts/decision_benchmark_budget.py:174-196 | over every journal: committed is settled plus unsettled, at most the limit plus the overruns, at most the limit until halted, and halted means an overrun |
| Budget.ReserveBalances | scripts/decision_benchmark_budget.py:180-185 | a replayed reservation keeps the books balanced |
| Budget.SettleBalances | scripts/decision_benchmark_budget.py:186-194 | a replayed settlement keeps the books balanced |
| Budget.SumSplit | scripts/decision_benchmark_budget.py:170-170 | a sum over the requests does not depend on the order in which they are taken |
| Budget.RequestsAreReserved | scripts/decision_benchmark_budget.py:180-185 | the requests of a journal's meaning are exactly the ids reserved in it |
| Budget.RefusedStaysRefused | scripts/decision_benchmark_budget.py:162-167 | once an event is refused, no later event makes the journal readable again |
| Budget.TokenBudget.ReadState | scripts/decision_benchmark_budget.py:143-172 | the loop computes exactly the meaning of the journal, and refuses a torn journal or a head that does not match |
| Budget.TokenBudget.Append | scripts/decision_benchmark_budget.py:127-141 | an append that is cut short leaves the old budget, one that every later access refuses, or, after the complete head, the event |
| Budget.TokenBudget.Reserve | scripts/decision_benchmark_budget.py:202-215 | undisturbed: false exactly if the id is reserved with the same amount and hash, a conflict exactly if with others, exceeded exactly if it does not fit or the budget is halted, true exactly otherwise, and then with a durable reservation; what is left when it is cut short |
| Budget.TokenBudget.Settle | scripts/decision_benchmark_budget.py:217-233 | undisturbed: a settlement is booked exactly if the id is reserved and unsettled, false for the same settlement again, a conflict for another one; an overrun is booked and then reported; what is left when it is cut short |
| Budget.ReserveTwice | scripts/decision_benchmark_budget.py:202-215 | the same reservation again answers false and leaves the books alone |
| Budget.SettleTwice | scripts/decision_benchmark_budget.py:217-233 | the same settlement again changes nothing |
| Sharing.SharedBudget.Reserve | scripts/decision_benchmark_budget.py:202-215 | a process is granted a transmission exactly with a fresh reservation, whichever process it is |
| Sharing.SharedBudget.Transmit | scripts/run_decision_benchmark.py:292-304 | a grant allows one transmission |
| Sharing.SharedBudget.Others | scripts/run_decision_benchmark.py:264-314 | whatever the processes in other directories do, the sends and grants of this one stay and no id is sent twice |
| Sharing.SharedBudget.Make | scripts/run_decision_benchmark.py:264-314 | one move of any process keeps every send unique and reserved |
| Sharing.RunTogether | scripts/run_decision_benchmark.py:264-314 | any interleaving of any processes and directories on one journal sends no request id twice |
| Runner.BenchmarkRunner.Send | scripts/run_decision_benchmark.py:206-235 | at most one transmission per grant, and the receipt carries the reported usage |
| Runner.BenchmarkRunner.Record | scripts/run_decision_benchmark.py:206-235 | the raw response is saved before the receipt that counts its usage |
| Runner.BenchmarkRunner.Collect | scripts/run_decision_benchmark.py:268-305 | a saved receipt is used again only if the journal knows the request; a request that anyone has reserved before is never sent |
| Runner.BenchmarkRunner.Book | scripts/run_decision_benchmark.py:286-290 | only a fresh reservation grants the send, and a reservation settles nothing, even when it is cut short |
| Runner.BenchmarkRunner.SettleRow | scripts/run_decision_benchmark.py:306-312 | the usage of a row is booked once, and an overrun turns the row into an error |
| Runner.BenchmarkRunner.Dispatch | scripts/run_decision_benchmark.py:278-305 | only a fresh reservation is sent, once; a reserved request without receipt is reported unknown |
| Runner.BenchmarkRunner.RunTask | scripts/run_decision_benchmark.py:264-312 | undisturbed, exactly when the task completes: it is new and fits, is reserved without receipt, or has a receipt that matches the journal; the status of its row in each case; the journal books exactly the usage the row reports; a request reserved before is never sent |
| Runner.BenchmarkRunner.Run | scripts/run_decision_benchmark.py:264-320 | with a journal that held no other requests and no interference, committed tokens equal reported usage plus the reserve of rows without usage; undisturbed, the run completes exactly if every task can be resumed, and each row says what became of its task |
| Runner.BenchmarkRunner.RunAgain | scripts/run_decision_benchmark.py:243-320 | over any sequence of crashed and resumed runs, with other directories using the budget at any moment, no request id is sent twice |
| Runner.BenchmarkRunner.ResumeAfterCrashes | scripts/run_decision_benchmark.py:243-320 | after any crashed runs of the same tasks an undisturbed run completes, whatever the crashes left that can be read |
| Runner.PaidIsResumable | scripts/run_decision_benchmark.py:268-277 | what a task leaves behind once its usage is booked can be resumed |
| Runner.CostIsWeight | scripts/run_decision_benchmark.py:264-320 | the sum over the rows equals the sum over the journal's requests |
| Runner.CommittedIsCost | scripts/run_decision_benchmark.py:315-320 | committed tokens of the journal are the cost of the rows |
| Matching.UnionIsPositive | scripts/benchmark_external_vision.py:142-146 | the quotient of the IoU is defined for all proper boxes |
| Matching.PixelCount | scripts/benchmark_external_vision.py:142-146 | the area of a box is the number of its pixels |
| Matching.OverlapCounts | scripts/benchmark_external_vision.py:142-146 | the overlap is the number of pixels in both boxes |
| Matching.IouCounts | scripts/benchmark_external_vision.py:142-146 | the quotient is the number of shared pixels over the number of pixels in at least one box, so it reaches a threshold exactly if these numbers do |
| Matching.IouIsSimilarity | scripts/benchmark_external_vision.py:142-146 | the quotient is symmetric and between 0 and 1; it is 1 exactly for equal boxes and 0 exactly for boxes without a common pixel |
| Matching.PairsIffPairsUp | scripts/benchmark_external_vision.py:149-165 | a pairing at the threshold is a one-to-one pairing of boxes that share enough pixels |
| Matching.Search.Assign | scripts/benchmark_external_vision.py:154-163 | success gives the truth box a new candidate and takes none from the others; failure changes nothing and has explored every alternating path |
| Matching.TakeFree | scripts/benchmark_external_vision.py:159-162 | taking a free candidate extends the matching |
| Matching.TakeOver | scripts/benchmark_external_vision.py:159-162 | taking a candidate whose partner moved on extends the matching |
| Matching.HallViolator | scripts/benchmark_external_vision.py:154-163 | what a failed search visited violates Hall's condition, so no pairing exists |
| Matching.CoveredIsMatchable | scripts/benchmark_external_vision.py:165-165 | a matching of all truth boxes is a one-to-one pairing with all candidates |
| Matching.AssignFresh | scripts/benchmark_external_vision.py:165-165 | each top-level search extends the matching by its truth box or refutes every pairing |
| Matching.AssignAll | scripts/benchmark_external_vision.py:165-165 | all searches succeed exactly when a complete pairing exists |
| Matching.AmbiguousBoxesMatch | scripts/benchmark_external_vision.py:149-165 | true if and only if there is a one-to-one pairing of boxes of the same number, each pair sharing enough of its pixels |
| CurrentAgent.OrderlyGrows | scripts/current_agent_client.py:173-189 | a step that may follow keeps the whole log orderly |
| CurrentAgent.SentOnce | scripts/current_agent_client.py:173-189 | no outer request id is transmitted twice |
| CurrentAgent.ClicksAreSeparated | scripts/current_agent_client.py:138-145 | between two clicks lie a terminal receipt of the first and then a decisive verdict on it |
| CurrentAgent.ResetGrounds | scripts/current_agent_client.py:400-406 | only a settled session may start the next click |
| CurrentAgent.UnclearWaits | scripts/current_agent_client.py:330-333 | while the latest report leaves the execution open, the phase is unknown unless a request is pending |
| CurrentAgent.VerdictFits | scripts/current_agent_client.py:510-512 | an accepted verdict keeps the session orderly, and a decisive one is on its command |
| CurrentAgent.CurrentAgentClient.MarkUnknown | scripts/current_agent_client.py:168-171 | the request becomes pending again and nothing else is forgotten |
| CurrentAgent.CurrentAgentClient.BecomeTerminal | scripts/current_agent_client.py:325-326 | the current command has a terminal receipt, once and for all |
| CurrentAgent.CurrentAgentClient.RequestCancel | scripts/current_agent_client.py:322-322 | a cancel closes the session for input |
| CurrentAgent.CurrentAgentClient.BindGrounding | scripts/current_agent_client.py:234-270 | a grounding is bound once; a different request or capture is refused |
| CurrentAgent.CurrentAgentClient.Consume | scripts/current_agent_client.py:287-305 | a receipt of another id changes nothing; an unresolved one keeps the request pending; a setup receipt restores the phase, and nothing else makes a verified phase without a decisive verdict |
| CurrentAgent.CurrentAgentClient.ConsumeResult | scripts/current_agent_client.py:306-320 | an answer is adopted only for the pending grounding or the current command |
| CurrentAgent.CurrentAgentClient.ConsumeHandOff | scripts/current_agent_client.py:307-314 | a hand-off is adopted only for the pending grounding |
| CurrentAgent.CurrentAgentClient.ConsumeWaiting | scripts/current_agent_client.py:292-294 | a receipt without result keeps its request pending |
| CurrentAgent.CurrentAgentClient.ConsumeSetup | scripts/current_agent_client.py:296-305 | the receipt of a setup command restores the phase it was sent in, unless it selected another window |
| CurrentAgent.CurrentAgentClient.ConsumeCommand | scripts/current_agent_client.py:321-354 | after a terminal report the phase is unknown exactly if the execution or a dispatch is, verified exactly if a decisive verdict stands and the status is unchanged, cancelled exactly if the click was cancelled unexecuted, and otherwise a verdict is required |
| CurrentAgent.CurrentAgentClient.NoteReport | scripts/current_agent_client.py:321-324 | a report never takes a cancel back |
| CurrentAgent.CurrentAgentClient.AdoptTerminal | scripts/current_agent_client.py:325-337 | the terminal phase, for each report and each verdict so far |
| CurrentAgent.CurrentAgentClient.AdoptProgress | scripts/current_agent_client.py:338-354 | a cancel outweighs a pending grounding; only a resolved grounding is ready |
| CurrentAgent.CurrentAgentClient.AwaitGrounding | scripts/current_agent_client.py:341-345 | ready, rejected, waiting or without image, by what was bound and resolved |
| CurrentAgent.CurrentAgentClient.Send | scripts/current_agent_client.py:180-216 | one transmission under a new id; timeouts and errors leave exactly that id pending |
| CurrentAgent.CurrentAgentClient.Reserve | scripts/current_agent_client.py:184-189 | the id is reserved with the current phase before anything is transmitted |
| CurrentAgent.CurrentAgentClient.ReceiveReply | scripts/current_agent_client.py:190-215 | only a definite refusal or a receipt resolves a transmission; a refused click becomes terminal |
| CurrentAgent.CurrentAgentClient.Reject | scripts/current_agent_client.py:200-205 | a definitely refused click is terminal, not executed, and must be judged |
| CurrentAgent.CurrentAgentClient.ReadPending | scripts/current_agent_client.py:356-370 | reading the original receipt again transmits nothing |
| CurrentAgent.CurrentAgentClient.AgentStatus | scripts/current_agent_client.py:372-387 | a status query is the only thing transmitted, and nothing is while a request is pending; the verified phase goes stale exactly when the receipt that restores it is read back under an uncertain verdict |
| CurrentAgent.CurrentAgentClient.AgentPrepare | scripts/current_agent_client.py:389-413 | exactly when a click is transmitted, given that its arguments are well formed and permitted; nothing else but a status query is, and no click while the last report leaves the execution open |
| CurrentAgent.CurrentAgentClient.AgentResolve | scripts/current_agent_client.py:415-439 | exactly when a resolve is transmitted, given that its result is valid |
| CurrentAgent.CurrentAgentClient.AgentContinue | scripts/current_agent_client.py:441-450 | exactly when a continue is transmitted |
| CurrentAgent.CurrentAgentClient.AgentCancel | scripts/current_agent_client.py:456-485 | a cancel transmits only cancel and status requests, stops when its own transmission fails, and closes the session for input; the verified phase goes stale exactly when it reads the restoring receipt back under an uncertain verdict |
| CurrentAgent.CurrentAgentClient.CancelCommand | scripts/current_agent_client.py:467-485 | a cancel with nothing pending transmits cancel and status requests only and is recorded |
| CurrentAgent.CurrentAgentClient.PollUntilTerminal | scripts/current_agent_client.py:478-484 | status queries only, and none once the command is terminal |
| CurrentAgent.CurrentAgentClient.CloseForInput | scripts/current_agent_client.py:467-477 | the cancel is recorded before it is transmitted |
| CurrentAgent.CurrentAgentClient.AgentVerify | scripts/current_agent_client.py:487-513 | exactly which verdicts are accepted, which of them leave the verified phase to be restored wrongly, and which fall on an open execution |
| CurrentAgent.CurrentAgentClient.AgentComplete | scripts/current_agent_client.py:515-523 | exactly when the session completes, and that nothing is transmitted |
| CurrentAgent.CurrentAgentClient.SetupCall | scripts/current_agent_client.py:543-553 | exactly when a permitted read or setup command is transmitted |
| CurrentAgent.CurrentAgentClient.VerdictGoesStale | scripts/current_agent_client.py:304-304 | from every verified session with nothing pending, a setup command, an uncertain verdict and the late receipt give a verified phase without a decisive verdict |
| CurrentAgent.CurrentAgentClient.Run | scripts/current_agent_client.py:304-559 | any calls with any replies keep the session orderly, the verified phase decisive unless such an uncertain verdict was accepted, and no click is sent while the latest report leaves the execution open; no verdict is accepted then either, unless a reply said that a request is still pending |
| CurrentAgent.CurrentAgentClient.Take | scripts/current_agent_client.py:372-559 | one call keeps all of that |
| CurrentAgent.StaleFromTheStart | scripts/current_agent_client.py:304-304 | a new session reaches a verified phase whose latest verdict is uncertain |
| CurrentAgent.VerdictInDoubt | scripts/current_agent_client.py:292-294 | a new session accepts a verdict while the terminal report leaves the execution open, because a status query is pending |
| LearningLedger.SoundIsAccepted | app/agent/action_learning_recorder.py:609-643 | in whatever order the sessions are listed, the validator never refuses a ledger that the operations can write |
| LearningLedger.BindingsAreBijective | app/agent/action_learning_recorder.py:637-643 | active sessions and bound runtimes correspond one to one |
| LearningLedger.ValidatorIsWeaker | app/agent/action_learning_recorder.py:637-643 | the validator alone accepts two active sessions of one runtime |
| LearningLedger.AcceptedIsSoundIf | app/agent/action_learning_recorder.py:637-643 | an accepted ledger is sound exactly when no two active sessions share a runtime |
| LearningLedger.EventsAreBound | app/agent/action_learning_recorder.py:685-751 | every event of a reachable ledger joins a record and a receipt of the same runtime and observation, and is filed under its session and receipt |
| LearningLedger.OneEventPerReceipt | app/agent/action_learning_recorder.py:685-751 | in one session a receipt id has at most one event |
| LearningLedger.UniqueUnlessRepeated | app/agent/action_learning_recorder.py:311-339 | a new event keeps receipts unique in the whole ledger exactly when no other session has one of the same id |
| LearningLedger.ActionLearningRecorder.Write | app/agent/action_learning_recorder.py:588-607 | the ledger is replaced whole or not at all, and what is written passes the validator |
| LearningLedger.ActionLearningRecorder.Start | app/agent/action_learning_recorder.py:113-152 | exactly when a session is opened, and that nothing else changes; every answer: retry on a changed ledger, conflict for a bound runtime, and nothing new for its own session again |
| LearningLedger.ActionLearningRecorder.Finish | app/agent/action_learning_recorder.py:211-242 | exactly when a session is finished; a session with gaps is not |
| LearningLedger.ActionLearningRecorder.RecordBefore | app/agent/action_learning_recorder.py:244-283 | a record is added for the bound session only, and no event or receipt changes; a conflict exactly for another record of a pending observation |
| LearningLedger.ActionLearningRecorder.Observe | app/agent/action_learning_recorder.py:285-339 | a delivery makes one event and clears the gap exactly when the observation is pending and the receipt id is new to the session; receipts stay unique in the ledger exactly unless another session has the id; a conflict exactly for another receipt or another record under a known id |
| LearningLedger.ActionLearningRecorder.Step | app/agent/action_learning_recorder.py:588-596 | one call of any caller with any snapshot keeps the ledger sound, raises the revision by one if it writes, and says exactly when a receipt gets a second event; a stuck gap survives it |
| LearningLedger.ActionLearningRecorder.Run | app/agent/action_learning_recorder.py:113-339 | concurrent callers keep the ledger sound, finished sessions frozen, and each write raises the revision by one; receipts stay unique exactly when no call repeats one; a stuck gap stays; no event is ever changed or dropped, and a write touches one session |
| LearningLedger.DuplicateLeavesGap | app/agent/action_learning_recorder.py:328-333 | a second record for an observation whose receipt is already an event stays pending after the duplicate delivery |
| LearningLedger.SecondSessionSecondEvent | app/agent/action_learning_recorder.py:311-339 | a later session of the same runtime can hold a second event of the same receipt |
| ContentTree.OverlapIsSharedPixel | app/agent/control_uia_stability.py:75-77 | proper boxes overlap exactly when they share a pixel |
| ContentTree.ContainsIsAllPixels | app/agent/control_uia_stability.py:65-67 | a box contains another exactly when it holds all of its pixels |
| ContentTree.ConsistentIffTree | app/agent/content_uia_stability.py:51-60 | the ancestor lists pass the checks exactly when they are the parent paths of one rooted tree |
| ContentTree.ClimbsToRoot | app/agent/content_uia_stability.py:51-60 | following parents from any control visits its list in order and ends at the root |
| ContentTree.OutermostExists | app/agent/content_uia_stability.py:61-63 | every visible document lies in an outermost one, or is one |
| ContentTree.IndexControls | app/agent/content_uia_stability.py:31-50 | indexing succeeds exactly for well-formed controls with distinct ids and distinct runtime ids |
| ContentTree.CheckChains | app/agent/content_uia_stability.py:51-57 | the list checks pass exactly when all lists are consistent |
| ContentTree.CheckRoot | app/agent/content_uia_stability.py:58-60 | exactly one control has no ancestors, and it is the window |
| ContentTree.ReadTree | app/agent/content_uia_stability.py:22-66 | a scan is read exactly when it is a complete rooted tree with a visible document |
| ContentStability.UrlMeans | app/agent/content_uia_stability.py:131-131 | a name is refused exactly if one of four URL schemes starts somewhere in it, in upper or lower case |
| ContentStability.ContentIsInDocuments | app/agent/content_uia_stability.py:115-117 | the content ids are those of all controls in any visible document, however documents are nested |
| ContentStability.SameShape | app/agent/content_uia_stability.py:121-132 | accepted trees agree at every place but for names |
| ContentStability.ContentIsUntouched | app/agent/content_uia_stability.py:115-157 | in accepted frames no content control and no pixel of a content box changed |
| ContentStability.ChangedPixel | app/agent/content_uia_stability.py:148-157 | in accepted frames every changed pixel lies in the box of a renamed control |
| ContentStability.ChangedLeaf | app/agent/content_uia_stability.py:120-147 | a renamed control is a visible leaf of a tool bar, and its pixels show no content and otherwise only its ancestors, invisible controls and nameless containers |
| ContentStability.RenamedMeans | app/agent/content_uia_stability.py:124-132 | which leaves may be renamed, and to what |
| ContentStability.AloneIfHarmless | app/agent/content_uia_stability.py:136-144 | the check against competing controls passes exactly if every pixel of the leaf shows nothing else |
| ContentStability.ClearSlice | app/agent/content_uia_stability.py:155-155 | exactly the pixels of the box are cleared in the mask |
| ContentStability.AnyRemaining | app/agent/content_uia_stability.py:156-156 | the mask is searched completely |
| ContentStability.ComparePixels | app/agent/content_uia_stability.py:151-157 | the mask ends empty exactly when every changed pixel lies in one of the boxes |
| ContentStability.CollectChanges | app/agent/content_uia_stability.py:120-147 | the changes are accepted exactly when each is an allowed rename, and the boxes are those of the renamed leaves |
| ContentStability.Compare | app/agent/content_uia_stability.py:86-157 | frames are accepted exactly when the trees match but for allowed renames and no pixel changed outside those leaves |
| Installer.ComponentInstaller.Integration | packaging/component_installer.cs:411-423 | shortcut and registry are both changed, or both as before when every restore worked |
| Installer.ComponentInstaller.RestoreRegistry | packaging/component_installer.cs:365-372 | the registry key is exactly the snapshot again, absent if it was absent |
| Installer.ComponentInstaller.DropValues | packaging/component_installer.cs:369-369 | afterwards only values of the snapshot are left |
| Installer.ComponentInstaller.SetValues | packaging/component_installer.cs:370-370 | afterwards the values are exactly those of the snapshot |
| Installer.ComponentInstaller.BackUp | packaging/component_installer.cs:241-243 | a copy exists of every file that may change and was there |
| Installer.ComponentInstaller.RestoreWritten | packaging/component_installer.cs:250-254 | when every restore works the root is exactly as before, although a failed one does not stop the others |
| Installer.ComponentInstaller.WriteRows | packaging/component_installer.cs:244-244 | finishing installs every payload file; each touched target is noted before it is touched |
| Installer.ComponentInstaller.DropObsolete | packaging/component_installer.cs:245-245 | finishing removes exactly the obsolete unmodified files; payload files stay |
| Installer.ComponentInstaller.WritePayload | packaging/component_installer.cs:244-247 | whatever step fails, only noted targets differ from the originals |
| Installer.ComponentInstaller.Install | packaging/component_installer.cs:214-259 | refused exactly if a payload file would replace an unknown or modified one; done, and then exactly the payload, the unmodified obsolete files and the marker changed; or failed with everything restored that could be, so all of it after a single failing step; unknown and modified files are never touched |
| Installer.ComponentInstaller.DeleteRows | packaging/component_installer.cs:305-305 | only unmodified recorded files go |
| Installer.ComponentInstaller.RemovePayload | packaging/component_installer.cs:305-307 | finishing removes the removable files and rewrites or deletes the marker |
| Installer.ComponentInstaller.RestoreAll | packaging/component_installer.cs:309-313 | when every copy can be put back, the root is exactly as before |
| Installer.ComponentInstaller.Uninstall | packaging/component_installer.cs:292-318 | exactly the recorded, unmodified files are deleted, except the uninstaller while other files remain; a failure restores the root when every copy can be put back |
| Installer.RemovedIsUninstalled | packaging/component_installer.cs:296-307 | deleting the removable files and settling the marker is the whole uninstallation |
| Installer.RemovedIsBackedUp | packaging/component_installer.cs:303-305 | everything an uninstallation removes has its copy |
| ModuleClosure.SourceIsClimbed | scripts/build_component_sources.py:63-67 | a relative import names what its dots climb to, one package each, and is refused exactly if they climb past the source root |
| ModuleClosure.ModuleFilesMeans | scripts/build_component_sources.py:28-40 | a dotted name needs its module, else its package, and the initialisers of the packages around it, as far as they exist |
| ModuleClosure.BadMeans | scripts/build_component_sources.py:46-66 | a source is refused exactly if it lies below a forbidden path, is not a Python file, or imports from too far up |
| ModuleClosure.ClosureIsUnique | scripts/build_component_sources.py:42-78 | the result does not depend on the order of the entries or of the worklist |
| ModuleClosure.ClosureIsReached | scripts/build_component_sources.py:42-78 | the least closed set holds exactly what a chain of needs reaches from an entry |
| ModuleClosure.AddModule | scripts/build_component_sources.py:28-40 | a name makes exactly its module or package and the initialisers above it pending |
| ModuleClosure.AddInitializers | scripts/build_component_sources.py:37-40 | exactly the existing initialisers of the enclosing packages become pending |
| ModuleClosure.AddModules | scripts/build_component_sources.py:60-71 | a list of names adds exactly the files of its names |
| ModuleClosure.AddNode | scripts/build_component_sources.py:59-77 | one import statement adds exactly its files |
| ModuleClosure.Scan | scripts/build_component_sources.py:52-77 | scanning a source makes exactly its needs pending, and fails exactly on a relative import that reaches too far up |
| ModuleClosure.WorklistStep | scripts/build_component_sources.py:42-77 | what is found or pending stays within every closed set, and only pending needs are missing |
| ModuleClosure.Close | scripts/build_component_sources.py:42-78 | the loop ends with the least closed set, or fails exactly when that set meets a bad source |
| ModuleClosure.Collect | scripts/build_component_sources.py:19-78 | it fails exactly for bad entries or when every closed set meets a forbidden, non-Python or badly importing source |
| MetadataTables.IndexIsWidth | app/runtime_update.py:327-330 | index widths are those of section II.24.2.6 of ECMA-335: the widest table decides |
| MetadataTables.GroupKeepsWidth | app/runtime_update.py:333-352 | counting the columns of a row by kind keeps its width |
| MetadataTables.RowSizeIsColumns | app/runtime_update.py:333-352 | all 41 row sizes are the sums of the standard's columns, for every row-count vector and every heap flag |
| MetadataTables.LayOut | app/runtime_update.py:353-358 | the starts are the prefix sums of the table sizes, and the check compares the end of the last table |
| MetadataTables.ReadsAreInside | app/runtime_update.py:353-413 | the single end check bounds every column of every existing row of every table |
| MetadataTables.RowsAreApart | app/runtime_update.py:353-413 | different tables and different rows never share a byte |
| MetadataTables.WalkedColumns | app/runtime_update.py:361-413 | the offsets used by the walk are the starts of the columns it means to read |
| MetadataTables.WalkResources | app/runtime_update.py:357-374 | the walk reads exactly the offset, the name and the implementation of each resource row, inside the stream |
| MetadataTables.FindIdentity | app/runtime_update.py:393-402 | only names and first fields of type rows are read; the image is refused exactly if an identity owns fields that do not exist or another identity follows one that owns fields, and otherwise the fields are those that an identity owns |
| MetadataTables.WalkConstants | app/runtime_update.py:403-413 | the walk reads the parent of each constant row, and the rest of the row and the name of its field exactly for the fields of the identity, inside the stream |
| MetadataTables.Walk | app/runtime_update.py:353-413 | for every stream every number the walk reads lies inside; it is refused exactly if the end check fails or the identity does |
| InputPump.Pump.SubmitFrame | scripts/instant_admin_worker.py:48-54 | a frame is accepted exactly while the input is open and the queue is not full |
| InputPump.Pump.TakeStep | scripts/instant_admin_worker.py:58-64 | when the writer ends, which frame it takes, and that it does nothing inside a frame or when closed |
| InputPump.Pump.WriteStep | scripts/instant_admin_worker.py:65-73 | a partial write keeps delivered and remaining bytes in order; a finished frame returns the writer to the queue, and only failure or stop closes it |
| InputPump.Pump.Step | scripts/instant_admin_worker.py:48-78 | one move of the bridge or of the writer; after the close nothing is added |
| InputPump.Pump.Run | scripts/instant_admin_worker.py:38-89 | under any interleaving the child receives an in-order prefix of the submitted frames |
| InputPump.Pump.FinishAndDrain | scripts/instant_admin_worker.py:58-78 | a writer that ends without failure or stop has delivered everything exactly if the input was not closed right after it found the queue empty with a frame submitted since |
| InputPump.LastFrameIsLost | scripts/instant_admin_worker.py:60-63 | a frame submitted between the empty queue and the closed input is never written |
| PlanSnapshots.WellChainedMeans | scripts/learning_benchmark_client.py:152-170 | the first packet with observations names its basis, the second its basis and its predecessor, and both an observation among their inputs |
| PlanSnapshots.ExtendsMeans | scripts/learning_benchmark_client.py:171-181 | a packet continues another one exactly if it names it after all that this one names, keeps all its evidence and is about the same |
| PlanSnapshots.AcceptableIsSound | scripts/learning_benchmark_client.py:424-524 | the wait, the ticket and the packet of an accepted snapshot are about the command of its run, and about its step or the one just settled |
| PlanSnapshots.AcceptableIsLinked | scripts/learning_benchmark_client.py:372-524 | an accepted snapshot extends the chain of those accepted before it for its run |
| PlanSnapshots.HistoryGrows | scripts/learning_benchmark_client.py:383-399 | within a run the binding is constant and each history is a prefix of all later ones |
| PlanSnapshots.PacketsDescend | scripts/learning_benchmark_client.py:152-181 | while every snapshot comes with its packet and no ordinary review packet is new, each packet with manual observations names all packets before it and keeps their evidence |
| PlanSnapshots.PacketsDescendIf | scripts/learning_benchmark_client.py:400-505 | while one step is shown with its packet, a packet that is not early is named by a later one if and only if the command is still the same |
| PlanSnapshots.EarlyDescendsIf | scripts/learning_benchmark_client.py:496-505 | while every snapshot comes with its packet, an early packet is named by a later one if and only if no ordinary review packet was shown since (different packets having different digests) |
| PlanSnapshots.FirstAncestorIsReview | scripts/learning_benchmark_client.py:496-505 | after an ordinary review packet, every later packet is one or has one as its first ancestor |
| PlanSnapshots.ChainIsForgotten | scripts/learning_benchmark_client.py:171-181 | for one poll: after a snapshot without a packet any well-formed packet with observations is accepted, after one with a packet exactly those that name it |
| PlanSnapshots.StepReplaces | scripts/learning_benchmark_client.py:496-505 | an ordinary packet takes the place of another one only when the step is resumed or its field is filled in |
| PlanSnapshots.GapInTurn | scripts/learning_benchmark_client.py:171-172 | a packet, the same wait without one, and then a packet that does not know the first are accepted in turn |
| PlanSnapshots.FieldInTurn | scripts/learning_benchmark_client.py:498-505 | an early packet, an ordinary one of the same command, and a packet that names only the second are accepted in turn |
| PlanSnapshots.RetryInTurn | scripts/learning_benchmark_client.py:400-418 | a packet, the review packet of the resumed step, and a packet that names only the second are accepted in turn |
| PlanSnapshots.ReadInTurn | scripts/learning_benchmark_client.py:372-524 | a new client that reads three such snapshots has accepted them |
| PlanSnapshots.TicketIsKept | scripts/learning_benchmark_client.py:400-418 | while a step waits, its command id changes at most once, to that of its only retry, and only after a packet said that the action was blocked before it was sent |
| PlanSnapshots.LinkedIsChained | scripts/learning_benchmark_client.py:372-524 | what holds of neighbouring snapshots holds of any two of a run |
| PlanSnapshots.RereadingIsAccepted | scripts/learning_benchmark_client.py:424-453 | a snapshot is accepted again when the client remembers that its wait was reviewed, and otherwise exactly if it was not |
| PlanSnapshots.PlanClient.PlanSnapshot | scripts/learning_benchmark_client.py:372-524 | exactly when a snapshot is accepted, what is stored then, and that a refused one changes nothing |
| PlanSnapshots.PlanClient.RunPlan | scripts/learning_benchmark_client.py:641-757 | the polls of one call only extend what was accepted |
| PlanSnapshots.PlanClient.Drive | scripts/learning_benchmark_client.py:641-757 | over any calls, all snapshots accepted of a run have one binding, growing histories, sound waits, chained packets that only a resume or a filled field replaces, and one ticket, and completion is proven |

## Left out

- Windows and kernel calls (file locks, replace, SIDs, registry API, COM, named pipes) are atomic guarded steps.
- HTTP, the MCP SDK, uvicorn and GitHub are nondeterministic replies; tool calls are assumed to run only inside admitted POSTs.
- Image decoding, OCR and numpy: a frame is a table of pixel values.
- SHA-256 and JSON are injective; duplicate keys, encodings and size limits of the parsers are not modelled.
- Matching.AmbiguousBoxesMatch: the IoU and its threshold are exact reals, so a rounding of the float quotient at the threshold is not captured.
- Updater: `check`, release listing, zip entries, the execution descriptor, case folding of names, reparse points and directory creation; the running interpreter's version check.
- Updater.RuntimeUpdater.StageTarget: the download is an argument, and an interrupted download leaves no partial stage because the stage directory appears by one rename.
- Updater.RuntimeUpdater.RegisterSession: an entry that names another session cannot occur, since its name is the digest of the session; its conflict error is not modelled, nor are damaged entries.
- Updater.RuntimeUpdater.AbandonUnlaunched: not a step of `Run`, since nothing in the program calls it; that no process was created is its caller's demand.
- Updater.RuntimeUpdater.constructor: a run starts from a complete installation without a transaction.
- Updater.RuntimeUpdater.Step: an operation holds the exclusive lock until it ends or crashes, so lease steps fall between operations, not inside them.
- Updater: edits of installed files by other programs; every check against them is modelled and never fires in a run.
- Admission: the bodies and headers of messages, authentication, and the retention of receipts.
- Budget.TokenBudget.constructor: a creation that is cut short leaves a budget that every later opening refuses; opening an existing file is not modelled.
- Runner: the prepared mode, the frozen task list, and the parsing of responses; a saved receipt is read back as it was written.
- Runner.BenchmarkRunner.Run: the cost of a run among other processes on one journal; each row's own usage is booked (`RunTask`), the total is stated for undisturbed runs.
- CurrentAgent: selected targets beyond one equality, image files beyond one integrity flag, and the arguments of commands beyond one flag for each check.
- LearningLedger: the shape of records, the review of authority before the lock, and the reading views.
- ContentStability.Compare: the binding of the scan to the window, the application and the digests, letters outside ASCII that a URL may match without regard to case, and colour conversion.
- Installer: staging, path checks, running processes, directories, and a delete that raises after it took effect.
- ModuleClosure.Collect: absolute entry paths, symbolic links, syntax errors, and dotted names with empty parts; the sorted order of the result.
- MetadataTables: the PE headers, the stream directory, heaps and the 32-bit reads themselves.
- InputPump: time-outs, the cancellation of a blocked write, and the child's output streams.
- PlanSnapshots: digests, paths, types and constants inside a packet or a snapshot are one flag each, and a packet of an older version has no ancestors; one client polls a run at a time.
- PlanSnapshots.PlanClient.RunPlan: waiting, time-outs and the events for the caller.
- The start and recovery of a session beyond the start-attempt flag, and its launch beyond the order of lease, registration and host (app/instant_mcp.py).
- Tool descriptions, argument parsing, packaging lists, smoke checks, receipts projection and dialogs: no hard property.
