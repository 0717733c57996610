# Oh-My-Gunnsama: a verified model of the run core

This project models the parts of the agent-orchestration daemon whose behaviour spans several
functions, and proves what they promise. Nothing here executes the daemon; every statement is a
contract or lemma that Dafny checks (`dafny verify dfyconfig.toml`).

| module | models |
|---|---|
| `RunPipeline`, `RunAgreement`, `RunClosure`, `OverlappingRun` | the two-phase run protocol, its event log, and how response, folded ledger and lifecycle file relate at the end of a run, also when its store accesses interleave with other callers' |
| `Ledger`, `LedgerRows`, `LedgerIntegrity`, `EventRows` | the storage transaction for one event: projections, upserts, rollback; what each row says afterwards; the schema's REFERENCES and CHECK clauses as specification; how many rows events leave |
| `SessionState`, `OverlappingCallers` | the lifecycle file of a session: first for calls that do not overlap, then with reads and writes of any number of callers interleaved |
| `Verification` | check specs, plan building, plan execution and its records |
| `Daemon` | Start and Close of any number of servers on one lock and socket path, step by step |
| `Prompt`, `Text` | the budget allocator and the arithmetic of whitespace-separated tokens |
| `PiDriver`, `PiLiveness` | the goroutines of the pi driver: scanner, stderr drainer, reaper, consumer, Wait callers; the subprocess with its bounded pipes, and when the driver finishes |
| `HookChain`, `Guard`, `ToolBefore`, `McpManager`, `Route` | the order-sensitive folds and the process cache |
| `StableSort`, `Wrappers` | the contract of Go's stable sort that four of the modules rely on; optional values |

How the outside world is represented. The database is a record of maps from id to row. A sink is a
log of attempts; at which statement of the transaction an attempt fails, if it does, is an arbitrary
function of its position. The worker is an arbitrary finite stream of events and an arbitrary result,
the command runner and the factory may fail at will, and so may every file write, before or after its
temporary file is made. Clocks, generated ids, the id hash, lower-casing in `Route`, path globbing
and the liveness of processes are parameters. Processes, callers, servers and goroutines interleave
in every order.

## What turned out to be false

Each of these is stated with a concrete or general counterexample and the exact condition under which
the expected property does hold.

- Losing records before the end of a run can make the ledger disagree with the response: the work item
  can stay ready or running, or end `verified` or `completed` while the run is `failed`.
  `RunAgreement.LedgerAgreesIff` says exactly when, for any loss: agent_stopped must be accepted; with
  verification also the verdict and, if the checks passed, all evidence; without it, the worker's outcome.
- A failed run whose request names the generated session leaves that session row `running`, because
  the final diagnosis re-projects it (`RunAgreement.LedgerAfterRun`).
- After a spawn failure the ledger says failed and the lifecycle file says running, exactly when the
  running record was written (`RunAgreement.SpawnFailureLeavesFileRunning`).
- A stale sweep that read a session before it finished and writes afterwards puts it back to blocked
  (`OverlappingCallers.OverlapCanUndoFinished`). Terminal records survive exactly when no caller holds
  an older read with a different record to write (`OverlappingCallers.TerminalSurvivesIff`), and a
  run's end prevails without a warning exactly when nobody contests it at its last write
  (`OverlappingRun.EndPrevailsIff`).
- A first write that fails after making the session directory makes later sweeps fail with a read error
  (`SessionState.FailedFirstWriteBreaksSweep`). `SessionState.SweepFailsIff` says exactly when a sweep
  fails, and `SessionState.SweepsAreComplete` what repeated sweeps still achieve then.
- A run swept as stale that then succeeds answers with the terminal-transition warning; one that fails
  does not (`RunAgreement.SweptRunWarnsIffSuccessful`).
- `failure_diagnosed` and `verification_started` create no work item, so without one they, and payloads
  that name a work item of their own, break the schema's references
  (`LedgerIntegrity.RecordKeepsClosedIff`, `RunClosure.RunClosedIff`). An event whose lifecycle
  stands for no run status breaks the status CHECK on runs (`LedgerIntegrity.RecordKeepsCheckedIff`); no
  event of a run does (`RunClosure.EveryExitKeepsChecked`).
- Events with the same run, type, request and time stamp collapse into one row, and so does the
  evidence of checks recorded at the same time (`EventRows.RunRowsIff`, `EventRows.OneRowPerCheckIff`).
- A `file_exists` check whose path contains a colon tests a truncated path, and a check given as a bare
  string is ignored (`Verification.FileExistsPath`, `Verification.ChecksParsedIffDeclared`).
- A larger token budget does not always keep more: a budget of zero is none at all and keeps everything
  (`Prompt.LargerBudgetKeepsMoreIff`, `Prompt.NoBudgetKeepsMoreThanOne`).
- Close on a server that was never started removes the running server's lock and socket
  (`Daemon.EarlyCloseBreaksExclusion`; `Daemon.StepKeepsExclusiveIff` gives the exact harmful steps).
  A stale lock blocks every later Start (`Daemon.StaleLockIsForever`, `Daemon.CrashedHolderLocksOut`).
- A line beyond the scanner's buffer silently ends the event stream (`PiDriver.ScanCovers`), and if the
  rest of the output does not fit into the pipe the subprocess hangs and `done` is never closed
  (`PiLiveness.DoneReachableIff`, `PiLiveness.OverlongLineHangsIff`). The same happens to a stderr that
  is left unread after a read error (`PiLiveness.RestsFinishedIff`).
- Session ids that contain a colon can share another session's MCP process
  (`McpManager.SessionsCanShareIff`).

Where code and comments disagree the model follows the code. The comment above `scanStdout` says that
the scanner never blocks the subprocess; it does after an over-long line (`PiLiveness.RestsFinishedIff`).
The comment above `buildVerificationCheck` says that user strings never become part of a shell command:
the text of a `bash` spec is one (`Verification.ShellTextIsFixedOrVerbatim`).

## Model

The main results come first; the rows after them, by module, are the members they are built from.

| member | source | states |
|---|---|---|
| RunAgreement.LedgerAgreesIff | internal/orchestrator/phases.go:26-296 | for a whole run with fresh work and session ids and any loss of records, ledger and outcome agree iff agent_stopped was accepted, no diagnosis naming the session reopened it, and the deciding records were accepted: the verdict and, if the checks passed, all evidence; or, without verification, the worker's outcome |
| RunAgreement.LedgerAgreesWithOutcome | internal/orchestrator/phases.go:161-296 | for every worker stream, wait result, check outcome and loss of other records: when agent_stopped and the records that decide the work item are accepted, the folded ledger ends with run completed iff the run succeeded, work verified, completed or failed accordingly, and the session stopped |
| RunAgreement.LedgerAfterRun | internal/orchestrator/phases.go:161-296 | the three status columns after any committed run whose agent_stopped record was accepted, whichever other records were lost, including a request that names the run's own session |
| RunAgreement.VerificationFailsClosed | internal/orchestrator/phases.go:195-232 | with a declared check, a run succeeds iff the wait did not fail, the worker's result says success, the command of every check ran and exited with 0, and every verification record was accepted |
| RunAgreement.UncheckedRunSucceedsIff | internal/orchestrator/phases.go:170-172 | without a declared check a run succeeds iff the wait did not fail and the worker's result says success |
| LedgerRows.RunVerificationRow | internal/orchestrator/phases.go:195-223 | after a verified run whose verdict was accepted, whatever else was lost, the verification row is passed iff the command of every check exited with 0, else failed |
| RunClosure.RunClosedIff | internal/orchestrator/orchestrator.go:185-206 | from an empty ledger with nothing lost, every state along every exit of a run is closed iff the payload names no work, tool-call, evidence or verification id |
| RunClosure.EveryExitKeepsClosed | internal/orchestrator/phases.go:49-150 | from an empty ledger, after each single attempt of all three exits of a run, every foreign key refers to a present row |
| RunClosure.EveryExitKeepsChecked | internal/orchestrator/phases.go:26-296 | whatever records are lost, every state of the database along every exit of a run satisfies the status CHECK clauses |
| LedgerIntegrity.RecordKeepsClosedIff | internal/storage/storage.go:196-222 | recording any event, also one whose id is taken, keeps every reference valid iff what the rows it writes refer to is present or created with them |
| LedgerIntegrity.RecordKeepsCheckedIff | internal/storage/storage.go:465-494 | recording keeps the status CHECK clauses iff the event's lifecycle, if any, stands for a run status: not inactive, and a word outside the constants only if the CHECK set has it |
| OverlappingRun.StoreAgreesOrWarns | internal/orchestrator/phases.go:234-244 | over every interleaving with other callers' reads, writes, sweeps and write failures, once the run is over the stored lifecycle is its own or the response warns, unless its terminal write was contested |
| OverlappingRun.EndPrevailsIff | internal/orchestrator/phases.go:234-244 | the run's lifecycle stays in every continuation of its terminal write iff no other caller then holds an earlier read of the session with another lifecycle to write |
| OverlappingCallers.OverlapSafety | internal/state/state.go:84-188 | over every interleaving of reads and writes, each stored record is one legal edge from inactive or an earlier record, none is inactive, and a running one will turn stale |
| OverlappingCallers.TerminalSurvivesIff | internal/state/state.go:84-188 | a terminal record survives every interleaving iff no caller holds an earlier read of the session with a different record to write |
| SessionState.HistoryIsWalk | internal/state/state.go:240-259 | over every sequence of calls and write failures a session's history is a path in the allowed graph |
| SessionState.TerminalIsAbsorbing | internal/state/state.go:240-263 | finished, failed and cancelled records never change again |
| SessionState.SweepsAreComplete | internal/state/state.go:153-188 | for every store and listing, repeated sweeps find a session exactly as often as there are stale ones ahead of the first session without a record, leave exactly those blocked, and then report nothing or, if there is such a session, fail |
| SessionState.SweepFailsIff | internal/state/state.go:153-188 | a sweep fails iff it meets a session without a record before any stale one |
| Daemon.MutualExclusion | internal/daemon/daemon.go:57-136 | over every interleaving with Close after a successful Start: one holder at most, its own lock and socket in place, and all file operations form tenancies that do not overlap |
| Daemon.SocketChangesAreByHolder | internal/daemon/daemon.go:79-130 | every making and unlinking of the socket is by the lock's holder, and Close removes no other server's socket |
| Daemon.RunKeepsExclusiveIff | internal/daemon/daemon.go:57-161 | a run keeps ownership throughout iff it contains no such step |
| Daemon.StartSucceedsIffFree | internal/daemon/daemon.go:72-105 | an idle server can start iff the lock path is free |
| Daemon.FailedStartHandsOver | internal/daemon/daemon.go:79-97 | from every reachable disciplined state with a Start on its way out: after its last two steps the lock path is free, and every idle server can start, iff the removal succeeded, and the journal then ends with the drop of the lock |
| Daemon.CrashedHolderLocksOut | internal/daemon/daemon.go:72-78 | a server that crashes while it holds the lock leaves a file that stays, held by nobody, in every disciplined continuation |
| Daemon.StartsBalanced | internal/daemon/daemon.go:57-136 | over every run, disciplined or not, each file is made only where there is none, and the makers named by the journal are those of the files in place |
| Daemon.StaleLockIsForever | internal/daemon/daemon.go:72-78 | once the lock belongs to nobody no server ever holds it again, as long as Close is called only after a successful Start |
| Prompt.BuildPrompt | internal/prompt/prompt.go:64-91 | the prompt is the trimmed non-blank contents of the chosen sections joined by blank lines; its words are theirs, their number is the estimate and stays within a positive budget; it fails iff the required sections alone exceed it |
| Prompt.SelectSections | internal/prompt/prompt.go:93-123 | exactly the shortest sufficient prefix of the omission order is left out, or the required total is reported; a budget that is not positive keeps everything |
| Prompt.OmittedRankBelowKept | internal/prompt/prompt.go:112-144 | an omitted section has a lower priority than every optional one that is kept, or the same and an earlier position |
| Prompt.LargerBudgetKeepsMoreIff | internal/prompt/prompt.go:93-123 | a larger budget keeps a superset iff the smaller one is positive, or the larger is not, or everything fits the larger |
| PiDriver.StreamConservation | adapters/pi/pi.go:209-234 | each scanned line has one fate that fits it, drops happen only at 64 queued events, and received plus queued is what was enqueued, in strictly increasing sequence; without a read error the scan covers the lines before the first over-long one |
| PiDriver.WaitSeesCompleteResult | adapters/pi/pi.go:122-190 | a Wait through done sees the one published result, made after the channel closed, stderr ended and the subprocess was reaped, from the complete diagnostics: all of stderr unless a read failed, and a note per malformed line and dropped event; success iff no command error, a wait error iff an exit code of -1 |
| PiDriver.FailureReason | adapters/pi/pi.go:166-190 | the reason of a failed command is the trimmed stderr when no line was malformed, no event dropped and no read of stderr failed; in general it is the trimmed concatenation of all stderr chunks and notes, each of them in its place |
| PiLiveness.RestsFinishedIff | adapters/pi/pi.go:122-148 | for every order in which the subprocess writes, wherever a run without a stdout read error comes to rest, done is closed iff the output flows and what a stderr read error left unread fits into its pipe; otherwise the subprocess is blocked on a full pipe that nobody reads |
| PiLiveness.DoneReachableIff | adapters/pi/pi.go:122-148 | done can be closed iff no line is too long or what follows the scanned part of the first such line fits into the pipe |
| HookChain.Apply | internal/hook/chain.go:27-52 | the outcome and the shared input after the loop are those prescribed by the slot's hooks alone |
| HookChain.SlotIsolation | internal/hook/chain.go:27-52 | hooks of other slots affect neither the outcome nor the input |
| HookChain.HardSlotStopsAtFirst | internal/hook/chain.go:33-47 | on a hard slot nothing after the first error or denial matters |
| Guard.Evaluate | internal/guard/guard.go:77-102 | the decision is the first lexicographic maximum of (action rank, severity rank) over the default and all decisions; the lists are those of the unsuppressed and the suppressed rules |
| Guard.RuleOrderKeepsRanks | internal/guard/guard.go:77-102 | permuting the rules keeps both ranks |
| Guard.SuppressionsNeverRaise | internal/guard/guard.go:80-83 | adding suppressions never makes the decision stricter |
| Guard.BlockIff | internal/guard/guard.go:104-119 | the decision is a block iff some unsuppressed rule asks for one, and block with danger if one fails on a destructive tool |
| ToolBefore.BlockReachesLedgerIff | internal/orchestrator/orchestrator.go:102-135 | the caller is told to block, and the tool-call row is blocked, iff some unsuppressed rule asks for it |
| McpManager.Manager.Use | internal/mcp/manager.go:58-78 | a live client is reused; otherwise a new process replaces it or nothing changes |
| McpManager.Manager.CleanupIdle | internal/mcp/manager.go:80-96 | exactly the entries idle strictly longer than the timeout go, each stopped once |
| McpManager.Manager.CleanupZombies | internal/mcp/manager.go:98-110 | exactly the entries whose process is dead go, none stopped |
| McpManager.NoLiveProcessLeaks | internal/mcp/manager.go:58-110 | a live process ever started is mapped under one key or was stopped exactly once, not both |
| McpManager.SessionsCanShareIff | internal/mcp/manager.go:128-130 | two sessions can share an entry iff one with its colon is a prefix of the other with its colon |
| Route.Route | internal/route/route.go:50-82 | the result is that of the head of the ranking, and of the one best matching pair when registry keys are agent names |
| Route.RankingIsOptimal | internal/route/route.go:50-114 | the result is the best pair's, and no match is reported only if nothing matches |
| Route.EnumerationIrrelevant | internal/route/route.go:197-204 | the order in which the map hands out its keys does not matter |
| EventRows.RunRowsIff | internal/storage/storage.go:186-191 | without hash collisions a run leaves one event row per accepted event iff no two of them agree on type, request and stamp |
| EventRows.OneRowPerCheckIff | internal/verify/verify.go:120-163 | the evidence of a verification leaves one row per check iff the time stamps are pairwise different |
| RunPipeline.RunContext.HandleRun | internal/orchestrator/run.go:132-178 | the response of every exit, when each of its warnings appears, and the log and file it leaves; a run is answered without a warning only if the wait did not fail and the worker reports success, and without checks exactly then |
| RunPipeline.RunContext.RunWithWorker | internal/orchestrator/phases.go:161-296 | worker success from the wait and the worker's result, success, final lifecycle, event count, the whole attempt log, the lifecycle file and the skipped-transition warning, for every run and whatever other callers do to the store meanwhile |
| Ledger.Store.RecordEvent | internal/storage/storage.go:175-223 | an attempt commits all projections of the event or, failing at any statement, nothing |
| RunAgreement.MalformedCheckFailsRun | internal/orchestrator/verification.go:50-110 | one malformed spec fails the run whenever the runner reports non-zero for the false command |
| RunAgreement.UndisturbedRunDoesNotWarn | internal/orchestrator/phases.go:102-112 | with a fresh session, successful writes of its own and other callers that leave the session alone meanwhile, the terminal transition succeeds |
| RunAgreement.SweptRunWarnsIffSuccessful | internal/state/state.go:240-259 | a run whose session was swept meanwhile cannot record its end iff it succeeded |
| RunAgreement.LedgerAfterAbort | internal/orchestrator/run.go:69-110 | after a factory or spawn error, once work_failed and agent_stopped are recorded, run and work end failed and the session stopped, or running if the request names it and the diagnosis is recorded |
| RunAgreement.SpawnFailureLeavesFileRunning | internal/orchestrator/phases.go:102-150 | after a spawn failure the lifecycle file says running iff the running record was written |
| RunAgreement.SerialStoreAgreesOrWarns | internal/orchestrator/phases.go:234-244 | with calls of others that do not overlap the run's own, before and after its end, a terminal transition that is not reported as skipped leaves the file at the run's final lifecycle for good |
| OverlappingRun.UninterruptedEndIsTransition | internal/state/state.go:84-127 | with nothing in between, the split read and write are the terminal transition: refused iff it reports an error, else storing the same record |
| OverlappingRun.UninterruptedStartIsTransition | internal/orchestrator/phases.go:102-112 | the same for the transition at the start, also when its write fails; refused or not, the run goes on |
| RunPipeline.RunContext.PreWorker | internal/orchestrator/phases.go:26-152 | each bail-out and the exact events and transition before it |
| RunPipeline.FirstPhaseTrace | internal/orchestrator/phases.go:26-152 | the exact event types of the first phase on each of its exits |
| RunPipeline.RunContext.Drain | internal/orchestrator/phases.go:164-193 | every worker event is counted and emitted in order, then the outcome, which is a success iff the wait did not fail and the worker reports one |
| RunClosure.NamedIdDangles | internal/orchestrator/orchestrator.go:185-206 | a payload that names any of these ids makes the first event of a run dangle |
| Ledger.Store.Absorb | internal/storage/storage.go:175-223 | feeding the store a log folds exactly its accepted events |
| LedgerRows.VerificationRowStatus | internal/storage/storage.go:548-559 | after a recorded verification event its row is running, passed or failed by its type, and a new one belongs to the event's run and work item |
| LedgerRows.ToolCallRowStatus | internal/storage/storage.go:530-546 | the same for tool calls, where a start may carry allowed, blocked or failed |
| LedgerRows.SessionRowStatus | internal/storage/storage.go:272-294 | a session is stopped or crashed by its own events or a failed status and running otherwise, and keeps its work item until an event names another |
| Ledger.RowlessWorkTypes | internal/storage/storage.go:496-513 | the exact event types for which ensureWork creates no row |
| LedgerIntegrity.ClosedIsReferences | internal/storage/schema.go:5-27 | a database is closed iff every REFERENCES clause of the modelled columns holds, column by column |
| LedgerIntegrity.CoreRowsKept | internal/storage/storage.go:225-280 | recording changes no other run or session row than the event's own, creates no other, and never moves a row to another run or repository |
| LedgerIntegrity.WorkRowsKept | internal/storage/storage.go:258-270 | the same for work items, with the derived item that verification and diagnosis fall back to |
| LedgerIntegrity.WrittenOnceRowsKept | internal/storage/storage.go:311-370 | existing evidence, diagnoses and events never change, and at most the event's own are added |
| LedgerIntegrity.NewEventKeepsClosedIff | internal/storage/storage.go:196-222 | for an event with a new id that is: every id it names is present or created by its type, and a derived work item is there where one is needed |
| LedgerIntegrity.ToolCallRowsKept | internal/storage/storage.go:296-309 | at most the event's own tool call is created, and an existing one changes only its status |
| LedgerIntegrity.VerificationRowsKept | internal/storage/storage.go:323-339 | at most the event's own verification is created, and an existing one changes only its status |
| EventRows.OneRowPerEventIff | internal/storage/storage.go:359-370 | the events table gains one row per recorded event iff their ids are all new |
| EventRows.StreamEventsShareRowIff | internal/orchestrator/run.go:183-210 | two recorded events of a worker's stream share a row iff they became the same event type and carry the same stamp, their own or the recorder's |
| EventRows.CommittedEvidence | internal/verify/verify.go:120-163 | an accepted verification commits exactly the stamped evidence events, in order |
| EventRows.OneRowPerKeyIff | internal/storage/storage.go:186-191 | without hash collisions events without ids of their own leave one row each iff no two agree on run, type, request and stamp |
| SessionState.FailedCallChangesNothing | internal/state/state.go:84-127 | a rejected or failed call leaves every stored record unchanged |
| SessionState.FailedFirstWriteBreaksSweep | internal/state/state.go:203-226 | a first write that fails after its directory was made makes a sweep stop with an error |
| SessionState.TransitionStores | internal/state/state.go:97-126 | every field of the stored record, from the caller where it gives one and from the record before otherwise; the heartbeat is set exactly when the session starts to run |
| SessionState.LegalIsTable | internal/state/state.go:240-259 | a transition is allowed iff it is one of twelve listed edges |
| SessionState.Store.Transition | internal/state/state.go:84-127 | the outcome and the stored record of a transition, for every write result |
| SessionState.Store.MarkStaleHeartbeats | internal/state/state.go:153-188 | what the first stale session found in directory order becomes |
| SessionState.SweepsReachEverySession | internal/state/state.go:153-188 | when every session has a record, exactly the stale sessions end up blocked and all others untouched |
| OverlappingCallers.OverlapCanUndoFinished | internal/state/state.go:153-188 | a run that ends with a finished session blocked |
| Verification.RunPlan | internal/verify/verify.go:86-118 | the verdict, the evidence and the records of a plan, including every way to fail |
| Verification.RecordVerification | internal/verify/verify.go:120-163 | the records are attempted in order until the first refusal |
| Verification.BuiltPlanRunnable | internal/orchestrator/verification.go:37-43 | a built plan never makes RunPlan fail by itself, and passes iff every check passes |
| Verification.MalformedIffFalse | internal/orchestrator/verification.go:50-110 | exactly the malformed specs become the false command |
| Verification.ShellTextIsFixedOrVerbatim | internal/orchestrator/verification.go:50-110 | what reaches a shell is the fixed script or the text of a bash spec, and the spec can be put together again |
| Verification.FileExistsPath | internal/orchestrator/verification.go:50-70 | a file_exists check tests the given path iff it contains no colon |
| Verification.ChecksParsedIffDeclared | internal/orchestrator/verification.go:11-35 | checks are found iff the list has a non-empty string; anything but a list is ignored |
| Daemon.StepKeepsExclusiveIff | internal/daemon/daemon.go:111-136 | a step breaks ownership iff it is the unlink of a live file by a Close that found no listener |
| Daemon.EarlyCloseBreaksExclusion | internal/daemon/daemon.go:111-136 | Close before Start lets another server become a second holder |
| Daemon.StartOutcome | internal/daemon/daemon.go:57-105 | an undisturbed Start serves iff each of its three steps succeeds, and otherwise leaves the server idle, the lock gone iff its removal succeeded, and the socket as each failure leaves it |
| Daemon.CloseOutcome | internal/daemon/daemon.go:111-136 | an undisturbed Close leaves no socket iff one of its two unlinks worked, and no lock iff its removal did |
| Daemon.CloseHandsOver | internal/daemon/daemon.go:123-136 | after a Close that removed the lock every idle server can start |
| Prompt.LowestPriorityOptionalIndex | internal/prompt/prompt.go:125-144 | the first optional section of lowest priority, or none iff all are required |
| Prompt.Assemble | internal/prompt/prompt.go:70-83 | joining keeps the words and the metadata of the sections that are not blank |
| Prompt.OmissionCountIsLeast | internal/prompt/prompt.go:112-122 | no shorter prefix of omissions would have been enough |
| Prompt.RequiredAlwaysKept | internal/prompt/prompt.go:93-123 | required sections are kept, however many are omitted |
| Prompt.KeptAndOmittedPartition | internal/prompt/prompt.go:93-123 | each position is kept or omitted, never both, and the counts add up |
| Prompt.NoBudgetKeepsMoreThanOne | internal/prompt/prompt.go:95-98 | a section that no budget keeps and a budget of one gives up |
| Text.FieldsJoin | internal/prompt/prompt.go:80-91 | the words of texts joined by white space are the words of the texts in order |
| PiDriver.ScanCovers | adapters/pi/pi.go:209-215 | without a read error the scan covers exactly the lines before the first one that is too long |
| PiDriver.EveryWaitIsAnswered | adapters/pi/pi.go:246-255 | each Wait is answered once and in turn, the cancelled ones without a result |
| PiDriver.ResultIsFinal | adapters/pi/pi.go:246-255 | after done is closed no step changes what a Wait sees |
| PiLiveness.OverlongLineHangsIff | adapters/pi/pi.go:209-215 | a single over-long line hangs the driver iff its excess fills the pipe |
| PiLiveness.NeverStuck | adapters/pi/pi.go:225-233 | no goroutine waits for the consumer, and while what nobody reads any more fits into its pipe somebody can move until done is closed |
| PiLiveness.OwnStepsAreBounded | adapters/pi/pi.go:112-148 | in any run the subprocess and the goroutines take a bounded number of steps |
| HookChain.ChainOrder | internal/hook/chain.go:12-19 | hooks run by priority and, within one priority, as registered |
| HookChain.SoftSlotRunsAll | internal/hook/chain.go:27-52 | a soft slot runs every hook, never fails and always allows |
| HookChain.DeniedOrFailedIff | internal/hook/chain.go:33-47 | an outcome denies or fails iff some reply stops the chain, never both, with the reason or error of the first such hook |
| Guard.WarnIff | internal/guard/guard.go:104-119 | a decision that is no block is a warning iff some unsuppressed rule asks for one, and is allowed otherwise |
| Guard.AllowedByDefault | internal/guard/guard.go:77-102 | with every rule suppressed, or none, the call is allowed by default |
| Guard.SuppressionApplies | internal/guard/guard.go:151-165 | a rule is suppressed iff some valid suppression covers it |
| Guard.EveryRuleLandsOnce | internal/guard/guard.go:79-94 | each rule lands in exactly one of the two lists |
| ToolBefore.HandleToolBefore | internal/orchestrator/orchestrator.go:102-135 | response, warnings and ledger event all report the guard's decision |
| ToolBefore.FailingRuleBlocks | internal/orchestrator/orchestrator.go:102-135 | one unsuppressed rule that fails on a destructive tool blocks through to the ledger |
| McpManager.ColonFreeSessionsNeverShare | internal/mcp/manager.go:128-130 | session ids without a colon never share an entry |
| Route.TermsAcrossSeparator | internal/route/route.go:156-168 | a pattern's terms are that of the part before its first separator, trimmed and unless it is blank, followed by those of the rest |
| Route.FindMatches | internal/route/route.go:84-114 | the ranked matches of all agents and triggers |

## Left out

- SQL, SQLite, migrations, connection handling and the tables no modelled event writes: the database is maps and upsert functions.
- Row columns other than keys, references and statuses: titles, goals, claims, attributes, timestamps, completed_at, actor and provider fields.
- The FNV hash behind derived ids and the random source of generated ids: ids are parameters; where distinctness matters it is a hypothesis.
- LedgerIntegrity.RecordKeepsCheckedIff: covers the CHECK clauses on status columns; those on roles, evidence kinds and failure types depend on attributes that are not modelled.
- RunClosure.EveryExitKeepsChecked: covers the status columns, as above.
- Go's sort algorithm: `StableSort` gives the contract of `sort.SliceStable` by an insertion sort, so the in-place moves of `NewChain` and `findMatches` are not modelled.
- `selectSections` shrinks its slice in place; the model reassigns a sequence, so aliasing with the caller's slice is not captured.
- The insides of subprocesses: the pi driver's child writes a finite stdout and stderr byte by byte in an arbitrary order and exits when all is written. A child that is killed is one whose output ends there; a last line without a newline counts as if it had one.
- PiLiveness.DoneReachableIff: assumes pipes of at least one byte, and speaks of runs without an outside kill.
- OverlappingCallers.OverlapSafety: session files that cannot be decoded are not part of the interleaved model; the serial one has them.
- Parsing of JSON lines: a line is modelled by its class (event, skipped, malformed, too long).
- A second Start on a server that has already served, and the unsynchronised read of the listener in `serve`; the daemon's connection handling and timeouts.
- Outside interference with the lock and socket files by programs other than the servers.
- Guard.Evaluate: path globbing is an arbitrary predicate, arguments are one path and opaque text, and quoting of rule ids in messages is plain.
- Guard's lower-casing covers exactly the characters whose lower-case form is ASCII, which is all that the comparison with tool names can see.
- McpManager.Manager.Use: the environment allowlist and the saturation of time differences are not modelled; a process is named by its position in the order of starts.
- Route.Route: Procedure (a fixed keyword table) and Score (floating point) are not modelled; letter case is an arbitrary function.
- Byte order against code-point order: strings are compared by code point, as Go's byte comparison does for valid UTF-8.
- Response texts, truncation of goals and reasons, and the wording of warnings, which are modelled by kind.
- `WriteRoot`, `ReadEffective`, `handleToolAfter`, `handleSubmit`, `handleStateTransition`: single calls that add no property across steps.
- Configuration layering, registry normalisation, skills, agents, the CLI, the claude and codex adapters, the remote dashboard and the MCP router: mostly lookups and field copies.
