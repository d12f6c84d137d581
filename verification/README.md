# A verified model of the project agent controller

The project agent controller watches the sources of a software project (log files, processes,
containers, a Git checkout, its CI), turns what changes into numbered events and incidents, and runs
registered tasks for callers under an idempotency key, a controller state and a circuit breaker. This
project models the stateful core of that system in Dafny and proves what it promises over unbounded
runs. `dafny verify dfyconfig.toml` checks it.

## The parts

**Controlled runner** (`TaskTables`, `RunnerProtocol`, `RunnerOwnership`, `RunnerResults`,
`RunnerCircuit`, `RunnerAdmission`, `RunnerWindows`, `RunnerGate`, `RunnerRequests`, `RunnerStop`,
`RunnerService`, `ControlRequests`, `ControlService`). Any number of task requests and control
requests interleave at the granularity of one database call or one executor call, and a request may
die before any of them. Nothing orders them but the keys and guarded updates of the tables, and no
lock is added. `RunnerProtocol` is this system as a transition function over worlds; the theorems
about it hold in every interleaving. `RunnerService` and `ControlService` are the services as
methods over a mutable database: between any two of their calls everyone else may take any number of
steps, and each call is proved to be one step of the protocol.

**Incremental readers** (`Lines`, `FileSource`, `DockerFrames`, `DockerLogs`). Polling a log file or a
container log through a stored cursor agrees with reading it once.

**CI observer** (`GitHubCIProvider`, `GitHubCISource`, `Ordering`). Conditional requests, the cache of
summaries by ETag, backoff, and the difference of failing checks.

**Snapshot reducers** (`GitSource`, `DockerSource`, `ProcessSource`, `Hysteresis`, `Pacing`).
Snapshots become events: replay of the log to the stored state, hysteresis, and bounds on volume.

**Storage and curation** (`ObserverStore`, `Incidents`, `Briefs`, `Capture`). The observer runner calls
the five observers in turn and commits each observation in one transaction; the events of every source
are numbered without a gap; incidents conserve their history; briefs fit a byte limit; two threads share
one capture budget.

Each observer is given twice: as a method in the form of the program, and as the function it is
proved against, over which the theorems about whole runs are stated. That function is pinned down in
turn by a lemma that says, for every event, exactly when a poll emits it, in terms of what was found
before and now.

## Conventions

Times are integers (seconds). `0.9 * T` and CPU percentages are over reals; rounding of floats is not
modelled. UUIDs and SHA-256 digests are keys: a new id is an input, a digest is injective. SQL tables
are maps and sequences, a rolled back transaction leaves them unchanged, and JSON and ISO times are
stored exactly. What providers, the file system, the executor and the clock answer is an arbitrary
input. `None` or `Raised` stands for an exception.

The program's one `Database` class is modelled as two, one for each group of tables:
`RunnerService.Database` holds runs, attempts, circuits and the controller, which other processes change
between any two calls; `ObserverStore.Database` holds events, cursors, states and incidents, whose
transactions may fail at any statement. No transaction of the program touches both groups.

A turn of the observer runner is given how its events are worded and which of them become incident
candidates under which fingerprint; numbers, bodies and what is remembered come from the observers.

## Model

| member | source | states |
|---|---|---|
| RunnerService.Database.GetTaskRun | src/project_agent_controller/storage/database.py:317-328 | reading a run by its request key |
| RunnerService.Database.InsertTaskRun | src/project_agent_controller/storage/database.py:340-352 | the insert of a new run; a duplicate id or key changes nothing |
| RunnerService.Database.AppendTaskAttempt | src/project_agent_controller/storage/database.py:357-393 | an attempt row and the new attempt count in one transaction; a taken attempt number, an unknown run or a number outside 1 to 3 raises and changes nothing |
| RunnerService.Database.FinishTaskRun | src/project_agent_controller/storage/database.py:395-432 | the update that only a running row accepts, and the row read back |
| RunnerService.Database.ClaimRunnerCircuit | src/project_agent_controller/storage/database.py:441-467 | the answer and the probe flag of a claim; raises when the counter has reached the threshold but no opening time is stored |
| RunnerService.Database.RecordRunnerSuccess | src/project_agent_controller/storage/database.py:469-472 | a success forgets the circuit |
| RunnerService.Database.RecordRunnerFailure | src/project_agent_controller/storage/database.py:474-497 | one more failure; the opening time is set exactly from the threshold on; the probe is over |
| RunnerService.Database.TransitionControllerState | src/project_agent_controller/storage/database.py:499-544 | compare-and-set of the controller state together with its control event, or nothing |
| RunnerService.TaskRunnerService.CreateTaskRun | src/project_agent_controller/storage/database.py:330-355 | the insert and the read after it are two transactions, between which anyone else may act |
| RunnerService.TaskRunnerService.Attempt | src/project_agent_controller/runner/service.py:88-98 | an attempt reads the state and either calls the executor or stores a blocked result; each read and call is one protocol step |
| RunnerService.TaskRunnerService.ExecuteAttempts | src/project_agent_controller/runner/service.py:84-111 | the attempt loop leaves the last result ready to be stored, or dies with an append that raised |
| RunnerService.TaskRunnerService.Run | src/project_agent_controller/runner/service.py:36-82 | every database and executor call of a request is one step of the protocol, in the order of the code, whatever the other callers do in between; a malformed key raises before anything is touched |
| RunnerService.TaskRunnerService.RunAnswersStoredRow | src/project_agent_controller/runner/service.py:41-45 | what a request answers is the stored, finished row of its own key |
| RunnerGate.ClosedGateKeepsOut | src/project_agent_controller/runner/service.py:46-116 | in every interleaving: a call that has not come past its gate when the controller is not ACTIVE, and any call started then, is never admitted, starts no executor, records nothing, writes no attempt and changes no table until a recovery completes; if it answers, it is refused or returns a finished row of its key that another call finished |
| RunnerGate.UndisturbedCallCompletes | src/project_agent_controller/runner/service.py:36-111 | after any run, a new request that meets an ACTIVE controller and a closed circuit and that nobody disturbs is admitted, inserts its run, executes until an answer is neither a failure nor a timeout or no attempt is left, stores each answer and its time, ends its run with the last one, records that and returns the stored row; nothing else changes |
| RunnerGate.TurnedAwayWithoutTrace | src/project_agent_controller/runner/service.py:41-53 | after any run, an undisturbed new request whose key has a running run, or that meets a controller that is not ACTIVE or an open circuit, is refused and changes nothing; one whose key has a finished run returns it, even from a stopped controller |
| RunnerGate.BlockedAttemptEndsTheRun | src/project_agent_controller/runner/service.py:87-111 | an admitted call that finds the controller not ACTIVE at an attempt stores a blocked result that names the state, tries no more, ends its run with it, and the circuit counts a failure |
| RunnerProtocol.ValidKeysAreThese | src/project_agent_controller/runner/service.py:125-128 | which idempotency keys are valid, by length and code points |
| RunnerOwnership.OneRunPerKey | src/project_agent_controller/storage/schema.sql:57-72 | in every interleaving a request key has at most one run |
| RunnerOwnership.SingleOwner | src/project_agent_controller/runner/service.py:84-111 | in every interleaving, with crashes anywhere: the attempts of a run are exactly 1 to its attempt count, at most three, all by one caller; all but the last are failures or timeouts; a finished row repeats the last attempt, that caller finished it, and a failure means no allowed attempt was left |
| RunnerOwnership.FinishedRunsAreFrozen | src/project_agent_controller/storage/database.py:395-432 | a finished run never changes again, nor do its attempts and their authors |
| TaskTables.FirstFinishWins | src/project_agent_controller/storage/database.py:407-428 | of two updates that would finish a run the first wins |
| RunnerOwnership.ReturnedRowIsStored | src/project_agent_controller/runner/service.py:41-82 | a returned row is the stored terminal row of the key |
| RunnerOwnership.AppendExtendsRunningRun | src/project_agent_controller/storage/database.py:369-392 | an append that the primary key lets through is the next attempt of a running run, by its owner |
| RunnerResults.AttemptsComeFromExecutor | src/project_agent_controller/runner/service.py:87-108 | every stored attempt holds what the executor answered its author for that attempt, or the state of a controller that was not ACTIVE when the author asked |
| RunnerResults.SuccessIsGenuine | src/project_agent_controller/runner/service.py:63-75 | a run stored as a success was answered success by the executor, to the caller that finished it |
| RunnerCircuit.ClaimFollowsHistory | src/project_agent_controller/storage/database.py:441-467 | with one policy per project a claim never raises and its answer is the admission rule read off the history: nothing during the cooldown or while a probe is out |
| RunnerCircuit.CircuitRefinesBreaker | src/project_agent_controller/storage/database.py:441-497 | in every interleaving with one policy per project the stored row is that of a breaker: the counter is the number of failures since the last success, the opening time is set exactly from the threshold on, the probe flag only while open, and every admission obeyed the rule |
| RunnerCircuit.ClaimRaisesIff | src/project_agent_controller/storage/database.py:454-458 | whatever thresholds the calls of a project have: after any run the stored row is the breaker's under the threshold of the call that recorded last, and a claim raises exactly when its own threshold is reached by the failures since the last success and that one is not |
| RunnerCircuit.MixedThresholdsRaise | src/project_agent_controller/storage/database.py:441-497 | a run from the start in which that happens: a call with threshold 2 records a failure, then the claim of a call with threshold 1 raises and ends that call |
| RunnerAdmission.StartsWithinMaxAttempts | src/project_agent_controller/runner/service.py:87-98 | no request calls the executor more often than its task allows attempts, and so at most three times |
| RunnerAdmission.ProbeRunsAlone | src/project_agent_controller/storage/database.py:459-467 | a probe granted when no admitted run is left is the only live run of its project until it is recorded |
| RunnerWindows.WindowWithinBudget | src/project_agent_controller/storage/database.py:454-497 | what a success-free stretch of sequential history may still admit, given the failures so far: the rest of the threshold, one probe for each cooldown, and one admission for each closed call that was superseded without a record; a lost probe ends admissions |
| RunnerWindows.FailingWindowAdmits | src/project_agent_controller/storage/database.py:441-497 | from any point of any run: while admitted calls of a project do not overlap, its claims and records read a clock that does not go back, and none records a success, a stretch of length T admits at most threshold + T / cooldown calls, plus one for each call admitted while closed that ends without a record; they start the executor at most three times each |
| RunnerWindows.OneByOneAdmits | src/project_agent_controller/runner/service.py:36-82 | if the requests to a project come one by one, each inserting a new run id, then only a crash ends an admitted call without a record, so such a stretch admits at most threshold + T / cooldown calls plus the admitted calls that crash in it |
| RunnerWindows.CrashedCallsAreFree | src/project_agent_controller/runner/service.py:47-81 | why crashes are counted: for every n there is a run of n requests, one by one and at one reading of the clock, that admits all n whatever the threshold, each crashing before it records |
| RunnerWindows.LostProbeEndsAdmissions | src/project_agent_controller/storage/database.py:459-467 | once a probe is out and no admitted call of the project is left, nothing of the project is ever admitted, started or recorded again |
| RunnerRequests.OwnerRecords | src/project_agent_controller/runner/service.py:74-81 | the circuit hears of a run only from its owner, after it is finished, and hears success exactly if it is stored as one |
| RunnerRequests.EachRunRecordedOnce | src/project_agent_controller/runner/service.py:74-81 | and at most once |
| RunnerRequests.RepeatedRequestReturnsStoredRun | src/project_agent_controller/runner/service.py:41-45 | a request made after its run is finished never executes: it returns that row, whatever happens around it |
| ControlService.ControlService.Drain | src/project_agent_controller/control/service.py:54-69 | a drain as its two transactions, each of which may lose a race; a blank actor or reason is refused before anything is read |
| ControlService.ControlService.EmergencyStopAll | src/project_agent_controller/control/service.py:71-77 | an emergency stop: answered at once if already stopped, else one guarded update |
| ControlService.ControlService.ClearEmergencyStop | src/project_agent_controller/control/service.py:79-90 | clearing a stop leads to RECOVERING only |
| ControlService.ControlService.CompleteRecoveryRequest | src/project_agent_controller/control/service.py:92-103 | completing a recovery leads from RECOVERING to ACTIVE only |
| ControlService.ControlService.Transition | src/project_agent_controller/control/service.py:105-121 | an edge outside the table is refused before the database is touched; a legal one is a compare-and-set that stores the stripped actor and reason |
| RunnerProtocol.StrippedHasNoBlankEnds | src/project_agent_controller/control/service.py:113-128 | stripping takes blanks and only blanks off both ends: nothing is left exactly of a blank text, which is what is refused, and what is left has no blank ends |
| RunnerProtocol.BlanksAreThese | src/project_agent_controller/control/service.py:113-128 | which characters count as blanks, by code point |
| ControlRequests.StopAlwaysStops | src/project_agent_controller/control/service.py:71-77 | an undisturbed stop leaves EMERGENCY_STOP stored and answers it, whatever the state, with one event unless stopped already, and touches nothing else |
| ControlRequests.DrainDrains | src/project_agent_controller/control/service.py:54-69 | an undisturbed drain answers DRAINED from every state but EMERGENCY_STOP, with the events of DRAINING and DRAINED as far as they are still to come |
| ControlRequests.ClearSucceedsIff | src/project_agent_controller/control/service.py:79-90 | an undisturbed clear leads to RECOVERING if and only if the controller is stopped, and changes nothing otherwise |
| ControlRequests.RecoverySucceedsIff | src/project_agent_controller/control/service.py:92-103 | an undisturbed recovery leads to ACTIVE if and only if the controller is RECOVERING, and changes nothing otherwise |
| ControlRequests.RefusedOnlyIfOvertaken | src/project_agent_controller/control/service.py:54-121 | in every interleaving a request is refused only if it read a state it refuses (a stop refuses none) or the state moved between two of its steps; one that answers names the state it was asked for, and one of its own steps left the controller there |
| RunnerStop.ControlEventsAreALegalChain | src/project_agent_controller/control/service.py:16-44 | in every interleaving the control events are a chain of legal edges from ACTIVE to the stored state, each committed by a request that may commit it, each with an actor and a reason |
| RunnerStop.ReturnFromStopNeedsClearThenRecovery | src/project_agent_controller/control/service.py:79-103 | every way from EMERGENCY_STOP back to ACTIVE contains a clear and, after it, a completed recovery |
| RunnerStop.UnusedEdges | src/project_agent_controller/control/service.py:16-44 | DEGRADED is never entered and DRAINED is left only by an emergency stop, although the table allows more |
| RunnerStop.StopBoundsExecutorStarts | src/project_agent_controller/runner/service.py:84-118 | from any moment at which the controller is not ACTIVE until a recovery completes, a request starts the executor at most once more, and only if it had already read ACTIVE for that attempt |
| Lines.SplitGivesLines | src/project_agent_controller/observer/file_source.py:148 | splitting loses nothing, ends lines at LF, CR or CRLF and never cuts a CRLF |
| Lines.LinesAreUnique | src/project_agent_controller/observer/file_source.py:148 | and is the only way to cut a text into such lines |
| Lines.SplitAfterNewline | src/project_agent_controller/observer/file_source.py:145-148 | a cut after a newline does not change how the text splits |
| Lines.StripLeavesText | src/project_agent_controller/observer/file_source.py:151-154 | stripping a line takes its one terminator off and nothing else |
| FileSource.FileSourceReader.AppendLines | src/project_agent_controller/observer/file_source.py:147-176 | the loop over complete lines numbers them and gives each its byte range; one that does not decode raises |
| FileSource.FileSourceReader.ReadAvailable | src/project_agent_controller/observer/file_source.py:38-186 | one poll: missing, reappeared, rotated and truncated files, and the complete lines after the cursor |
| FileSource.PollIsConsecutive | src/project_agent_controller/observer/file_source.py:82-186 | a poll continues its source's numbering without a gap |
| FileSource.ChainIsConsecutive | src/project_agent_controller/observer/file_source.py:82-186 | and so does any chain of polls |
| FileSource.NoticesTellTheViews | src/project_agent_controller/observer/file_source.py:52-186 | told by what the polls find alone: once a file has been read, another device or inode is announced as a rotation, a smaller size as a truncation and an empty path as missing, with these values, and a new content is read from its start; otherwise nothing is announced and the lines after the offset follow |
| FileSource.MissingIsToldOnce | src/project_agent_controller/observer/file_source.py:52-103 | a missing path is announced once, the file that appears then is announced and read from its start, and a first file is read from its start unannounced |
| FileSource.PollRaisesIff | src/project_agent_controller/observer/file_source.py:148-155 | a poll raises exactly if one of the complete lines it reads does not decode |
| FileSource.EpochRefinesOneShot | src/project_agent_controller/observer/file_source.py:82-186 | over any polls in which what was consumed of a file is still there when the same device and inode is seen at no smaller size, the lines since the last notice are those of the whole content cut after its last newline, and their byte ranges tile [0, byte_offset) |
| FileSource.ManyPollsEqualOne | src/project_agent_controller/observer/file_source.py:141-186 | polling one growing file in any way gives exactly the events, numbers and cursor of a single poll of its final content |
| FileSource.UndecodableLineStopsSource | src/project_agent_controller/observer/file_source.py:148-155 | a complete line that does not decode keeps every later poll of the growing file from getting past it |
| FileSource.OneShotTiles | src/project_agent_controller/observer/file_source.py:145-176 | the byte ranges of a whole content tile it and each event is the text of its range |
| DockerFrames.ParseLogStreams | src/project_agent_controller/observer/docker_provider.py:200-219 | on a multiplexed body it succeeds exactly when the body is a concatenation of well-formed frames and then gives each payload's lines with their stream; any other body is split as one stream |
| DockerFrames.EncodeIsInjective | src/project_agent_controller/observer/docker_provider.py:204-218 | a body decomposes into frames in one way only |
| DockerFrames.EncodingIsMultiplexed | src/project_agent_controller/observer/docker_provider.py:201-203 | every nonempty list of frames encodes to a body that is recognised as multiplexed |
| DockerFrames.SizeOfBigEndian | src/project_agent_controller/observer/docker_provider.py:208 | the size field reads back what was written |
| DockerFrames.HeaderBytes | src/project_agent_controller/observer/docker_provider.py:204-214 | the header of a frame byte by byte: 1 for stdout or 2 for stderr, three zeros and the size, most significant byte first |
| DockerFrames.MultiplexedStartsWithHeader | src/project_agent_controller/observer/docker_provider.py:201 | a body counts as multiplexed exactly if it starts with such a header |
| DockerFrames.LinesOfHaveNoTerminator | src/project_agent_controller/observer/docker_provider.py:215-219 | each line of a payload without its terminator, under the stream of the payload |
| DockerFrames.AllLinesConcat | src/project_agent_controller/observer/docker_provider.py:215-216 | the lines of two bodies one after the other are those of the first and then those of the second |
| DockerFrames.OneFrameLines | src/project_agent_controller/observer/docker_provider.py:215-216 | the lines of one frame are those of its payload |
| DockerLogs.Logs | src/project_agent_controller/observer/docker_provider.py:145-197 | the loop over the lines of a response: what it skips, where it stops at its limit, and the cursor it leaves |
| DockerLogs.ObserveIsExact | src/project_agent_controller/observer/docker_provider.py:166-197 | a poll emits the next lines of the log without repetitions, as many as its limit allows |
| DockerLogs.MalformedLineFailsIfReached | src/project_agent_controller/observer/docker_provider.py:166-191 | a line without a valid timestamp fails the reading if it is reached before the limit, and only then |
| DockerLogs.PollingIsExactlyOnce | src/project_agent_controller/observer/docker_provider.py:166-197 | for a growing log with nondecreasing timestamps and at most 100 distinct lines for each, all polls together emit a prefix of the log without repetitions, each as far as its limit allows, and repeating a finished poll emits nothing |
| DockerLogs.RepollIsSilentIffGroupFits | src/project_agent_controller/observer/docker_provider.py:192-196 | polling a fully read log again is silent if and only if its last timestamp has at most 100 distinct lines |
| DockerSource.Observer.Observe | src/project_agent_controller/observer/docker_source.py:28-320 | one poll of a container: troubles, lifecycle, memory, logs, heartbeat, the new state and the incident candidates |
| DockerSource.Observer.AddLifecycle | src/project_agent_controller/observer/docker_source.py:161-207 | the lifecycle events in the order of the code |
| DockerSource.Observer.AddLogs | src/project_agent_controller/observer/docker_source.py:228-271 | the log lines and the cursor to store; a failing log endpoint gives one event and keeps the cursor |
| DockerSource.PollIsConsecutive | src/project_agent_controller/observer/docker_source.py:140-159 | numbering without a gap |
| DockerSource.PollSaysWhatIsJustified | src/project_agent_controller/observer/docker_source.py:82-320 | a poll says exactly what the container stored before, its memory flag, the container found and its log justify, with their values, event by event; and one heartbeat if that is nothing for heartbeat_seconds |
| DockerSource.PollIsRanked | src/project_agent_controller/observer/docker_source.py:161-271 | and in this order, each thing once but for the log lines |
| DockerSource.OnlyOwnCursorIsUsed | src/project_agent_controller/observer/docker_source.py:323-333 | a log is read on from the cursor of the same container and anew for any other; a failed or unwanted reading keeps the cursor |
| DockerSource.ReadingIsAPoll | src/project_agent_controller/observer/docker_source.py:228-271 | a reading fails exactly if the endpoint does or a line is met without a timestamp; else it gives the new lines and the cursor as it is stored |
| DockerSource.CandidatesAreErrors | src/project_agent_controller/observer/docker_source.py:228-271 | the incident candidates are the log lines marked as errors |
| DockerSource.PollRemembers | src/project_agent_controller/observer/docker_source.py:273-320 | what a poll stores: the outcome, the memory flag, the last sign of life |
| DockerSource.ChangesBoundVolume | src/project_agent_controller/observer/docker_source.py:82-320 | with logs off a run emits at most 6 events for each change of outcome, plus heartbeats |
| DockerSource.HeartbeatsAreSpaced | src/project_agent_controller/observer/docker_source.py:273-290 | heartbeats are at least heartbeat_seconds apart, across outages too |
| DockerSource.VolumeFromStart | src/project_agent_controller/observer/docker_source.py:82-320 | together: at most 6 for each change of outcome, the first poll counted, plus elapsed time over heartbeat_seconds |
| DockerSource.MemoryFollowsSamples | src/project_agent_controller/observer/docker_source.py:209-226 | in an available epoch the memory events are the marks of the memory samples |
| DockerSource.MemoryHasHysteresis | src/project_agent_controller/observer/docker_source.py:209-226 | so they alternate, need a sample at the limit, and need one below nine tenths of it (or missing) in between; samples inside the band say nothing |
| DockerSource.LogLinesFollowCursor | src/project_agent_controller/observer/docker_source.py:228-263 | while a container stays available each poll, whether reading its log succeeds or not, hands on the cursor the last successful reading stored |
| DockerSource.LogLinesAreExactlyOnce | src/project_agent_controller/observer/docker_source.py:228-263 | so, with polls whose log endpoint fails anywhere among them, the log lines among its events are a prefix of its log without repetitions |
| Hysteresis.MarksHaveHysteresis | src/project_agent_controller/observer/process_source.py:256-260 | every list of samples has hysteresis under this threshold test |
| Hysteresis.BetweenCrossings | src/project_agent_controller/observer/process_source.py:256-260 | between two crossings some sample was below nine tenths of the threshold or missing |
| Hysteresis.BandIsQuiet | src/project_agent_controller/observer/process_source.py:256-260 | samples between nine tenths of the threshold and the threshold change nothing |
| Hysteresis.MarksAreExact | src/project_agent_controller/observer/process_source.py:256-260 | a threshold mark stands exactly where a sample reaches the threshold and the last decisive sample before it did not, a recovered one exactly where a sample is low or missing and it did |
| ProcessSource.Observe | src/project_agent_controller/observer/process_source.py:30-241 | one poll of a process: troubles, lifecycle, CPU and memory, heartbeat and the new state |
| ProcessSource.ReportResources | src/project_agent_controller/observer/process_source.py:182-207 | the two metrics share a threshold event and a recovered event, which list them |
| ProcessSource.EventsFollowSamples | src/project_agent_controller/observer/process_source.py:177-207 | in an available epoch, restarts included, the events about a metric are the marks of its samples |
| ProcessSource.EventsHaveHysteresis | src/project_agent_controller/observer/process_source.py:177-207 | so the events of each metric have hysteresis and start with a threshold |
| ProcessSource.ChangesBoundVolume | src/project_agent_controller/observer/process_source.py:69-241 | a run emits at most 4 events for each change of outcome, plus heartbeats and one recovery |
| ProcessSource.HeartbeatsAreSpaced | src/project_agent_controller/observer/process_source.py:209-218 | heartbeats are at least heartbeat_seconds apart, across outages too |
| ProcessSource.VolumeIsBounded | src/project_agent_controller/observer/process_source.py:69-241 | together: the volume is bounded by changes of outcome and elapsed time over heartbeat_seconds |
| ProcessSource.PollIsConsecutive | src/project_agent_controller/observer/process_source.py:131-146 | numbering without a gap |
| ProcessSource.PollSaysWhatIsJustified | src/project_agent_controller/observer/process_source.py:69-241 | a poll says exactly what the process stored before, the flags of its metrics and the process found justify, with their values, event by event; and one heartbeat if that is nothing for heartbeat_seconds |
| ProcessSource.CpuPercentIsShare | src/project_agent_controller/observer/process_source.py:244-253 | the CPU percentage is the CPU time spent over the time since the poll before, and zero where that cannot be told |
| ProcessSource.PollIsOrdered | src/project_agent_controller/observer/process_source.py:148-218 | lifecycle comes first, then thresholds, then recoveries, each at most once |
| ProcessSource.PollRemembers | src/project_agent_controller/observer/process_source.py:220-241 | what a poll stores: the outcome, when, the metrics and their flags, the last sign of life |
| GitSource.ListTransitions | src/project_agent_controller/observer/git_source.py:167-248 | the differences between two snapshots, in the order of the code |
| GitSource.Emit | src/project_agent_controller/observer/git_source.py:114-132 | numbers the transitions and makes each entered conflict an incident candidate |
| GitSource.Observe | src/project_agent_controller/observer/git_source.py:22-164 | one poll of a repository: outage, first snapshot, recovery, transitions or heartbeat, and the new state |
| GitSource.PollIsConsecutive | src/project_agent_controller/observer/git_source.py:115-127 | numbering without a gap |
| GitSource.PollSaysWhatIsJustified | src/project_agent_controller/observer/git_source.py:31-248 | a poll says exactly what the outcome before and the outcome now justify, with their values, event by event, each once and in the order of the code; and one heartbeat if nothing differs for heartbeat_seconds |
| GitSource.CandidatesAreConflicts | src/project_agent_controller/observer/git_source.py:114-132 | the incident candidates are the entered conflicts under the head they were met at |
| GitSource.PollRemembers | src/project_agent_controller/observer/git_source.py:133-163 | a poll remembers its outcome; the first, a recovery and a heartbeat are its signs of life |
| GitSource.RunRemembers | src/project_agent_controller/observer/git_source.py:133-163 | so over every run of a new source what a poll compares with is the outcome of the poll before |
| GitSource.LogIsReplayable | src/project_agent_controller/observer/git_source.py:77-248 | over every run, outages included, the events alone tell whether the repository is available and its head, branch, detached and dirty flags, ahead and behind |
| GitSource.ConflictsAlternate | src/project_agent_controller/observer/git_source.py:209-221 | in an available epoch entered and cleared strictly alternate and the last one tells whether there are conflicts |
| GitSource.OutageHidesConflicts | src/project_agent_controller/observer/git_source.py:98-112 | after an outage of any length and of any errors they tell the truth exactly if the two snapshots around it agree on whether there are conflicts |
| GitSource.ChangesBoundVolume | src/project_agent_controller/observer/git_source.py:31-163 | a run emits at most 7 events for each change of outcome, plus heartbeats |
| GitSource.HeartbeatsAreSpaced | src/project_agent_controller/observer/git_source.py:133-152 | heartbeats are at least heartbeat_seconds apart, across outages too |
| GitSource.VolumeFromStart | src/project_agent_controller/observer/git_source.py:31-163 | together: at most 7 for each change of outcome, the first poll counted, plus elapsed time over heartbeat_seconds |
| GitHubCIProvider.NormalizeChecks | src/project_agent_controller/observer/github_ci_provider.py:159-201 | one pass over the check runs computes the five counters and the first failing checks |
| GitHubCIProvider.CountsPartitionRuns | src/project_agent_controller/observer/github_ci_provider.py:165-200 | each run that is an object is counted once |
| GitHubCIProvider.VerdictTellsRuns | src/project_agent_controller/observer/github_ci_provider.py:211-223 | the verdict from the runs and the status themselves: a failure if and only if any run or a nonempty status fails, else cancelled if any run is, else pending if any run or the status is, else a success if any run or the status is, else neutral, and no checks if nothing was reported |
| GitHubCIProvider.CountersTellRuns | src/project_agent_controller/observer/github_ci_provider.py:105-145 | each counter is the number of runs of its kind, by status and conclusion, with all contexts of a status in the states that belong there |
| GitHubCIProvider.FailuresTellRuns | src/project_agent_controller/observer/github_ci_provider.py:172-190 | the failing runs are listed in their order, each with its name, conclusion, link, summary and id |
| GitHubCIProvider.ReadFailsIff | src/project_agent_controller/observer/github_ci_provider.py:79-104 | a read fails exactly if a 304 finds no summary stored |
| GitHubCIProvider.ReadStores | src/project_agent_controller/observer/github_ci_provider.py:86-152 | a read stores each summary it used and the tag that came with it; a response without a tag, or with an empty one, leaves the old tag |
| GitHubCIProvider.SnapshotCountsAddUpIff | src/project_agent_controller/observer/github_ci_provider.py:105-124 | the counters of a snapshot add up to its total exactly if the combined status is empty or in a counted state; failing checks are listed up to the limit; no checks means nothing at all was reported |
| GitHubCIProvider.FailuresHaveFailureConclusions | src/project_agent_controller/observer/github_ci_provider.py:172-185 | only failing conclusions become failed checks |
| GitHubCIProvider.ReadSnapshot | src/project_agent_controller/observer/github_ci_provider.py:79-156 | a snapshot from two responses; a 304 reuses the cached summary and raises if there is none |
| GitHubCIProvider.ConditionalReadIsFullRead | src/project_agent_controller/observer/github_ci_provider.py:79-156 | one conditional read gives what a full read gives and keeps each stored tag with its own summary (sections 13.1.2 and 15.4.5 of RFC 9110) |
| GitHubCIProvider.UntaggedResponseKeepsOldTag | src/project_agent_controller/observer/github_ci_provider.py:150-152 | after a 200 without a tag the old tag stays, beside the new summary; they belong together exactly if the two representations amount to the same |
| GitHubCISource.Observer.Observe | src/project_agent_controller/observer/github_ci_source.py:30-348 | one poll: blocked, backing off, failing or successful; events, new state and incident candidates |
| GitHubCISource.Observer.AddNewFailures | src/project_agent_controller/observer/github_ci_source.py:250-280 | a failing check that was not failing before is an event and an incident candidate |
| GitHubCISource.Observer.AddRecoveries | src/project_agent_controller/observer/github_ci_source.py:281-296 | the checks that no longer fail on the same head, sorted |
| Ordering.SortSet | src/project_agent_controller/observer/github_ci_source.py:283 | the sorted listing of a set |
| Ordering.SortedListsTheSet | src/project_agent_controller/observer/github_ci_source.py:180-283 | lists every element once, in ascending order |
| Ordering.AtMostMeans | src/project_agent_controller/observer/github_ci_source.py:283 | in the order of strings: a prefix comes first, else the first character that differs decides |
| GitHubCISource.PollIsConsecutive | src/project_agent_controller/observer/github_ci_source.py:186-334 | numbering without a gap |
| GitHubCISource.PollSaysWhatIsJustified | src/project_agent_controller/observer/github_ci_source.py:41-348 | a poll says exactly what the stored state, the Git head and the answer of the provider justify, with their values, event by event; one heartbeat if that is nothing for heartbeat_seconds; and raises exactly if it asks and the provider or the reading raises |
| GitHubCISource.ChangesAreRanked | src/project_agent_controller/observer/github_ci_source.py:214-313 | in the order head, status, failures as listed, recoveries sorted, no checks |
| GitHubCISource.CandidatesAreFailures | src/project_agent_controller/observer/github_ci_source.py:272-280 | the incident candidates are the newly failing checks under provider, repository, head, name and conclusion |
| GitHubCISource.PollRemembers | src/project_agent_controller/observer/github_ci_source.py:41-348 | what each kind of poll stores and what it leaves as it was |
| GitHubCISource.CacheIsInvisible | src/project_agent_controller/observer/github_ci_source.py:41-177 | over every run of successes, errors, skipped and blocked polls the observer that sends stored tags emits the events and stores the fields of one that always fetches in full, if a tag names one representation and a resource that was served with a tag keeps being served with one |
| GitHubCISource.UntaggedResponseMisleadsIff | src/project_agent_controller/observer/github_ci_provider.py:150-152 | without that: checks served with a tag, then others without one, then the first again under the old tag; the observer emits the events of a full one exactly if status and failing checks of the two are the same and, when a heartbeat is due, so are their summaries |
| GitHubCISource.UntaggedResponseMisleads | src/project_agent_controller/observer/github_ci_provider.py:150-152 | a run of three polls whose events differ: no checks, one passing check without a tag, no checks |
| GitHubCISource.IdentityIsInjective | src/project_agent_controller/observer/github_ci_source.py:358-359 | an identity tells its 40-character head and, for failing conclusions, the check and its conclusion |
| GitHubCISource.LogIsReplayable | src/project_agent_controller/observer/github_ci_source.py:214-296 | from any point of an available epoch on, the events carry a reader from the stored head, status and failing checks to those at the end |
| GitHubCISource.ChangesSaySomethingIff | src/project_agent_controller/observer/github_ci_source.py:214-313 | between two available snapshots something is said exactly if head, status or failing checks differ |
| GitHubCISource.FailureSetIsTheList | src/project_agent_controller/observer/github_ci_source.py:351-355 | after every run the stored set tells exactly which checks are on the stored list of failed checks, which is cut at its limit |
| GitHubCISource.ListedIsFailingIff | src/project_agent_controller/observer/github_ci_provider.py:172-185 | that list names every check that fails if and only if each failing run past the limit repeats one within it; so it does when no more runs fail than the limit, and only then if the failing runs differ |
| GitHubCISource.ReportsAreTrueIff | src/project_agent_controller/observer/github_ci_source.py:250-296 | on a head that stays, the reported failures and recoveries are those of the checks that fail exactly under that condition |
| GitHubCISource.FailureSetIsExactIff | src/project_agent_controller/observer/github_ci_source.py:214-296 | in every run and for every successful poll in it, conditional or full: the set afterwards is that of the checks that fail, and on a head that stays so are the reports, if and only if that condition holds of the check runs served |
| GitHubCISource.CutListMisreports | src/project_agent_controller/observer/github_ci_source.py:281-296 | with a limit of one, a poll that lists a new failing check first reports the other, which still fails, as recovered |
| GitHubCISource.BackoffLaw | src/project_agent_controller/observer/github_ci_source.py:88-165 | however many polls are skipped, the call after the k-th failure of one kind in a row comes no sooner than min(60 * 2^(k-1), 900) seconds after it, and then any poll makes it |
| GitHubCISource.FailingCallsAreSpread | src/project_agent_controller/observer/github_ci_source.py:362-370 | m >= 5 such calls span at least 900 * (m - 4) seconds |
| GitHubCISource.BlockedPollForgetsBackoff | src/project_agent_controller/observer/github_ci_source.py:66-75 | a poll without Git state clears the backoff, so the next one with it asks at once |
| GitHubCISource.NextCallAfterFailure | src/project_agent_controller/observer/github_ci_source.py:362-370 | after a failure the next call is made exactly from the named future reset on, after 300 seconds for a failed login, after the delay otherwise |
| GitHubCISource.StreakSaysOnce | src/project_agent_controller/observer/github_ci_source.py:115-136 | any number of polls failing with one kind in a row are one event, none if it was known |
| GitHubCISource.BlockedSaysOnce | src/project_agent_controller/observer/github_ci_source.py:49-65 | any number of polls without Git state in a row are one event |
| GitHubCISource.HeartbeatsAreSpaced | src/project_agent_controller/observer/github_ci_source.py:315-336 | heartbeats are at least heartbeat_seconds apart, across outages and blocked polls too |
| ObserverStore.Database.InsertAll | src/project_agent_controller/storage/database.py:218-221 | the statements of an observation up to its upsert, failing anywhere or at a number that is taken |
| ObserverStore.Database.AppendObservation | src/project_agent_controller/storage/database.py:207-226 | a file's events, incidents and cursor are committed together or not at all |
| ObserverStore.Database.AppendState | src/project_agent_controller/observer/state_store.py:61-74 | a system source's events, incidents and state are committed together or not at all |
| ObserverStore.FailedTurnLeavesNothing | src/project_agent_controller/storage/database.py:207-226 | a turn raises exactly if its observer does, a number is taken or a statement of its transaction fails, and then leaves the tables as they were |
| ObserverStore.SortAscends | src/project_agent_controller/observer/runner.py:67-73 | sources are observed kind by kind, so Git before the CI that depends on it |
| ObserverStore.KindsComeInOrder | src/project_agent_controller/observer/runner.py:67-73 | in words: files, then processes, containers, Git and CI |
| ObserverStore.SortIsStable | src/project_agent_controller/observer/runner.py:109 | sources of one kind keep their order |
| ObserverStore.ObserverRunner.Read | src/project_agent_controller/observer/runner.py:125-191 | what the observer of the source's kind, called as a method on what is stored under the source's id, makes of the world: an exception, or numbered events, candidates and what to remember |
| ObserverStore.ObserverRunner.ObserveSource | src/project_agent_controller/observer/runner.py:125-195 | one source's turn: read what is stored, observe, commit |
| ObserverStore.ObserversContinue | src/project_agent_controller/observer/runner.py:125-195 | whatever is stored under its id, even by an observer of another kind, every observer numbers its events on from the stored sequence and remembers the last number |
| ObserverStore.OwnStateIsGiven | src/project_agent_controller/observer/runner.py:125-191 | an observer is given the cursor or the state that is stored for its source by its own kind, and nothing if none is, and all its events are written down with what it remembers |
| ObserverStore.WrittenKeepsText | src/project_agent_controller/observer/runner.py:125-195 | an event is written down with the text it was given |
| ObserverStore.ObserverRunner.ObserveOnce | src/project_agent_controller/observer/runner.py:103-123 | nothing unless ACTIVE; else the sources in turn until one raises, what was committed before stays |
| ObserverStore.OneRunnerIsGapless | src/project_agent_controller/observer/runner.py:103-195 | for one runner over files, processes, containers, Git and CI together, with exceptions and rollbacks anywhere, the committed events of each source are numbered 1, 2, 3 up to the stored sequence, in order |
| ObserverStore.RestartsKeepNumbering | src/project_agent_controller/observer/runner.py:103-195 | any number of runners in succession keep this if no file shares its id with a system source |
| ObserverStore.NothingIsLost | src/project_agent_controller/observer/runner.py:103-195 | after any calls of any runners the event table holds the events of the committed readings in order, and the incidents are those of their candidates, whose occurrences add up to them |
| ObserverStore.CIWatchesItsGit | src/project_agent_controller/observer/runner.py:179-191 | a CI source watches the head stored for its Git source and no other: blocked with none, and with one it asks for that head whenever no backoff runs |
| ObserverStore.NumberingHoldsIff | src/project_agent_controller/storage/schema.sql:10-22 | a turn that commits keeps the numbering exactly if it says nothing or continues from the largest stored sequence |
| ObserverStore.SharedIdRepeatsAfterRestart | src/project_agent_controller/observer/runner.py:125-195 | a history in which it fails: one runner reports a missing log file, the next one an unavailable repository under the same source id, and both events are number 1 |
| ObserverStore.BelowTopClashes | src/project_agent_controller/storage/schema.sql:21 | below that a runner's own next number is taken and its insert fails |
| Incidents.IncidentStore.RecordIncident | src/project_agent_controller/storage/database.py:126-200 | the insert of a new fingerprint or the update of a known one, with the sample slot |
| Incidents.IncidentTellsHistory | src/project_agent_controller/storage/database.py:126-200 | after any history an incident exists exactly for recorded fingerprints, counts their events, knows the first and the last, and its samples are the first, the second and the latest |
| Incidents.CountsAddUp | src/project_agent_controller/storage/database.py:144-188 | the counts of all incidents add up to what was recorded |
| Briefs.MakeBrief | src/project_agent_controller/curation/briefs.py:99-113 | a brief of some samples, with its evidence listed once |
| Briefs.RedactSamples | src/project_agent_controller/curation/briefs.py:58-73 | every sample is redacted, up to the first that must not be exported |
| Briefs.Build | src/project_agent_controller/curation/briefs.py:52-96 | the two shrinking loops return the first brief of a ladder that fits |
| Briefs.BuiltBriefFits | src/project_agent_controller/curation/briefs.py:75-113 | it fits the limit, keeps the first and the last sample, and samples and omitted events make up all occurrences |
| Briefs.BriefIsRedacted | src/project_agent_controller/curation/briefs.py:52-113 | the samples of a built brief are stored events in order, each with its id, type, time, severity and evidence but the redacted text for its line, whole or all cut after 256, 128, 64, 32 or no characters with an ellipsis; and the listed classes are exactly what the redactor matched in the stored samples, sorted |
| Briefs.RefusedAtOnceIff | src/project_agent_controller/curation/briefs.py:52-55 | a limit below 512 is refused for every incident, and an unknown incident under every other limit |
| Briefs.BriefConservesHistory | src/project_agent_controller/curation/briefs.py:52-113 | for every history of an incident a brief starts with its first event, ends with its latest and accounts for every one |
| Briefs.BriefIsFirstFit | src/project_agent_controller/curation/briefs.py:75-96 | nothing is dropped or cut that need not be, and a brief is refused exactly if content is unsafe, naming the first such event, or nothing on the ladder fits |
| Briefs.LadderDropsMiddle | src/project_agent_controller/curation/briefs.py:75-78 | while more than two samples are left, what is tried are the first and the last half of so many of them |
| Briefs.LadderEndsCut | src/project_agent_controller/curation/briefs.py:80-93 | then the first and the last sample with their lines cut after 256, 128, 64, 32 and no characters, and nothing more |
| Briefs.EvidenceIsListedOnce | src/project_agent_controller/curation/briefs.py:111 | the evidence references are those of the samples, each once |
| Briefs.EvidenceIsInOrder | src/project_agent_controller/curation/briefs.py:111 | in the order of their first appearance |
| Capture.BoundedCapture.Accept | src/project_agent_controller/runner/executor.py:43-48 | the locked body of the loop: what still fits is kept, the rest marks the output as truncated |
| Capture.Consume | src/project_agent_controller/runner/executor.py:41-48 | both threads' steps in the order they take the lock |
| Capture.BudgetIsShared | src/project_agent_controller/runner/executor.py:33-48 | for every chunking and every interleaving each buffer is a prefix of its stream, together they hold min(limit, total) bytes, and truncated is set exactly if there were more |

## What the proofs show about the code

- The table of legal transitions suggests more than the requests can do: a drained controller is left
  only through an emergency stop, and DEGRADED is never entered (`RunnerStop.UnusedEdges`).
- Circuit thresholds are set per task while the circuit is per project. With differing thresholds a
  claim can read a NULL opening time and raise; `RunnerCircuit.ClaimRaisesIff` says exactly when and
  `RunnerCircuit.MixedThresholdsRaise` gives a run. The other circuit theorems assume one policy per project.
- A call that crashes after it was admitted is never counted, so crashing calls are admitted without end
  (`RunnerWindows.CrashedCallsAreFree`), and a probe that crashes closes the project's circuit for good
  (`RunnerWindows.LostProbeEndsAdmissions`).
- A call that is stopped between its admission and an attempt ends its run as blocked for good, and the
  circuit counts that as a failure (`RunnerGate.BlockedAttemptEndsTheRun`).
- Nothing keeps a file and a system source from sharing an id; then numbers can repeat after a restart
  (`ObserverStore.NumberingHoldsIff`, `ObserverStore.SharedIdRepeatsAfterRestart`).
- Only the first failed checks of a response are kept. When more fail than the limit, the observer can
  report a check as recovered that still fails (`GitHubCISource.CutListMisreports`); up to the limit its
  reports are exact (`GitHubCISource.FailureSetIsExactIff`).
- A combined status in a state the code does not know counts towards the total of a snapshot but towards
  no counter (`GitHubCIProvider.SnapshotCountsAddUpIff`).
- The CI backoff does not survive a poll without Git state (`GitHubCISource.BlockedPollForgetsBackoff`).
- A response without an ETag leaves the tag of an earlier one beside the new summary
  (`GitHubCIProvider.UntaggedResponseKeepsOldTag`), and a later 304 for that tag then brings back the wrong
  summary (`GitHubCISource.UntaggedResponseMisleads`).

## Left out

- HTTP, Unix socket and Git subprocess transports, process inspection, path resolution and archive extraction: foreign calls, whose answers are inputs.
- The rest of the task executor (process groups, signals, workspaces, the working of each reader's pipe): `execute` may answer anything.
- Command line, web routes, settings, YAML and field validation: only the numeric bounds they guarantee are used, as preconditions.
- Parsing Git's porcelain output and the Engine's JSON: the snapshots are inputs.
- Redaction patterns, fingerprint normalisation, full-text search and knowledge matching: library semantics; the redactor and fingerprints are parameters.
- Severities, evidence references of events, rate-limit telemetry and free-text messages: they decide nothing in the modelled code. The severity of a container's log line is a parameter where it makes an incident candidate.
- Looking up a registered task by its id: an unknown id raises before anything else is done.
- Liveness: a probe whose request died, or whose key was already finished by another request, keeps its flag, and a crashed request leaves its run running; the code promises no recovery from either, so only safety is stated.
- Container logs across an outage or a change of container, and a first attach whose `tail` cuts the lines of one timestamp: continuity is neither detected nor promised by the code.
- A file with device 0 and inode 0, which no file system gives: the reader could not tell it from a source never read.
- A file that is truncated and has grown past the cursor again between two polls looks like one that only grew; the file theorems assume this does not happen.
- Several runners observing one source at the same time: the lock of a runner is per process. Runners in succession are covered.
- Scheduling of the observer daemon: it only repeats `observe_once`.
- GitHubCIProvider.NormalizeChecks: takes summaries as already cut to 512 bytes; cutting UTF-8 text is not modelled.
- RunnerWindows.FailingWindowAdmits: is about admitted calls that do not overlap, as overlapping ones may all be admitted before the first of them fails, and counts the calls that end without a record, as nothing in the program does.
- Briefs.Build: takes the length of a brief's JSON as a function of the brief, so the result holds for every encoding.
- DockerLogs.Logs: keeps the recent digests as a set ordered by digest, of which the largest 100 are stored.
