# Running Man, modelled

Running Man starts the processes of a development stack in dependency order, keeps them
going, and collects their logs and traces. This project models the parts of it whose
behaviour is hard to see from any one function, in Dafny 4.11, and proves what they promise.
`dafny verify dfyconfig.toml` checks all of it.

## Startup and shutdown

`Depends.dfy` is the static half: `findCycle` and `ValidateDependencies`, as the recursive
search over a state map and a path that they are. `Startup.dfy` is the state that startup
shares, as the Go struct with its lock regions and as a value. `Protocol.dfy` is the dynamic
half, a step relation in which each lock region, channel operation and fork of a goroutine
is one step. `Next` is what one step does; a run is any sequence of steps, with any outcome
of every fork, check and exit. Its tables follow the source function by function:

- `MoveStart`: Start, internal/process/manager.go:173-224
- `MoveAwait`: awaitDependencies, internal/process/startup.go:310-328
- `MoveHalt`: halt, internal/process/startup.go:333-357
- `MoveGate`: gate, internal/process/startup.go:361-395, with checkHealth, lines 237-281
- `MoveLoop`: startRecurringProcess and runRecurringProcess, internal/process/manager.go:227-297
- `MoveWaiter`: the waiters of Wait, internal/process/manager.go:331-410, with awaitStarted
- `MoveRequest`: Restart, internal/process/manager.go:472-535
- `StepStop`: Stop, internal/process/manager.go:431-452

The main results about every run: no deadlock (`Progress.dfy`), startup ends and settles
everything (`StartupEnds.dfy`), launches follow the dependency order (`LaunchOrder.dfy`),
nothing outlives Stop but runs of processes that were restarted (`Stopping.dfy`,
`NoOverlap.dfy`), and which gates can still launch their process, over every continuation
(`GateLaunch.dfy`, `StillLaunches.dfy`). Ready means checked: a healthcheck has passed before
anything that waits for it is launched (`HealthChecks.dfy`). Until a Stop, recurring and crashed
processes run again and a Restart frees its process; after one, they and Wait can end
(`KeepsGoing.dfy`). `ValidatedStartup.dfy` joins the two halves:
acyclicity, which validation checks, is what rules out deadlock, and a process on a cycle is
never launched.
`Lifecycle.dfy` is the manager as a class whose methods make the protocol's steps.

Two promises of the documentation and comments do not hold of the code, and each has a run
that shows it. A process that startup has blocked can still be launched by its own gate
(`HaltRace.dfy`), where docs/configuration.md:195-197 says that nothing still waiting is
started; `StillLaunches.GateLaunchesIff` says exactly when. A Restart of a
`restart_on_crash` process can leave a run behind that Stop never reaches
(`RestartRace.dfy`), where the comment at internal/process/manager.go:145-154 says that every
run is accounted for.

## Traces on disk and in memory

`Segments.dfy` and `Disk.dfy` are the segment files and the object that rolls, appends to
and expires them; `SpanLoad.dfy` and `SpanStorage.dfy` are the spans in memory and the load
that reads earlier runs' segments without the lock. The methods of `SpanStorage` are its
critical sections, so that any sequence of calls is an interleaving, and its invariant is
what every interleaving keeps. The main result is that a load brings back exactly what the
earlier segments hold when it ends, whatever was added and expired meanwhile.
`TornWrite.dfy` is reading a segment whose last write was cut off at any byte. `Trim.dfy` is
which attribute values of a span fit a budget, and `HexId.dfy` the repair of ids that were
taken for base64.

## Logs

`RingBuffer.dfy` is the log buffer with its trace index; `Parser.dfy` groups Python
tracebacks by stream, and `Tracebacks.dfy` says what a traceback comes to; `LineFraming.dfy` cuts pipes and container streams into lines;
`LogWindow.dfy` is the scrolled view, which formats only what it shows.

## Processes and views

`ProcessTree.dfy` has the two searches of the process table, `SpanTree.dfy` a trace in tree
order, and `NaturalOrder.dfy` the order of attribute keys.

## What is assumed

- Health probes and Compose readiness end, passed or failed; a fork succeeds or fails; a run
  ends when it likes. All of these are choices of the step relation.
- One reading of the clock serves a critical section of the span storage, arrivals are
  strictly later one after the other, and a file's modification time is that of its last
  write. The log buffer's clock does not go back.
- JSON, regular expressions, level detection, ANSI stripping, `filepath.Match`, drawing and
  match counting are function parameters. What is used of them is stated where they are:
  JSON in `TornWrite.FaithfulSpan`, the parsers in `Parsing.KeepsRaw`.
- A snapshot of the process table has one row for each pid; span ids in a trace are distinct.
- Text is a sequence of bytes: `Bytes`, or a `string` whose characters stand for bytes.

## Model

| member | source | states |
|---|---|---|
| Depends.FindCycle | internal/config/depends.go:184-228 | Ends on any configuration; reports no cycle exactly when the process graph without self-loops is acyclic, and otherwise a path of real edges from a process back to itself |
| Depends.CycleFinder.Visit | internal/config/depends.go:198-220 | The recursive search: a cycle, or every process below this one marked done with the path as it was |
| Depends.CycleFinder.VisitDependencies | internal/config/depends.go:209-216 | Its inner loop: the first dependency that leads back into the path closes a cycle; a process already done is not searched again |
| Depends.ValidateProcess | internal/config/depends.go:115-162 | The refusals of one process, each of them and no other: a healthcheck on an interval, a name listed twice, and whatever the switch says of each dependency |
| Depends.ValidateDeclared | internal/config/depends.go:164-172 | The refusals of the healthchecks declared for Compose services, each of them and no other |
| Depends.ValidateDependencies | internal/config/depends.go:104-179 | Accepts exactly the configurations in which every dependency can become ready and no cycle exists; the list has all problems but cycles, and of those one |
| Depends.TopologicalOrderIsAcyclic | internal/config/depends.go:184-228 | An order that lists every dependency first rules out every cycle, self-loops aside: what the finished marks of the search amount to |
| Depends.StuckSetHasCycle | internal/config/depends.go:181-228 | Any finite set of processes each waiting for another of the set contains a cycle |
| Startup.StartupState.constructor | internal/process/startup.go:94-114 | An open gate and a pending mark for exactly the processes with dependencies |
| Startup.StartupState.ReadinessOf | internal/process/startup.go:117-126 | Creating a cell on first sight decides nothing that anyone could observe |
| Startup.StartupState.DecideCell | internal/process/startup.go:129-140 | The first decision stands; a later one changes nothing |
| Startup.StartupState.SettleGate | internal/process/startup.go:143-154 | A pending process is settled once, blocked when there is a reason; no gate is ever closed twice |
| Startup.StartupState.Started | internal/process/startup.go:158-166 | A restart unblocks a process and settles it, closing its gate only if it was open |
| Startup.StartupState.ClaimCheck | internal/process/startup.go:237-245 | Of all callers for one name exactly the first gets to check it |
| Startup.StartupState.ListWaiting | internal/process/startup.go:345-352 | What halt lists: the pending processes, in configured order |
| Startup.StartupState.BlockAll | internal/process/startup.go:353-355 | The loop of halt: each listed process still pending is blocked with the cause |
| Startup.CellsOnlyGrow | internal/process/startup.go:129-166 | No lock region of startup takes back a decision, a claimed check or a closed gate, and a gate is either open or closed |
| Startup.HaltBlocksAllPending | internal/process/startup.go:333-357 | Undisturbed, halt leaves nothing pending and everything that was pending blocked with the cause |
| Progress.InvariantHolds | internal/process/startup.go:237-395 | In every interleaving: while one goroutine is in haltOnce everything pending is on its list, every claimed check has someone to decide it, every pending process has a gate still to settle it, and gates and pending marks partition the processes with dependencies |
| Progress.NoDeadlock | internal/process/startup.go:310-395 | In every reachable state of an accepted configuration, not stopped, a pending process means some goroutine of startup or a healthcheck can step |
| Progress.PendingSteps | internal/process/startup.go:310-395 | Why: a pending process either waits for another pending process or leads to a step |
| StartupEnds.StepsSpend | internal/process/startup.go:237-395 | Every step of startup uses up some of a measure, and only asking for a Restart adds to it |
| StartupEnds.StartupStepsAreBounded | internal/process/startup.go:237-395 | So no run has more steps of startup than the configuration allows, and ten for each Restart |
| StartupEnds.StartupSettles | internal/process/startup.go:310-395 | From every reachable state that has not been stopped, startup alone can settle every process, within the measure and with no Restart asked for |
| StartupEnds.WaiterIsReleased | internal/process/startup.go:400-414 | A waiter can go on exactly when its process is settled or the manager stopped, and not before |
| LaunchOrder.GatesLaunchOnlyWhenReady | internal/process/startup.go:361-395 | In every run, whatever a gate or a recurring loop has launched has all its dependencies decided ready; that loops launch at all, and what ready takes, is KeepsGoing and HealthChecks |
| LaunchOrder.DecisionsStand | internal/process/startup.go:129-140 | A decision, once made, is the same in every later state of the run |
| LaunchOrder.LaunchesAreTopological | internal/process/startup.go:310-395 | Without Restart, every transitive process dependency of a launch was launched before it and is decided ready |
| ValidatedStartup.ResolvableIsAccepted | internal/config/depends.go:104-179 | What validation accepts meets everything the startup protocol relies on |
| ValidatedStartup.ValidatedStartupCannotDeadlock | internal/process/startup.go:310-414 | The two halves joined: a configuration that ValidateDependencies accepts deadlocks in no interleaving |
| ValidatedStartup.ValidatedStartupSettles | internal/process/startup.go:310-414 | And from any state before a stop its startup can still settle every process |
| ValidatedStartup.CycleNeverLaunches | internal/config/depends.go:184-228 | The converse: without Restart a process on a cycle is never launched, so refusing cycles loses nothing |
| HealthChecks.ReadyWasChecked | internal/process/startup.go:237-281 | In every run, a process with a healthcheck, or a service, is decided ready only by its check passing, and a process is launched before its check passes; one without a healthcheck is ready only once launched |
| HealthChecks.FailedWasTried | internal/process/startup.go:237-281 | What is decided failed had its check fail, for the same reason, or its gate has tried to fork it and failed |
| HealthChecks.LaunchAwaitsChecks | internal/process/startup.go:310-395 | So a gate or a recurring loop launches only after the check of each dependency that has one has passed, and after that dependency was launched |
| HealthChecks.ACheckEndsOnce | internal/process/startup.go:237-281 | However a run goes, and whatever is restarted, the check of a name ends at most once |
| KeepsGoing.RecurringRunsAgain | internal/process/manager.go:227-297 | In every run, until a Stop, a recurring process in its loop, or at its dependencies when they are all ready, can go on to run any number of times more, by its own steps |
| KeepsGoing.RecurringStarts | internal/process/manager.go:173-224 | One without dependencies is in its loop once Start is over, until a Stop |
| KeepsGoing.LoopsUntilStopped | internal/process/manager.go:245-255 | The loop is left only after a Stop |
| KeepsGoing.StoppedLoopEnds | internal/process/manager.go:245-265 | And after a Stop it can end, without another run |
| KeepsGoing.WaitsForDependency | internal/process/startup.go:310-328 | A waiting gate goes on exactly when the dependency is ready, gives up exactly when it has failed, startup has halted or the manager is stopped, and otherwise waits |
| KeepsGoing.NothingBlockedWithoutFailure | internal/process/startup.go:310-395 | In every run, startup is halted, and a process blocked or decided failed, only after a check or the fork of a gate has failed; a Stop blocks nothing |
| KeepsGoing.CrashedComesBack | internal/process/manager.go:331-410 | Until a Stop, a started restart_on_crash process that Wait watches comes back however often it crashes |
| KeepsGoing.OnlyTheCrashedComeBack | internal/process/manager.go:360-395 | In every run, a launch after a crash is of a restart_on_crash process, and follows a crash of it that was found before any Stop |
| KeepsGoing.WaitWatches | internal/process/manager.go:300-330 | Wait watches the processes registered when it is called and those with dependencies, but for the recurring ones |
| KeepsGoing.StoppedWaiterGoes | internal/process/manager.go:331-410 | After a Stop every waiter can go, so that Wait returns, without launching anything |
| KeepsGoing.RestartStarts | internal/process/manager.go:472-535 | Where nothing is stopped a Restart goes on by its own steps to have its process running, registered, and neither pending nor blocked |
| KeepsGoing.RestartedStaysFree | internal/process/startup.go:158-166 | Once it has, however the run goes on, the process is never blocked again |
| KeepsGoing.OnlyStartRegisters | internal/process/manager.go:155-224 | While Start is under way no other goroutine changes what is registered, and no Stop sweeps it |
| StillLaunches.GateLaunchesIff | internal/process/startup.go:310-395 | In every state of every run, and whether or not Restarts are still asked for, some continuation has the gate launch its process exactly when it has not forked, failed or halted, no run stands registered in its place for good, and every dependency is ready or can still become so, their own gates likewise; whether the process is blocked is not asked. When a Restart may be asked for and nothing was stopped, that is: no dependency has failed |
| StillLaunches.ForkFollows | internal/process/startup.go:310-395 | The schedule: Start ends, each dependency is brought up in turn, and the gate forks, the process still blocked if it was |
| GateLaunch.NeverLaunches | internal/process/startup.go:333-395 | Otherwise no continuation, whatever is asked, stopped or decided in it, has the gate launch the process |
| GateLaunch.ReadyBefore | internal/process/startup.go:237-328 | Why: a name that can become ready after a step could before it, at most one gate deeper |
| HaltRace.ABlockedProcessCanBeLaunched | internal/process/startup.go:333-395 | A run of a validated configuration in which startup halts and blocks a process whose gate launches it all the same, blocked and with no Restart, against docs/configuration.md |
| Stopping.OnlyOrphansOutliveStop | internal/process/manager.go:431-452 | After the sweep of Stop, a run still going is in the hands of a goroutine that will register, stop or discard it, or was replaced in the map while going |
| Stopping.NothingOutlivesStop | internal/process/manager.go:145-170 | Once nothing is in flight, every run has ended exactly when every replaced run has |
| NoOverlap.OnlyARestartedProcessOutlivesStop | internal/process/manager.go:145-170 | A run still going after Stop, with nothing in flight, was at some point registered, and going, for a process whose Restart had been asked for: a process that was not restarted loses none |
| NoOverlap.WithoutRestartNothingOutlivesStop | internal/process/manager.go:145-170 | So without any Restart nothing outlives Stop |
| RestartRace.ARunCanOutliveStop | internal/process/manager.go:472-535 | One Restart of a restart_on_crash process is enough to lose a run: the waiter of Wait forks one too, the first to register is replaced, and Stop ends with it going |
| Lifecycle.OrderListsEveryProcessOnce | internal/process/manager.go:103-128 | The configured order names every process once, even one configured twice |
| Lifecycle.Manager.constructor | internal/process/manager.go:103-128 | The loop over the configurations builds that order and the map of the last configuration of each name |
| Lifecycle.Manager.Adopt | internal/process/manager.go:155-163 | Registers a run exactly when the manager has not been stopped, and changes nothing otherwise |
| Lifecycle.Manager.StopOrder | internal/process/manager.go:461-469 | The registered processes, last configured first |
| Lifecycle.StopOrderHoldsRegistered | internal/process/manager.go:461-469 | Each registered process is in the stop order, and no other |
| Lifecycle.StopOrderIsReverse | internal/process/manager.go:461-469 | Of two processes in the stop order the later configured comes first |
| Lifecycle.Manager.StopAllLocked | internal/process/manager.go:442-452 | Ends every registered run and touches no other: the sweep of the protocol |
| Lifecycle.Manager.Stop | internal/process/manager.go:431-439 | Cancels, then sweeps: the two steps of the protocol |
| Segments.ContentAscends | internal/tracing/disk.go:102-115 | The spans of an ordered directory, read segment by segment, are in arrival order |
| Segments.ExpiryIsByArrival | internal/tracing/disk.go:194-238 | Deleting a prefix of the segments leaves exactly the spans that arrived after the newest deleted one |
| SpanDisk.Disk.constructor | internal/tracing/disk.go:86-100 | Opening keeps what earlier runs left, lists it in order, and adds this run's first segment after it |
| SpanDisk.Disk.Roll | internal/tracing/disk.go:122-143 | The current segment is given up first; what is opened, even in part, comes after all others, and the old name stays current unless the header is written |
| SpanDisk.Disk.WriteLine | internal/tracing/disk.go:155-175 | One line, or part of one: what can be read back afterwards, the size, and the recorded arrival |
| SpanDisk.Disk.Append | internal/tracing/disk.go:149-181 | Adds exactly this span to what a later run could read, when its text reaches the disk; rolls exactly when it encodes, the next segment opens, and there was no segment or it was an hour old or full; the current segment holds its place |
| SpanDisk.Disk.RollIfDue | internal/tracing/disk.go:149-153 | Its first half: rolls exactly when the span encodes, a new segment is due and it opens; what it opened is given up only when that failed |
| SpanDisk.Disk.SegmentsFillUp | internal/tracing/disk.go:149-181 | A segment of this run that no failure gave up is an hour older than the next one, or full |
| SpanDisk.Disk.JudgedByItsSpans | internal/tracing/disk.go:210-216 | Expiry goes by when the last span of a segment arrived, for each this run saved a span in or a load recorded, and by its last write for the rest |
| SpanDisk.Disk.Expire | internal/tracing/disk.go:194-238 | Deletes a prefix: each deleted segment had to go, the next need not or is the current one, and the newest time deleted is reported. Where it stops of itself the total is within the limit and every span on disk young, or only the current segment is left |
| SpanDisk.SurvivorsAreYoung | internal/tracing/disk.go:24-26 | Where expiry stops of itself, the total is within the limit and every span on disk arrived within the age limit and an hour |
| SpanLoad.LoadReads | internal/tracing/disk.go:263-282 | Reading one more segment, or finding it gone, keeps what a load has read equal to what the segments read so far hold now |
| SpanLoad.LoadSurvivesAppend | internal/tracing/storage.go:124-165 | Spans added while a load reads do not disturb it |
| SpanLoad.LoadSurvivesExpiry | internal/tracing/storage.go:124-192 | Segments deleted while a load reads take their spans, and only theirs, out of what it will bring back |
| SpanStore.SpanStorage.constructor | internal/tracing/storage.go:40-48 | Nothing held; loading is under way exactly when earlier runs left segments |
| SpanStore.SpanStorage.DropOldest | internal/tracing/storage.go:100-109 | The oldest go and the byte count goes with them |
| SpanStore.SpanStorage.EvictOld | internal/tracing/storage.go:89-96 | What goes is the spans that arrived before the cutoff, and no other |
| SpanStore.SpanStorage.MakeRoom | internal/tracing/storage.go:54-66 | The loops for age and bytes: what goes had to, for any run of the newest that ends with the new span |
| SpanStore.SpanStorage.Keep | internal/tracing/storage.go:54-75 | Of what was held and the new span the longest run of the newest that fits age, bytes and count is kept; a span over the byte limit is kept alone |
| SpanStore.SpanStorage.Add | internal/tracing/storage.go:51-80 | That, less what an expiry deletes; the span is on disk when its text got there; order, byte count and the bar against deleted spans are kept |
| SpanStore.SpanStorage.ExpireDisk | internal/tracing/storage.go:170-192 | Memory keeps exactly the spans that arrived after everything deleted, and remembers how far that was; what it drops is not on disk |
| SpanStore.SpanStorage.BeginLoad | internal/tracing/storage.go:124-134 | The names to read are the earlier runs' segments there are now |
| SpanStore.SpanStorage.ReadNext | internal/tracing/disk.go:263-282 | One segment is read without the lock and nothing else changes: its spans, its run if its header can be read, when its last span arrived, and its torn line are added; a name without a file adds nothing |
| SpanStore.SpanStorage.Surviving | internal/tracing/storage.go:145-153 | What has been read and arrived after everything deleted, with its size |
| SpanStore.SpanStorage.Merge | internal/tracing/storage.go:154-159 | The loaded spans go first, and the longest run of the newest that fits is kept; here a span over the byte limit goes, even alone |
| SpanStore.SpanStorage.FinishLoad | internal/tracing/storage.go:138-164 | Whatever was added and expired meanwhile, memory becomes the newest that fit of what the earlier segments hold now followed by what was held |
| SpanStore.SpanStorage.GoneIsGone | internal/tracing/storage.go:34-36 | In every state nothing a deleted segment held is in memory, or on disk |
| SpanStore.SpanStorage.Restarts | internal/tracing/storage.go:196-210 | The run starts later than the oldest held span, newest first |
| SpanStore.SpanStorage.FromEarlierRun | internal/tracing/storage.go:215-231 | True exactly when the trace is held and every span of it arrived before this run |
| SpanStore.LoneSpan | internal/tracing/storage.go:62-64 | A lone span survives an Add always and a load exactly when it is within the byte limit |
| SpanStore.RetainedIsUnique | internal/tracing/storage.go:51-75 | The limits and the spans determine what is retained |
| SpanStore.RetainedMeetsLimits | internal/tracing/storage.go:51-75 | What is retained is the end of it all, within age, bytes and count, and with one span more it would not be |
| TornWrite.ReadSegment | internal/tracing/disk.go:286-316 | The loop over first, known and the lines, against a function of the bytes |
| TornWrite.TornSegmentReadsPrefix | internal/tracing/disk.go:286-316 | A segment cut off at any byte reads back as the spans whose text is whole, in order, and skips one line exactly when the cut is inside a span's text; the run is known once its header is whole |
| TornWrite.WholeSegmentReadsAll | internal/tracing/disk.go:286-316 | A segment written whole reads back as written, with nothing skipped |
| TornWrite.HeaderDecides | internal/tracing/disk.go:286-316 | Of any bytes: blank lines aside, without a first line that is a header nothing is read and every other line is skipped; with one, each line is a span or is skipped |
| LogBuffer.RingBuffer.Append | internal/storage/ringbuffer.go:63-81 | The buffer becomes the longest suffix of what it held that meets age, bytes and count together with the new entry, and the new entry: it is within the limits, and with one entry more it would not be |
| LogBuffer.RingBuffer.EvictIfNeeded | internal/storage/ringbuffer.go:84-105 | The three loops one after another drop the fewest oldest entries that will do for all three limits |
| LogBuffer.RingBuffer.EvictOldest | internal/storage/ringbuffer.go:109-124 | One entry goes, size, times and index in step, and its place in the index was slot 0 |
| LogBuffer.RingBuffer.RemoveFromTraceIndex | internal/storage/ringbuffer.go:323-348 | The first place of the entry in its trace's list is found, if it has one, and taken out, with the list when it was the last; otherwise nothing changes |
| LogBuffer.IndexShrinks | internal/storage/ringbuffer.go:323-348 | The oldest entry is first in its trace's list, and without it the index is that of the entries left |
| LogBuffer.DropsIsUnique | internal/storage/ringbuffer.go:84-105 | The limits determine how many entries go |
| LogBuffer.RingBuffer.GetLogsByTraceID | internal/storage/ringbuffer.go:351-363 | The index answers what scanning the entries would |
| LogBuffer.RingBuffer.Query | internal/storage/ringbuffer.go:127-223 | The end of all the entries that pass every filter set, as long as the limit allows |
| LogBuffer.SelectedJoins | internal/storage/ringbuffer.go:137-213 | The filter keeps every match and nothing else, in order, piece by piece |
| LogBuffer.SelectedOnce | internal/storage/ringbuffer.go:137-213 | Each entry that passes is selected once, in order: at exactly the places that match |
| LogBuffer.TraceOnce | internal/storage/ringbuffer.go:351-363 | And each entry of a trace is in its list once, in order |
| Parsing.PythonParser.Parse | internal/parser/python.go:65-106 | Which lines are consumed, which end a traceback and with what entry, and the state after |
| Parsing.PythonParser.Flush | internal/parser/python.go:114-121 | An open traceback is emitted and closed |
| Parsing.PythonParser.BuildEntry | internal/parser/python.go:123-156 | The loop for the trace id and the choice of message, against a function of the state; what they mean is Tracebacks.TracebackIsOneEntry |
| Parsing.MultiParser.StateFor | internal/parser/parser.go:94-105 | A stream seen before keeps its state, a new one has no traceback open, and no two share one |
| Parsing.MultiParser.Parse | internal/parser/parser.go:133-186 | One line changes the state of its own stream and no other, and emits what the order traceback, JSON, traceback, plain text makes of it |
| Parsing.MultiParser.FlushStream | internal/parser/parser.go:190-196 | Flushing a stream changes no other |
| Parsing.StreamsAreIsolated | internal/parser/parser.go:36-46 | However streams interleave, each emits exactly what it would have emitted alone |
| Parsing.LinesKeepOrder | internal/parser/python.go:65-121 | In every run the lines kept, in entries and then in the open traceback, are those that came, in their order, less exactly the lost ones: blank lines that close a traceback and tracebacks replaced by a new header. What is in an entry is never lost |
| Parsing.EveryLineAccounted | internal/parser/python.go:65-121 | So every line is kept, open or lost, as often as it came, and when none is lost they are as they came |
| Parsing.ANewHeaderLosesATraceback | internal/parser/python.go:67-72 | A header, a frame and the header again come out as one header |
| Parsing.StreamConservesLines | internal/parser/parser.go:133-196 | The raw text of a stream's entries, in order, is the lines kept |
| Parsing.StreamIsReproduced | internal/parser/parser.go:133-196 | From its first line to a flush, a stream's raw text is its lines, in order, less exactly the lost ones |
| Tracebacks.TracebackIsOneEntry | internal/parser/python.go:65-156 | Of a header, lines that go on with it and the event that ends it: one entry, an error with the time of the header, all the lines as its text and the first trace id in them; ended by an error line, that is in it and is its message; a line that is neither comes out after it; another header leaves nothing of it |
| Tracebacks.HeaderIsTheMessage | internal/parser/python.go:126-133 | Ended any other way, and error lines being neither headers nor continuing lines, its message is the header |
| Tracebacks.OrdinaryLineIsAnEntry | internal/parser/parser.go:133-186 | Outside a traceback every line but a header is an entry at once, of the source type given |
| Trimming.CutValue | internal/tracing/traces.go:290-299 | The value, or as much of it as ends on a character boundary at or before the limit, with an ellipsis |
| Trimming.CutIsPrefix | internal/tracing/traces.go:290-299 | A cut value is the start of the value, through the last boundary at or before the limit, and the ellipsis |
| Trimming.CutKeepsCharsWhole | internal/tracing/traces.go:290-299 | Of whole UTF-8 characters a cut leaves whole characters |
| Trimming.CutFitsIff | internal/tracing/traces.go:290-299 | A cut value passes the limit by at most three bytes, and fits exactly when the value did or the limit and the two places before it are mid-character |
| Trimming.ACutValueNeedNotFit | internal/tracing/traces.go:290-299 | Two bytes cut to one come to four |
| Trimming.Trim | internal/tracing/traces.go:217-287 | What is kept and what is listed is the greedy pass over the values in order, whatever order the maps were walked in |
| Trimming.ArrangedIsUnique | internal/tracing/traces.go:259-270 | That order is the only one, so the result does not depend on map iteration |
| Trimming.TrimIsOptimal | internal/tracing/traces.go:206-216 | The kept values fit the budget; no choice of event values and attributes within it has more event values, or as many and more attributes |
| Trimming.KeptOrNoted | internal/tracing/traces.go:272-285 | A value is kept whole, or kept cut and listed, or left out and listed |
| Trimming.KeptAreItsValues | internal/tracing/traces.go:232-287 | A span comes out with its own values, each in its place and whole or cut; the rest are left out |
| Trimming.NotedSizes | internal/tracing/traces.go:219-224 | A value is listed exactly when it is left out or cut, and the size under its name is its own, unless it is an event's value and an attribute of that name, listed too, has another size |
| Trimming.SizesAreRealIff | internal/tracing/traces.go:219-224 | So every size listed is real exactly when no such pair is listed |
| Trimming.AnEventSizeCanBeLost | internal/tracing/traces.go:252-254 | Such a pair: an attribute named like an event's value is listed over it |
| ProcessTree.ProcessTrees | internal/process/ports.go:202-232 | Exactly the roots and all below them are owned, each by its nearest root going up, whatever the order of roots and rows; without a snapshot, the roots alone |
| ProcessTree.Descendants | internal/process/wrapper.go:495-509 | The repeated passes end, with exactly the processes below the parent and their start times |
| ProcessTree.FixpointIsSearch | internal/process/wrapper.go:484-509 | For one root both searches find the same processes, the root aside |
| NaturalOrder.NaturalLess | cmd/running-man/tuitrace.go:251-271 | The order of the tokens: runs of digits by their number, however long, other characters by code, a prefix first |
| NaturalOrder.DigitRun | cmd/running-man/tuitrace.go:274-280 | The longest run of digits at the start |
| NaturalOrder.RunsCompareByValue | cmd/running-man/tuitrace.go:254-261 | Comparing runs trimmed of zeros by length and then as text compares the numbers |
| NaturalOrder.NaturalOrderIsStrictWeak | cmd/running-man/tuitrace.go:249-271 | Irreflexive and transitive, and keys that neither precedes are those with the same tokens |
| NaturalOrder.PlainKeysAsStrings | cmd/running-man/tuitrace.go:249-271 | Keys without digits are in the order of strings |
| NaturalOrder.NumbersDecide | cmd/running-man/tuitrace.go:249-271 | Keys alike up to a number are in the order of their numbers, and the same number leaves it to what follows |
| NaturalOrder.NumberedKeysInOrder | cmd/running-man/tuitrace.go:249-271 | A name with the numeral of m comes before the name with that of n exactly when m is less than n |
| LineFraming.ReadLine | internal/process/wrapper.go:62-88 | Exactly one raw line is consumed whatever the buffer; the line begins it, holds no newline and ends in no CR, and of the bytes up to the limit only line ends are left off; what is longer is marked truncated |
| LineFraming.CaptureStream | internal/process/wrapper.go:272-315 | The whole stream is consumed, whatever its lengths and the buffer, and comes out as a function of its bytes, of which CapturedAreClean and CaptureLosesOnlyLineEnds say what it is |
| LineFraming.CapturedAreClean | internal/process/wrapper.go:272-315 | No line passed on holds a newline or ends in CR, none is empty but a truncated one, and none is over the limit |
| LineFraming.CaptureLosesOnlyLineEnds | internal/process/wrapper.go:272-315 | Where nothing is truncated, what is passed on is the stream without its line ends |
| LineFraming.LineWriter.Write | internal/docker/streamer.go:238-256 | Emits the lines that have ended and keeps, or cuts, what is left |
| LineFraming.LineWriter.Flush | internal/docker/streamer.go:259-264 | Emits what is left |
| LineFraming.PiecesDoNotShowIffSteady | internal/docker/streamer.go:228-264 | Every split of a stream emits the same exactly when every ended line is within the cap and the remainder at most one byte over it |
| LineFraming.UnsteadyShowsPieces | internal/docker/streamer.go:248-254 | Otherwise there is a cut in two that emits something else |
| LineFraming.SteadyOutputSpells | internal/docker/streamer.go:228-264 | However a steady stream is split, what comes out are lines that with their line ends spell it, and then what is left, cut if over the cap |
| SpanTree.SpanRows | cmd/running-man/tuitrace.go:46-83 | The rows are a forest over the roots: each span once, after its parent and before what is not below it, siblings by start, and with every span its children |
| SpanTree.Walk | cmd/running-man/tuitrace.go:66-78 | The recursion ends and lists the tree below one span |
| SpanTree.ByStartHolds | cmd/running-man/tuitrace.go:60-62 | Sorting siblings loses and repeats none |
| SpanTree.ByStartIsStable | cmd/running-man/tuitrace.go:60-62 | Siblings that start together stay in the order given |
| SpanTree.RowsAreTheRooted | cmd/running-man/tuitrace.go:43-58 | A span is left out exactly when it is in or below a circle of parents |
| HexId.EncodeDecode | internal/tracing/receiver.go:285-288 | Base64 encoding of what unpadded base64 text decodes to is the text |
| HexId.DecodeKeepsBits | internal/tracing/receiver.go:285-288 | Each four symbols and the three bytes they are read as are one number of 24 bits |
| HexId.RepairUndoesBase64 | internal/tracing/receiver.go:305-318 | An 8- or 16-byte id sent as hex, two digits of either case for each byte with the high half first, and read as base64 is repaired to the id |
| HexId.FromHexIff | internal/tracing/receiver.go:310-318 | hex.DecodeString reads exactly the text that writes an id out |
| HexId.RepairIsIdempotent | internal/tracing/receiver.go:310-318 | Ids of the right length and empty ones are left, and repairing twice is repairing once |
| HexId.OnlyMisreadIdsChange | internal/tracing/receiver.go:305-318 | Only an id of three quarters the length of its hex text is changed, and to the id that text writes out |
| LogWindow.WindowFits | cmd/running-man/tui.go:1450-1465 | The window is as tall as it can be, within the lines, and follows the offset until it meets either end |
| LogWindow.RenderLogWindow | cmd/running-man/tui.go:1377-1443 | Formats exactly the window's slice of all display lines, each told how many matches lie on earlier lines, with blanks above when there are few |
| LogWindow.SearchInts | cmd/running-man/tui.go:1422-1425 | The binary search in a sorted index is the count of entries before a line |
| LogWindow.BuildMatchLineIndex | cmd/running-man/tui.go:1514-1543 | Each line's number as often as it matches, line by line |
| LogWindow.IndexCountsMatches | cmd/running-man/tui.go:1375-1376 | What that index has below a line is the number of matches on the lines before it |
| LogWindow.EntryLinesIsSplit | cmd/running-man/tui.go:1446-1448 | The two ways of counting display lines agree |
| LogWindow.SplitRejoins | cmd/running-man/tui.go:1446-1448 | Splitting a message loses nothing of it and leaves no newline in a line |
| LogWindow.TargetIsShown | cmd/running-man/tui.go:1548-1557 | The offset set for a match puts its line inside the window at any height, and in the middle when neither end is near |

## Left out

- The order and wording of validation messages, and which of several cycles is found.
- Exec, signals, `ps`, `lsof`, kill timers and the check for reused pids: a run is forked, going or over.
- An interval that does not parse, which validation refuses before Start sees it.
- Setting `haltErr` and closing `halted` are one step of the protocol: nothing reads the first before the second.
- Wait is called at most once, as its comment demands; what it returns and what is reported of exits are not modelled.
- Listing processes, their status and the dependency report, which read the same state.
- Errors other than the end of a stream, and files that exist but cannot be opened or examined.
- Other programs changing the directory of segments, and two Running Men on one directory.
- SpanStore.SpanStorage.Add: a storage without a disk is not modelled; its Add is Keep alone.
- SpanStore.SpanStorage.BeginLoad: LoadFromDisk is called once, as cmd/running-man/main.go:1159 does; a second call would add the spans again.
- SpanStore.SpanStorage.ExpireDisk: a span whose write failed but for the newline is counted as never saved in the run that wrote it, since its arrival was not recorded.
- TornWrite.TornSegmentReadsPrefix: a line of nothing but Unicode space outside ASCII counts as a line, where strings.TrimSpace would skip it.
- Summaries, filters and statistics of traces, and the requests that ask for them.
- LogBuffer.RingBuffer.RemoveFromTraceIndex: entries are compared as values, where the code compares pointers; the one removed is always first, where both agree.
- Statistics of the log buffer and its list of sources.
- Parsing.StreamConservesLines: the lines are those after sanitising, which is a parameter.
- LineFraming.CaptureStream: the note that marks a truncated line is a constructor, `Cut`, and not its text.
- Docker's timestamp prefix and the multiplexing of its streams before `lineWriter`.
- The connecting lines drawn before a span, and the styling and width of a log line.
- Scrolling by keys, pinning to the top and following the newest output.
- HexId.RepairUndoesBase64: padding and line breaks in base64 text, which hex text of an id never has.
- Watching Compose containers, profile filtering, the HTTP, OTLP and Unix socket servers, and configuration defaults.
