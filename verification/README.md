# Boitata, modelled and proved

Boitata is an agent runtime. A *blueprint* is a graph of nodes that an executor advances in
super-steps over a typed state, with checkpoints, retries, cancellation and resume. Around it are an
agent loop that talks to a model and runs tools, an HTTP server that streams the events of its runs,
and small engines for command output, templates, file edits and paths. This project models those
parts and proves what they promise, for every input, every schedule and every sequence of faults.

How the files fit together:

- **Executor.** `Names`, `Channels`, `Graphs`, `SuperSteps`, `Checkpoints` and `Runs` hold the data
  and say, as functions of a *script* of everything the outside world decides, what a run writes,
  emits and returns. `Executor` is the imperative executor, proved to do exactly that. `Meanings` says
  what a blueprint means with no schedule, fault or store in sight, and relates every run to it;
  `Trails` is the grammar of store writes and events; `Chronicles` says, super-step by super-step,
  what each run reports and returns; `Recovery` is crash equivalence.
  `Sandboxes` and `Provisioning` account for the environments that a run's nodes ask for, over all
  its attempts and up to a panic.
- **Compiler.** `Builder` and `Blueprints` compile an edge list into routing; `Closure` proves that
  a compiled blueprint never meets an unknown node.
- **Streams.** `CappedReader` (tail and spill file), `StreamDecoder` (server-sent events from the
  model), `EventStream` (replay and live hand-off to subscribers).
- **State machines.** `Conversation` and `Agents` (the agent loop), `RunRegistry` (slots, registration,
  eviction), `ServerSessions` (the server's jobs as the sessions of a run).
- **Text and paths.** `Templates`, `UniqueEdit`, `Paths`, `Backoff`.

Concurrency is modelled as choice. A node is any function of the state until its token is cancelled,
and then it may return anything; an `Attempt` fixes the order in which nodes complete, when the token
trips, which nodes hit a transient error, what the sandbox backend answers, and whether a node panics.
A crash cuts a run's store writes short at any point, and a panic is such a crash.
The steps of `EventStream.After` and the methods of `RunRegistry.Server` are atomic steps that may
come in any order.

## Main results

- `Recovery.CrashEquivalence`: after any chain of crashed, cancelled and failed sessions, an
  undisturbed resume ends as an undisturbed run from the start. `ServerSessions.ServerRowIsAChain`:
  the server's jobs of one run are such a chain.
- `Meanings.LoopTells` with `Executors.Executor.RunLoop`: for every schedule and every fault the
  imperative executor tells the truth about the blueprint.
- `Chronicles.RunTold`: for every run, the exact events of every super-step, and the exact outcome
  that its last super-step gives it, cancelled, failed or finished.
- `SuperSteps.ScheduleIndependent`, `Trails.LoopWellFormed`, `Meanings.EndsWithinBudget`.
- `Executors.Executor.Execute` with `Provisioning.DiscardedAttemptsCount`,
  `Provisioning.SuperStepCanAbandonIff` and `Provisioning.LinearBlueprintAbandonsNothing`: every
  environment granted in any attempt gets exactly one destroy attempt, and when a panic can leave
  another one behind.
- `Blueprints.IntoGraph` with `Closure.CompiledNeverStrays` and `Closure.ResumedNeverStrays`.
- `CappedReader.ReadCapped` with `CappedReader.ChunkingIrrelevantIff` and
  `CappedReader.TextIsChunkedFreely`.
- `Agents.Agent.Run`: what the model is given at every call, and the whole log.
  `StreamDecoder.Decode`: what a reply stream says, however it is cut.
- `EventStream.DeliveryHasNoGaps` with
  `EventStream.CompleteUnlessFinishedInTheGap`, `RunRegistry.OneDriverPerId`.
- `Templates.NeutralIffUnquoted`, `UniqueEdit.SuccessMeansUnique`, `Paths.AcceptedIffItLeadsInside`.

## Where the code differs from its documentation or from the obvious claim

- A graph whose frontier empties exactly after the last allowed super-step reports the step limit,
  not completion (`Meanings.EndsWithinBudget`; `Meanings.LimitBeforeCompletion` is such a graph):
  emptiness is tested only at the top of the next iteration.
- A cancelled super-step runs again on resume: the stored snapshot is the one before the step.
- The edit tool asks for a text that appears exactly once, but counts non-overlapping occurrences.
  `UniqueEdit.SuccessMeansUnique` gives the exact condition under which success does mean a single
  occurrence.
- An event stream can end without the last events of a run when the run finishes between the
  subscriber's snapshot and its test (`EventStream.CompleteUnlessFinishedInTheGap` says exactly when,
  `EventStream.TheGapIsReal` is such a run).
- Lazy trimming of command output agrees with trimming once exactly when no trim that some reads can
  cause falls on a harmful point (`CappedReader.ChunkingIrrelevantIff`), which takes a run of
  continuation bytes that no UTF-8 text has (`CappedReader.TextIsChunkedFreely`); `CappedReader.HarmfulStream` is such a stream.
- The documentation of `render_shell` says that interpolated values cannot inject commands. Relative
  to the shell lexer here, that holds exactly for templates that reach every known placeholder in
  unquoted text (`Templates.NeutralIffUnquoted`). It fails in a comment, where a newline in the value
  ends the comment (`Templates.CommentLetsLinesOut`), and inside quotes and backquotes. After a
  construct that the lexer does not follow (`Beyond`) it promises nothing, though a shell may be
  kinder: `"${HOME}/x" {task}` and `$()#{task}` count as changeable and are not.
- The documentation of `run_with_cancel` says that every container of a run is destroyed when it
  ends, even by a panic. A panic drops its siblings' futures, so a container that the backend is
  making for a sibling's request is never recorded. A super-step can leave one behind exactly when
  its frontier has more than one node (`Provisioning.SuperStepCanAbandonIff`); a blueprint without
  fan-out leaves none, panics and all (`Provisioning.LinearBlueprintAbandonsNothing`).

## Model

| member | source | states |
|---|---|---|
| Names.Canonical | crates/boitata-orchestrator/src/lib.rs:696-697 | sorting and deduplicating leaves each discovered name once, in strictly increasing order |
| Names.LessMeans | crates/boitata-orchestrator/src/lib.rs:696 | names are compared at their first difference, and a proper prefix comes before what it begins |
| Names.CanonicalIgnoresDiscovery | crates/boitata-orchestrator/src/lib.rs:693-697 | two frontiers become equal exactly when the same names were discovered, in whatever order and however often |
| Names.CanonicalIdempotent | crates/boitata-orchestrator/src/lib.rs:668-697 | a frontier restored from a checkpoint is not changed by sorting it again |
| Channels.MergeChannels | crates/boitata-orchestrator/src/lib.rs:993-1040 | after a merge the `task` field is unchanged, the transcript is extended in order, each variable has its last writer's value, and one failed branch makes the status failed |
| Channels.MergeOrderIrrelevant | crates/boitata-orchestrator/src/state.rs:67-104 | updates of distinct nodes built by `from_node` give the same variables and status in any merge order |
| Channels.FirstUpdate | crates/boitata-orchestrator/src/state.rs:49-84 | a new run holds nothing but its task: its first update is all that its other channels hold |
| Channels.FirstReport | crates/boitata-orchestrator/src/state.rs:89-104 | a node's report adds one entry, its status and one variable with the same text |
| Graphs.LiveMeans | crates/boitata-orchestrator/src/lib.rs:847 | the successors that activate a node are all but END, in their order |
| SuperSteps.JoinFaithful | crates/boitata-orchestrator/src/lib.rs:960-988 | uncancelled, every collected update is its node's own answer to the snapshot, and an error names a node that really failed |
| SuperSteps.FirstErrorWins | crates/boitata-orchestrator/src/lib.rs:960-988 | in completion order all nodes answer up to the first error, and that one is the error reported; without one all have answered |
| SuperSteps.SettledMeans | crates/boitata-orchestrator/src/lib.rs:991-1041 | a settled super-step merges the nodes' own answers in frontier order and accounts for every node under its name, failed exactly when its answer says so, with its own text |
| SuperSteps.OutputLines | crates/boitata-orchestrator/src/lib.rs:1017-1022 | the text of a node is that of its entries, one line each |
| SuperSteps.ScheduleIndependent | crates/boitata-orchestrator/src/lib.rs:924-1041 | for every completion order an uncancelled attempt either yields the one settled merge or blames a real culprit, and without transient errors it fails only if some node is missing or fails on this state |
| SuperSteps.SchedulesAgree | crates/boitata-orchestrator/src/lib.rs:692-728 | two successful attempts at a super-step agree on state and on what ran, for any schedules and any discovery order |
| Checkpoints.Store.Upsert | crates/boitata-store/src/checkpoints.rs:94-127 | an accepted save replaces one run's snapshot and marks it running; a refused one changes nothing; other runs keep theirs |
| Checkpoints.Store.UpdateStatus | crates/boitata-store/src/checkpoints.rs:129-147 | a status change keeps the snapshot, and does nothing for a run without one |
| Checkpoints.Store.Grown | crates/boitata-orchestrator/src/checkpoint.rs:102-143 | a run's row is the result of its own writes in order, and no other row is affected |
| Executors.Executor.JoinAll | crates/boitata-orchestrator/src/lib.rs:954-988 | waits for every node in the attempt's order and reports the first error even when later nodes answer, unless a node panics; the backend has then seen exactly what the nodes asked for up to that point |
| Executors.Executor.MergeAll | crates/boitata-orchestrator/src/lib.rs:993-1040 | the loop that applies updates one by one and tracks failures computes the merge whose channels `MergeChannels` describes |
| Executors.Executor.RunFrontier | crates/boitata-orchestrator/src/lib.rs:930-1041 | a super-step merges every node's update or nothing at all, and asks for nothing when a name is unknown |
| Executors.Executor.RunSuperStep | crates/boitata-orchestrator/src/lib.rs:716-794 | the retry loop gives the verdict and the retry events of the first decisive attempt, each attempt starting from the same state; a panic leaves some of those events; the requests are those of every attempt made |
| Executors.Executor.RouteRan | crates/boitata-orchestrator/src/lib.rs:812-850 | every node that ran is routed and reported in order until one routes nowhere; the live successors are collected in order |
| Executors.Executor.Settled | crates/boitata-orchestrator/src/lib.rs:732-848 | closes a cancelled or failed super-step, or routes it and goes on, exactly as the run function says; `Chronicles.LoopTold` says what that is: a cancelled run returns what its last attempt merged, or the state before it if that one failed |
| Executors.Executor.SuperStep | crates/boitata-orchestrator/src/lib.rs:692-849 | one turn of the loop leaves exactly the writes, events and requests by which the rest of the run differs from the whole; a panic ends it with only the snapshot written |
| Executors.Executor.RunLoop | crates/boitata-orchestrator/src/lib.rs:692-861 | the super-step loop refines the run function: same outcome, same events, same writes; a panic cuts it before its last write and leaves a prefix of both |
| Executors.Executor.RunGraph | crates/boitata-orchestrator/src/lib.rs:650-861 | a fresh or resumed run returns, emits and writes exactly what the run function says, or a prefix of it exactly when a node panics |
| Executors.Executor.Execute | crates/boitata-orchestrator/src/lib.rs:622-646 | however the run ends, also by a panic, every environment that any of its attempts was granted has had exactly one destroy attempt by the time it has ended, and of its requests only those that a panic abandoned left another one; the run's row takes its writes in order, so a fresh run leaves what some first session of `Recovery` leaves, and every other row is untouched |
| Executors.Executor.ResumeRun | crates/boitata-orchestrator/src/lib.rs:576-620 | a missing, unreadable, finished or foreign checkpoint is refused without any write or event; any other is continued from its snapshot, to its end or up to a panic; the row is then what some session of `Recovery` makes of it, so crash equivalence speaks of this executor |
| Executors.Executor.Unwind | crates/boitata-orchestrator/src/lib.rs:637-645 | a panic drops every pending node where it stands: answered requests are tracked, a request in flight is not |
| Provisioning.JoinAsksForAll | crates/boitata-orchestrator/src/lib.rs:960-988 | an attempt without a panic asks for everything its nodes ask for, whether it succeeds, fails or is cancelled and in any completion order, and abandons nothing |
| Provisioning.DiscardedAttemptsCount | crates/boitata-orchestrator/src/lib.rs:716-794 | a super-step is granted what all its failed attempts are granted and what its last one is, up to a panic; only that one can abandon anything |
| Provisioning.OnlyThePanicAbandons | crates/boitata-orchestrator/src/lib.rs:631-645 | over a whole run, through all super-steps and retries, nothing is abandoned but by the one attempt that panics |
| Provisioning.PanicAbandonsIff | crates/boitata-orchestrator/src/lib.rs:960-978 | a panic leaves nothing behind exactly when no pending sibling has a request in flight |
| Provisioning.AttemptAbandonsIff | crates/boitata-orchestrator/src/lib.rs:547-558 | the promise that everything is destroyed holds for a panicking attempt exactly when no sibling still pending at the panic was in the middle of a request |
| Provisioning.SuperStepCanAbandonIff | crates/boitata-orchestrator/src/lib.rs:946-978 | some attempt at a super-step leaves an environment behind if and only if its frontier has more than one node |
| Provisioning.OneNodeAbandonsNothing | crates/boitata-orchestrator/src/lib.rs:946-978 | with one node there is no sibling to abandon, whatever panics |
| Provisioning.NarrowRunAbandonsNothing | crates/boitata-orchestrator/src/lib.rs:631-645 | a run whose frontiers never exceed one node leaves nothing behind, panic or not |
| Provisioning.LinearIsNarrow | crates/boitata-orchestrator/src/lib.rs:907-922 | a graph in which no node has two live successors keeps every frontier of every run to one node |
| Provisioning.LinearBlueprintAbandonsNothing | crates/boitata-orchestrator/src/lib.rs:547-558 | the promise that everything is destroyed holds for every run of a blueprint without fan-out |
| Provisioning.ASiblingCanBeAbandoned | crates/boitata-orchestrator/src/sandbox/docker.rs:105-127 | an attempt in which a node panics while its sibling's container is being made, and the container stays behind |
| Meanings.MeaningOnCourse | crates/boitata-orchestrator/src/lib.rs:668-690 | the fate of a blueprint is the fate of every position on its course, so a snapshot is as good as the beginning |
| Meanings.EndsWithinBudget | crates/boitata-orchestrator/src/lib.rs:692-707 | a blueprint completes exactly when its frontier empties after fewer super-steps than the budget, and hits the limit exactly when the whole budget can be spent |
| Meanings.LimitBeforeCompletion | crates/boitata-orchestrator/src/lib.rs:849-861 | a one-node graph whose frontier is empty after the whole budget of one runs out, and completes with a budget of two |
| Meanings.AttemptsFaithful | crates/boitata-orchestrator/src/lib.rs:716-794 | however many attempts it takes, an uncancelled success is the settled merge, and exhaustion has a culprit in the last attempt |
| Meanings.FailedAttemptsLeaveNoTrace | crates/boitata-orchestrator/src/lib.rs:716-772 | any number of failed attempts followed by a success ends exactly as an immediate success |
| Meanings.LoopTells | crates/boitata-orchestrator/src/lib.rs:692-861 | for every schedule, cancellation, transient error and store failure, the last event and the outcome agree with the fate of the blueprint |
| Meanings.SteadyNeverCancelled | crates/boitata-orchestrator/src/lib.rs:728-808 | without a cancellation no run ends as cancelled |
| Meanings.SteadyLoopFits | crates/boitata-orchestrator/src/lib.rs:692-861 | an undisturbed run has exactly the outcome the blueprint means, for every schedule |
| Trails.RoutingMeans | crates/boitata-orchestrator/src/lib.rs:812-922 | routing succeeds exactly when every node that ran leads only to nodes or END; then each is reported once, in order, with all its successors, and the next frontier holds exactly the live ones |
| Trails.RetriesNumbered | crates/boitata-orchestrator/src/lib.rs:742-772 | retries are numbered from one and never exceed the limit, and an exhausted super-step used all of them |
| Trails.LoopWellFormed | crates/boitata-orchestrator/src/lib.rs:692-861 | writes are one save per super-step in step order and then one status write; events are node and retry events and then one completion whose reason matches status and outcome |
| Trails.RunWellFormed | crates/boitata-orchestrator/src/lib.rs:650-861 | the whole trail opens with one start or resume event; a zero budget is refused and leaves no trail; a run resumed beyond a lowered step limit only reports the limit |
| Trails.ResumableAfter | crates/boitata-store/src/checkpoints.rs:49-52 | with a working store a run that ended is resumable exactly when it was cancelled, and one that died between two writes is resumable |
| Chronicles.AttemptsTold | crates/boitata-orchestrator/src/lib.rs:716-794 | attempts go on while they fail without a cancellation and retries are left, each retry reported with its number and error; the verdict is that of the last one, cancelled exactly when the token tripped by its end or in the pause after it |
| Chronicles.RoutesTold | crates/boitata-orchestrator/src/lib.rs:812-848 | every node that ran is reported with its successors up to the first that leads to an unknown target, which is reported without; routing fails exactly there, naming such a target |
| Chronicles.LoopTold | crates/boitata-orchestrator/src/lib.rs:692-861 | the events of every run are, snapshot by snapshot, the retries and nodes of that super-step and then the completion; none but the last super-step is cancelled or fails; a cancelled run returns what its last attempt merged, or the state before it if that attempt failed, and a failed one the last attempt's own error |
| Chronicles.RunTold | crates/boitata-orchestrator/src/lib.rs:650-861 | the same for whole runs, after an opening event that names the entry, or the step that a resumed run starts from |
| Recovery.SnapshotsOnCourse | crates/boitata-orchestrator/src/lib.rs:709-731 | every snapshot a run saves lies on the blueprint's own course, so no cancelled token or failed attempt ever reaches a checkpoint |
| Recovery.Provenance | crates/boitata-store/src/checkpoints.rs:94-147 | a row's snapshot and status each come from an earlier row or from one of the writes |
| Recovery.SessionKeepsSound | crates/boitata-orchestrator/src/lib.rs:692-861 | one process lifetime, ended anywhere, leaves a row whose snapshot is on course and whose terminal status tells the fate |
| Recovery.ChainSound | crates/boitata-orchestrator/src/lib.rs:576-603 | the same holds after any chain of crashed, cancelled, failed and finished sessions |
| Recovery.ResumedTells | crates/boitata-orchestrator/src/lib.rs:668-690 | a resumed run tells the fate of the blueprint from its beginning, under the same step budget |
| Recovery.CrashEquivalence | crates/boitata-orchestrator/src/lib.rs:576-603 | after any chain of interrupted sessions an undisturbed resume ends as an undisturbed run from the start: the same state or the same error, but that each may name another culprit of the one super-step that breaks |
| Recovery.PanicIsACrash | crates/boitata-orchestrator/src/lib.rs:637-645 | what a panicking node cuts short is, for the store, a crash before the last write, so all of this covers panics |
| Builders.GraphBuilder.Edge | crates/boitata-orchestrator/src/lib.rs:209-219 | repeated edges from one source fan out in order; one beside a router is remembered as a conflict and changes no routing |
| Builders.GraphBuilder.Conditionally | crates/boitata-orchestrator/src/lib.rs:225-241 | installs a router and remembers a conflict when the source already had any routing |
| Builders.GraphBuilder.Build | crates/boitata-orchestrator/src/lib.rs:246-287 | succeeds exactly when nothing is duplicated or in conflict, the entry exists and every static edge joins known nodes; each error names a defect that is there |
| Blueprints.GroupEdges | crates/boitata-orchestrator/src/yaml.rs:435-443 | each source gets exactly its own edges, and each source is listed once, as `EdgesFromMeans` orders them |
| Blueprints.EdgesFromMeans | crates/boitata-orchestrator/src/yaml.rs:435-443 | a source's edges stand in the order in which they are written |
| Blueprints.EndInAnyCase | crates/boitata-orchestrator/src/yaml.rs:517-525 | the eight spellings of END become the sentinel, and every other target stays verbatim |
| Blueprints.TargetsTakenMeans | crates/boitata-orchestrator/src/yaml.rs:484-515 | every edge adds its normalised target in its own place: an unconditional one always, a `failure` one after a failed node, a `success` one after any other |
| Blueprints.SplitByStatus | crates/boitata-orchestrator/src/yaml.rs:484-504 | the two target lists are, in order, the normalised targets taken on success and on failure; it succeeds exactly when all targets and conditions are known |
| Blueprints.AddConditional | crates/boitata-orchestrator/src/yaml.rs:478-517 | the installed router sends every state where the conditional edges say |
| Blueprints.AddStatic | crates/boitata-orchestrator/src/yaml.rs:466-473 | the installed fan-out is the normalised targets in order, for every status |
| Blueprints.InstallGroup | crates/boitata-orchestrator/src/yaml.rs:445-474 | an installed source is routed as its edges say and no other source changes; a reported error is a defect of that group |
| Blueprints.AddEdges | crates/boitata-orchestrator/src/yaml.rs:429-476 | on success exactly the sources with edges are routed, each as its edges say |
| Blueprints.IntoGraph | crates/boitata-orchestrator/src/yaml.rs:378-390 | compiles exactly the accepted blueprints, and routes every node after every state to the source-order normalised targets that apply, or to END without edges |
| Blueprints.BuildableIffAccepted | crates/boitata-orchestrator/src/lib.rs:246-287 | once every group is installed, the builder's own checks are precisely what acceptance still lacks |
| Blueprints.RoutedCompiles | crates/boitata-orchestrator/src/lib.rs:910-915 | routing every group as its edges say makes the graph's routing the edge list's meaning, also for nodes without edges |
| Closure.CompiledClosed | crates/boitata-orchestrator/src/yaml.rs:496-500 | in a compiled blueprint every edge leads to a node or to END, for every state |
| Closure.MeaningStaysInside | crates/boitata-orchestrator/src/lib.rs:907-922 | no course of a closed graph ever meets a missing node or routes nowhere |
| Closure.CompiledNeverStrays | crates/boitata-orchestrator/src/lib.rs:916-920 | no fresh run of a compiled blueprint, whatever happens to it, can end in an unknown-node error |
| Closure.ResumedNeverStrays | crates/boitata-orchestrator/src/lib.rs:916-920 | nor can a run resumed from any snapshot that a chain of sessions leaves |
| Backoff.BackoffDoubles | crates/boitata-orchestrator/src/lib.rs:324-333 | bounding the shift changes nothing: the pause doubles from 250 ms and is capped at 5000 ms, for every attempt |
| CappedReader.BoundaryMeans | crates/boitata-core/src/tools/builtins/exec.rs:361-364 | the cut is the first byte at or after the wanted one that does not continue a character |
| CappedReader.TailMeans | crates/boitata-core/src/tools/builtins/exec.rs:353-367 | the tail starts at the first byte of the last cap bytes that does not continue a character; a buffer within the cap is kept whole |
| CappedReader.TrimFrontToCap | crates/boitata-core/src/tools/builtins/exec.rs:353-367 | keeps the tail of at most the cap from a character boundary, and reports a drop exactly when the buffer was longer |
| CappedReader.HeldIsSuffix | crates/boitata-core/src/tools/builtins/exec.rs:214-244 | after any chunks the buffer is a suffix of the stream that starts on a character boundary, and is at most twice the cap |
| CappedReader.ChunkingIrrelevant | crates/boitata-core/src/tools/builtins/exec.rs:208-261 | without any harmful point every chunking, of any chunk sizes, keeps exactly what trimming the whole stream once keeps |
| CappedReader.HarmfulIsNotText | crates/boitata-core/src/tools/builtins/exec.rs:353-364 | a harmful point needs four continuation bytes in a row |
| CappedReader.OnlyLaterBytesContinue | crates/boitata-core/src/tools/builtins/exec.rs:361-364 | the bytes that the trim passes over are exactly those of a UTF-8 character after its first |
| CappedReader.TextNeverHasFour | crates/boitata-core/src/tools/builtins/exec.rs:353-364 | UTF-8 text never has four of them in a row, and never starts with one |
| CappedReader.TextIsChunkedFreely | crates/boitata-core/src/tools/builtins/exec.rs:169-261 | however the bytes of a text are cut into reads, the reader keeps what trimming the whole text once keeps |
| CappedReader.ReachedBySomeReads | crates/boitata-core/src/tools/builtins/exec.rs:187-244 | every trim that the reachability of trims allows is caused by some admissible reads |
| CappedReader.ChunkingIrrelevantIff | crates/boitata-core/src/tools/builtins/exec.rs:187-261 | every admissible sequence of reads of a stream keeps what trimming it once keeps, if and only if no reachable trim is at a harmful point |
| CappedReader.HarmfulStream | crates/boitata-core/src/tools/builtins/exec.rs:208-261 | for every positive cap there is a stream, and reads of it, that keep bytes which trimming once drops |
| CappedReader.StartSpill | crates/boitata-core/src/tools/builtins/exec.rs:225-242 | an opened spill file holds everything read so far; any failure gives up and leaves no partial file that could be removed |
| CappedReader.ContinueSpill | crates/boitata-core/src/tools/builtins/exec.rs:197-213 | an open spill file stays complete chunk by chunk, or is discarded for good |
| CappedReader.ReadCapped | crates/boitata-core/src/tools/builtins/exec.rs:169-283 | truncated iff longer than the cap; a reported spill file holds exactly the whole stream under any failures, and exists iff longer than the cap when nothing fails; the buffer stays within twice the cap plus one read, and all trims together move at most the length plus the cap |
| Conversation.Context.AddToolResult | crates/boitata-core/src/context/mod.rs:86-123 | a result joins the trailing tool message, or starts one after any other message |
| Conversation.Context.PickCutoff | crates/boitata-core/src/context/compact.rs:54-74 | a cut is the first assistant message at or after the wanted one and leaves at least two messages to summarise; none is given only when there is no such cut |
| Conversation.CutKeepsSix | crates/boitata-core/src/context/compact.rs:54-74 | in a well-paired history the cut always keeps exactly the last six messages |
| Conversation.CutExists | crates/boitata-core/src/context/compact.rs:54-74 | and there is such a cut exactly when the history has nine messages or more |
| Conversation.SummaryKeepsPairing | crates/boitata-core/src/context/compact.rs:145-155 | compaction keeps one user message followed by answered tool turns, and strictly shortens the history |
| Conversation.TurnKeepsPairing | crates/boitata-core/src/context/mod.rs:76-123 | an answered assistant turn keeps the history well paired |
| Agents.Agent.MaybeCompact | crates/boitata-agent/src/lib.rs:463-529 | compaction happens exactly when it is enabled, the window is near, a summary came back and nine messages are there: then the last six stay behind the summary, the history is shorter and one event says so; otherwise nothing changes |
| Agents.Agent.RunTool | crates/boitata-agent/src/lib.rs:333-399 | a denied call is logged, summarised as an error with its reason and never executed; any other is executed and logged once, under its own name and arguments, with what it returned |
| Agents.Agent.RunBatch | crates/boitata-agent/src/lib.rs:330-408 | calls run and are logged in order up to the first after which the token is found tripped; summaries say how each ended, and an uncancelled batch adds one tool message that gives every call its own result under its own id |
| Agents.Agent.TakeTurn | crates/boitata-agent/src/lib.rs:326-422 | an uncancelled turn leaves a history that can be sent again |
| Agents.Agent.Iterate | crates/boitata-agent/src/lib.rs:232-422 | one iteration gives the model the history, compacted if that is due, and logs the compaction, the reply under its own names and token counts, and every call it runs; it goes on exactly after an uncancelled batch, from a history with the model's turn and all results, and otherwise ends the run with true accounts |
| Agents.Agent.Run | crates/boitata-agent/src/lib.rs:195-433 | the model is first given the task, and then at every call what it was given before, its own turn and the results of its calls, compacted if that is due and well paired; the log is one start event, every exchange in order and one completion with the true totals; the run ends at the first turn it does not go on from or at the limit; the summaries answer the requested calls in order, all of them unless the last batch was cancelled before its last call; only allowed calls were executed; it succeeds exactly when the last reply asked for no tools, with its text, and fails exactly when the model does |
| StreamDecoder.LinesPartition | crates/boitata-core/src/provider/anthropic.rs:206-210 | the decoded lines and the unread rest make up the bytes, each line ends at its only newline and the rest has none |
| StreamDecoder.LinesUnique | crates/boitata-core/src/provider/anthropic.rs:206-210 | there is no other way to split the bytes into such lines and a rest |
| StreamDecoder.FirstNewlineStays | crates/boitata-core/src/provider/anthropic.rs:204-206 | bytes that arrive later do not move the first newline of the buffer |
| StreamDecoder.Drain | crates/boitata-core/src/provider/anthropic.rs:206-307 | handling the complete lines of the buffer now or later sends the same items |
| StreamDecoder.Decode | crates/boitata-core/src/provider/anthropic.rs:185-309 | however the connection cuts the bytes, the receiver hears in order, as far as it listens: every text delta and stop reason, inside and outside tool blocks, one call per stopped tool block with all deltas since its start, and the error or transport error that ends the stream; nothing after a stop or an error |
| StreamDecoder.FrameIsThePayload | crates/boitata-core/src/provider/anthropic.rs:211-223 | a line that starts with `data:` once trimmed hands the event parser exactly its trimmed rest, unless that is empty; every other line, and one that does not parse, is ignored |
| StreamDecoder.ReceivedMeans | crates/boitata-core/src/provider/anthropic.rs:194-204 | the bytes received are those before the first transport error, and that one is the error reported |
| StreamDecoder.StoppedStays | crates/boitata-core/src/provider/anthropic.rs:295-303 | once the decoder has returned, also because the receiver hung up, no line has any effect |
| StreamDecoder.NothingAfterTheEnd | crates/boitata-core/src/provider/anthropic.rs:295-303 | a stop sends nothing more whatever lines follow, and an error is itself the last item if the receiver still listens |
| StreamDecoder.ToolBlockIsOneCall | crates/boitata-core/src/provider/anthropic.rs:225-281 | a tool block sends exactly one call, whose arguments parse the concatenation of all its deltas |
| EventStream.PushedKeepsSuffix | crates/boitata-server/src/events.rs:65-71 | the history is at every moment the numbered log without its dropped front, with the exact number dropped |
| EventStream.ChannelAuditSink.Record | crates/boitata-server/src/events.rs:59-74 | numbers, keeps and sends each event once; the history stays a contiguous suffix of at most 12000 events that ends with the newest, and is never cut below 10000 |
| EventStream.AllReachable | crates/boitata-server/src/api.rs:583-635 | the invariant of recorder, queue, snapshot and delivery holds in every interleaving |
| EventStream.DeliveryHasNoGaps | crates/boitata-server/src/api.rs:589-632 | from its snapshot's start on, a subscriber gets every event exactly once and in order |
| EventStream.CompleteUnlessFinishedInTheGap | crates/boitata-server/src/api.rs:590-605 | a closed stream reached the run's last event unless the run finished between snapshot and test with events recorded in between, and then it did not |
| EventStream.TheGapIsReal | crates/boitata-server/src/api.rs:590-605 | a run in which a subscriber closes without the last event |
| EventStream.StreamEnds | crates/boitata-server/src/api.rs:607-632 | once a run has finished, a subscriber that receives what is queued closes with every event up to the last |
| EventStream.LateSubscriberEnds | crates/boitata-server/src/api.rs:587-605 | a subscriber to a finished run gets the whole kept history and closes at once |
| EventStream.EarlySubscriberStays | crates/boitata-server/src/api.rs:587-607 | one to a running run gets the kept history and stays for the rest |
| RunRegistry.TakeOldest | crates/boitata-server/src/state.rs:112-121 | picks as many as asked, and none left over started earlier |
| RunRegistry.InsertEvicting | crates/boitata-server/src/state.rs:109-122 | evicts only finished runs, the oldest first, no more than needed, and never the new one; the registry is over the bound only if all its runs are running |
| RunRegistry.EvictsTheExcess | crates/boitata-server/src/state.rs:109-122 | within the bound nothing goes; beyond it exactly the excess goes, as far as there are finished runs |
| RunRegistry.Server.Acquire | crates/boitata-server/src/api.rs:155-159 | a run gets a slot exactly when fewer than sixteen are held |
| RunRegistry.Server.RegisterRun | crates/boitata-server/src/state.rs:82-85 | the run is live and in the registry, whatever its id; beyond the bound the oldest finished runs go and nothing else does; every other live run keeps its entry and the registry stays within 1000, unless a running entry held the id |
| RunRegistry.ClashBreaks | crates/boitata-server/src/state.rs:82-85 | registering an id that a running entry holds leaves two live jobs with it, and no registry is sound with them |
| RunRegistry.Server.TryRegisterRun | crates/boitata-server/src/state.rs:93-102 | registers exactly when no live job drives the id, evicting like any registration, and otherwise changes nothing |
| RunRegistry.Server.RecordOutcome | crates/boitata-server/src/api.rs:200-272 | a job that ends or panics leaves the running state and stops being live |
| RunRegistry.Server.Release | crates/boitata-server/src/api.rs:505-515 | a refused resume or a finished job frees exactly its own slot |
| RunRegistry.OneDriverPerId | crates/boitata-server/src/state.rs:87-102 | no two live jobs share an id, and there are exactly as many live jobs as running entries |
| RunRegistry.StaysBounded | crates/boitata-server/src/state.rs:78-85 | sixteen slots guarantee that eviction always finds a finished run, so the registry never exceeds 1000 |
| RunRegistry.RegisteredIsLive | crates/boitata-server/src/state.rs:93-122 | registration and eviction keep live jobs and running entries in one-to-one correspondence |
| ServerSessions.RegistryAllows | crates/boitata-server/src/state.rs:87-102 | what the registry promises is what lets a job begin, write and finish |
| ServerSessions.LatestDrives | crates/boitata-server/src/state.rs:87-102 | a job that drives a run is the latest that began for it |
| ServerSessions.SessionsFollowOneAnother | crates/boitata-server/src/api.rs:508-523 | the writes of a run are those of its first job, then those of its second, and so on: no two resumes of one run interleave |
| ServerSessions.ServerRowIsAChain | crates/boitata-server/src/api.rs:457-525 | the row that the server's jobs leave is the row after a chain of sessions, as crash equivalence takes it |
| Templates.ParseIsTheOnlyReading | crates/boitata-orchestrator/src/state.rs:133-152 | a template has exactly one left-to-right reading into text and placeholders |
| Templates.RenderWith | crates/boitata-orchestrator/src/state.rs:124-155 | the output is, piece by piece over that reading, the text, the escaped value or the untouched unknown placeholder; values are never read again |
| Templates.PlaceholderGivesItsValue | crates/boitata-orchestrator/src/state.rs:124-155 | `{task}` gives the task and the name of a variable that variable's value, both escaped; any other placeholder stays as it is |
| Templates.ShellSingleQuote | crates/boitata-orchestrator/src/state.rs:160-173 | the character loop computes the quoted form that `QuotingIsNeutral` describes |
| Templates.QuotingIsNeutral | crates/boitata-orchestrator/src/state.rs:157-173 | a quoted value that starts in unquoted text ends in a word of unquoted text and contributes exactly the value, with nothing left to interpret |
| Templates.ValuesNeverChangeTheScript | crates/boitata-orchestrator/src/state.rs:117-122 | when this lexer reaches every known placeholder in unquoted text, and the script defines no aliases, any two sets of values give scripts with the same pieces of text and the same characters for the shell to interpret |
| Templates.NeutralIffUnquoted | crates/boitata-orchestrator/src/state.rs:117-122 | relative to this lexer, and for scripts that define no aliases: values can never change the script exactly when the template reaches every known placeholder in unquoted text; not in a comment, quotes or backquotes, not after a dollar sign or `>&`, and not after a construct that the lexer does not follow |
| Templates.ProbesAreHeard | crates/boitata-orchestrator/src/state.rs:117-122 | where this lexer does not reach one placeholder unquoted, values can show it any number of characters that it counts as open to interpretation |
| Templates.CommentIsNotUnquoted | crates/boitata-orchestrator/src/state.rs:117-122 | a placeholder in a comment is not reached unquoted, and a one-line value is dropped with the comment |
| Templates.CommentLetsLinesOut | crates/boitata-orchestrator/src/state.rs:117-122 | a newline in the value of such a placeholder ends the comment, and the shell is shown the next line |
| Templates.HashAfterParenthesis | crates/boitata-orchestrator/src/state.rs:117-122 | after `)#` no placeholder is taken to be unquoted, since the parenthesis of a substitution leaves the shell in a word and that of a subshell does not |
| Templates.HashAfterSubstitution | crates/boitata-orchestrator/src/state.rs:117-122 | so neither for `$()#{task}` nor for one behind a quote that follows `$()#` |
| UniqueEdit.FindIsFirst | crates/boitata-core/src/tools/builtins/fs.rs:243 | no occurrence lies before the one found |
| UniqueEdit.LineOfByte | crates/boitata-core/src/tools/builtins/fs.rs:229-231 | the counting loop gives one more than the newlines before the byte |
| UniqueEdit.MatchLineNumbers | crates/boitata-core/src/tools/builtins/fs.rs:234-249 | the scan ends, and its lines are those of the greedy non-overlapping occurrences; none for an empty needle |
| UniqueEdit.ScanIsApart | crates/boitata-core/src/tools/builtins/fs.rs:242-247 | the occurrences taken never overlap |
| UniqueEdit.ScanCovers | crates/boitata-core/src/tools/builtins/fs.rs:242-247 | every occurrence starts inside one that was taken |
| UniqueEdit.EditSucceedsOnOneCluster | crates/boitata-core/src/tools/builtins/fs.rs:254-270 | an empty text and a change to itself are refused; otherwise an edit succeeds exactly when some occurrence overlaps all the others from the left, and is not found exactly when there is none |
| UniqueEdit.EditReplacesTheLeftmost | crates/boitata-core/src/tools/builtins/fs.rs:254-270 | the file splits at the leftmost occurrence, the replacement goes between the parts, and the reported line is one more than the newlines before it |
| UniqueEdit.AmbiguityIsReal | crates/boitata-core/src/tools/builtins/fs.rs:265-269 | an ambiguous edit reports the lines of at least two occurrences that do not overlap |
| UniqueEdit.SuccessMeansUnique | crates/boitata-core/src/tools/builtins/fs.rs:280-286 | success on every file means a single occurrence exactly when the text does not overlap itself |
| Sandboxes.Sandboxes.Provision | crates/boitata-orchestrator/src/sandbox/mod.rs:100-109 | exactly the successful requests are tracked |
| Sandboxes.Sandboxes.CleanupAll | crates/boitata-orchestrator/src/sandbox/mod.rs:127-139 | every tracked environment gets one destroy attempt, and a second cleanup attempts none |
| Paths.LexicalNormalize | crates/boitata-core/src/tools/workspace.rs:129-151 | the push-and-pop loop computes the normal form that the lemmas below describe |
| Paths.NormalizedIsTidy | crates/boitata-core/src/tools/workspace.rs:122-151 | `..` survives only as a leading block of a relative path, and `.` never |
| Paths.NormalizeTwice | crates/boitata-core/src/tools/workspace.rs:129-151 | normalising again changes nothing |
| Paths.NormalizedLeadsToTheSamePlace | crates/boitata-core/src/tools/workspace.rs:122-151 | without links the normal form leads where the path led, from every directory |
| Paths.ConfineWithin | crates/boitata-core/src/tools/workspace.rs:81-120 | without a root every path is passed through; a relative root is refused; whatever links the tree holds, an accepted path is the root followed by plain names |
| Paths.AcceptedIffItLeadsInside | crates/boitata-core/src/tools/workspace.rs:81-177 | for every tree, a path is accepted exactly when the place it leads to lies inside the root: the canonical form of its longest existing part and the names after it; and that place is what is returned |
| Paths.LeadsToOnePlace | crates/boitata-core/src/tools/workspace.rs:154-177 | there is only one such place |
| Paths.LinkOutIsRefused | crates/boitata-core/src/tools/workspace.rs:81-120 | a path that exists and is really outside the root is always refused |
| Paths.AcceptedIffTheWalkEndsInside | crates/boitata-core/src/tools/workspace.rs:81-177 | without links a path is accepted exactly when walking it from the root ends inside the root, and the result is where the walk ends |

## Left out

- Channels.State.Apply: the state is a value that is replaced, where the source extends its fields in place; no aliasing is lost, since a super-step works on its own clone.
- Recovery.CrashEquivalence: a terminal `Failed` status tells the fate only if no session saw a transient error.
- Blueprints.GroupEdges: node definitions are already parsed and mapped to behaviours; YAML, unknown fields and the node kinds are left out.
- Agents.Agent.RunTool: which calls the policy denies and what tools return are part of the script; structured tool content is its text.
- Agents.Agent.MaybeCompact: whether the context is near the window is an arbitrary choice each iteration; token counting, the threshold and the rendering of old turns are left out, and so are the token numbers in the compaction event.
- StreamDecoder.Decode: lossy UTF-8 decoding, blank characters and JSON parsing are arbitrary functions of a line; a receiver that hangs up is a number of accepted items.
- EventStream.AllReachable: calls of `record` are serialised, nothing is recorded after the run has finished, and the broadcast channel never lags; one subscriber stands for each, since subscribers do not affect one another.
- RunRegistry.Server.RegisterRun: a handle is registered at most once.
- RunRegistry.TakeOldest: the source sorts once and takes a prefix; the order among runs that started at the same instant is arbitrary in both.
- Templates.NeutralIffUnquoted: the lexer follows POSIX.1-2017 in the POSIX locale, for scripts that define no aliases. Here-documents, arithmetic, `${` expansions with quotes, expansions and backquotes inside double quotes, `$'`, `$"` and `$[`, a parenthesis right after a word, `#` right after an operator character, and `>&` or `<&` before anything but a descriptor are `Beyond`: from there on it counts every character as open to interpretation, which is safe but may be more than the shell does. In particular `>&` before a placeholder is never unquoted here; POSIX leaves that form open, and bash expands the word twice. What a command does with its words (`eval`, arithmetic in `test` or array indices) and what a script does with a command's output are not the shell's reading of the script.
- Executors.Executor.Execute: a node's requests are answered when it completes, where the source interleaves them with those of its siblings; their order carries no meaning. A refused request is taken to leave nothing behind: the Docker backend removes a container that it cannot start, and when that removal fails too the container stays. An aborted process and the thirty-second limit on each destroy are left out.
- Paths.ConfineWithin: a fixed file tree; the race between the check and a later open is disclaimed by the source too.
- An executor without an audit sink, the `kind` of a node in events, display strings for routes and errors, and timestamps: they carry no behaviour.
- Panics outside nodes, in routers or in the executor itself: compiled routers cannot panic.
- HTTP routing, tokens, the ACP and MCP transports, Docker, the command line and the web interface: input and output.
- SQLite, JSON and YAML: the store is a map with writes that may be refused, and encodings are the identity.
- Docker output capping, regular expressions, timeouts, signals, file modes and the stale-file sweep: operating-system behaviour or single branches.
