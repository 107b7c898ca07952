# VoidCode: verified model of the turn engine, its store, its streams and its hooks

VoidCode runs coding agents. This project models the parts of it whose correctness spans several
components, and proves what they promise for every input, every run and every interleaving.

## What is modelled

**Event-sourced turns** (`src/voidcode/core/`). `MemoryEventStore` is an append-only tree of facts with a
movable leaf. `TurnEngine.run` drives tool batches through a host; `MemoryHost` records every request and
completion as a fact, completions with a snapshot of their batch. The store (`EventStore`, over the values
of `FactTree`), the engine (`TurnEngine`, over `Engine`) and the host (`MemoryHost`) are classes whose
methods are proved against functions on values. `HostedRun` joins the three one recorded fact at a time,
with users, producer, tools, crashes and restarts as an environment that may do anything its interface
allows. `CrashResume` holds the theorems about whole chains of runs over one store, `Repair` those about
checking out the last completion before a restart; `Likeness` and `Resumption` show that a resumed run does
what the interrupted one would have done; `Prompts` shows that no message taken from a host is lost and what
the producer is given, `Exchanges` what the transcript shows, `Endings` how runs end and what a cancel
stops; `TornLogs` builds, step by step, chains that cannot be resumed,
and `ReusedIdentity` a run whose prepared transcript misleads. `DeterministicRun` and `DeterministicOutcome`
close the system with the deterministic producer: its runs terminate and are exact, and `DeterministicResults` ties what they
report to what their tools returned. `TextShapes` says what splitting a prompt into commands keeps.

**Streamed tool calls** (`provider_turns.py`): `StreamAssembly` accumulates, sorts and merges; `Sorting` is
the stable sort it needs; `Fragmentation` proves when the provider's way of cutting deltas does not matter, and `StreamContent`
states the turn in terms of the events alone.

**Two concurrency protocols.** `AcpServer` is the stdio server as interleaved atomic steps, one for each
access to shared state; `AcpDiscipline` and `AcpResponses` hold its invariants, `AcpBodies` what it
answers, `AcpCancel` what a cancel does. `ClientStore` is the frontend's session store with its asynchronous actions cut at their awaits,
`ClientScreens` what it then shows; `LiveStream` is its event list.

**Hooks** (`hook/`): `TypedHooks` is the handler registry and its fold, `HookPlan` and `HookExecutor` the
plan compiled from a configuration and the loop that runs commands, with `Diagnostics` shared by both; `HookOutcomes`
says what hooks do to the tool or surface they hang on.

`BodyWalk` is the worklist that finds mapping proxies before a tool body is copied; `Basics`, `Turns` and
`Lines` hold shared values.

## Where the code falls short of what one would expect

Each of these is stated by a lemma about the code as it is; where the failing input is not plain from the
lemma, a second one exhibits it.

- Between the request and the completion of the *first* call of a batch, recovery raises instead of
  answering as before the request (`CrashResume.CutAfterRequest`, `TornLogs.FirstRequestTearsLog`); a
  checkout of the last completion repairs it (`CrashResume.CheckoutRepairs`).
- The engine generates identities only for calls that have none; an empty one is kept, and such a batch can
  never be recovered (`CrashResume.EmptyIdentityDefeatsRecovery`, `TornLogs.EmptyIdentityTearsLog`).
- A fork forgets the dedupe keys of its store (`FactTree.ForkForgetsKeys`).
- The transcript prepared by the host is wrong when a provider reuses an identity
  (`ReusedIdentity.ReusedIdentityMisleads`; exact condition in `Transcript.FilterExact`), and results handed to
  a restarted run hide a seed's report of the same identity (`CrashResume.SeedResultsExact`).
- A steering message that arrives after the last drain, when no command is left, stays in the queue
  (`DeterministicOutcome.LateMessageIsLeft`; exact condition in `DeterministicOutcome.TakenExactly`).
- A cancel that reaches the server after a prompt's last look, while the prompt still counts as running, is
  lost: the canceller is told that the prompt runs, and the prompt is answered as not cancelled
  (`AcpCancel.LateCancelIsLost`; exact condition in `AcpCancel.CancelIsHonoured`).
- A prompt that is cancelled before any prompt of its session has taken over a chunk is answered with an
  internal error, the first one like every later one (`AcpCancel.EarlyCancelFails`; exact condition in
  `AcpCancel.RaisesExactly`).
- Cutting the last part of a tool payload in two can make the payload unreadable
  (`Fragmentation.CutPayloadIsMalformed`; exact condition in `Fragmentation.LastPartExactly`).
- Merging the same persisted frames twice can differ from merging them once
  (`LiveStream.MergeTwiceCanDiffer`; exact condition in `LiveStream.MergeTwiceExactly`).
- A selection made while a resume loads, also the emptied one, leaves the resume status at loading, and no
  resume can start until the workspace is switched (`ClientStore.EmptiedSelectionLosesResume`,
  `ClientStore.LostResumeStaysLost`; exact condition in `ClientStore.ResumeSettlesExactly`).
- The constructor of a hook plan accepts negative timeouts, and unknown failure modes when there is no
  binding; reading the plan back does not (`HookPlan.NegativeTimeoutIsLost`, `HookPlan.UnknownModeIsLost`;
  exact condition in `HookPlan.PlanRoundTrip`). A plan carries no tool filter, so without its configuration
  it can run hooks that the configuration holds back (`HookExecutor.PlanAloneExactly`).
- A lifecycle hook or a hook after a tool that fails loses the diagnostics gathered before it
  (`HookExecutor.DiagnosticIsLost`, `HookExecutor.DiagnosticIsLostAfterTool`; exact in `HookExecutor.OutcomeExact`).

## Model

| member | source | states |
|---|---|---|
| Pairing.RequireCompleteToolPairs | src/voidcode/core/event_store.py:37-53 | the one-pass loop answers exactly what the scan function answers, errors in the same order |
| Pairing.AcceptedPrefixIsTransparent | src/voidcode/core/event_store.py:37-53 | after an accepted prefix, the whole is accepted if and only if the rest is |
| Pairing.ScanImpliesShape | src/voidcode/core/event_store.py:37-51 | the open set reached says of every identity whether its requests and completions form whole blocks or end in unanswered requests |
| Pairing.ShapeDeterminesScan | src/voidcode/core/event_store.py:37-51 | conversely, the block shapes of all identities determine that the scan succeeds and which open set it reaches |
| Pairing.PairingCharacterised | src/voidcode/core/event_store.py:37-53 | a lineage is accepted if and only if for each identity separately its facts are blocks of one or more requests followed by one completion |
| FactTree.LineageOrdered | src/voidcode/core/event_store.py:96-105 | walking to the root terminates, and the path has strictly increasing sequences starting from the root |
| FactTree.LineageLinked | src/voidcode/core/event_store.py:96-105 | each entry of a path is the parent of the next, and the first has none |
| FactTree.AdmitAllKeys | src/voidcode/core/event_store.py:81-92 | after an append the keys on record are the old ones and those of the batch |
| FactTree.LineageStable | src/voidcode/core/event_store.py:96-105 | recording more never changes the path to a known leaf |
| FactTree.AdmitKeeps | src/voidcode/core/event_store.py:80-93 | one recorded fact extends the current lineage by exactly itself, numbers it with the next sequence and keeps the tree invariant |
| FactTree.AdmitAllKeeps | src/voidcode/core/event_store.py:73-93 | a whole append extends only the current lineage and keeps all recorded entries |
| FactTree.ReappendIsNoop | src/voidcode/core/event_store.py:80-82 | appending a batch again whose facts are all keyed and recorded changes nothing |
| FactTree.ForkKeeps | src/voidcode/core/event_store.py:161-173 | a fork is a valid store of its own with the same path to its leaf and to every older entry |
| FactTree.ForkForgetsKeys | src/voidcode/core/event_store.py:161-173 | a store skips a keyed fact if and only if it has the key on record; a fork of it starts without keys and records the fact whatever the key |
| FactTree.RunKeepsTree | src/voidcode/core/event_store.py:56-173 | after any run of appends, checkouts and forks: sequences are exactly 1..max, every parent is absent or smaller, leaf and keys point at entries |
| FactTree.RunKeepsLineages | src/voidcode/core/event_store.py:65-122 | between forks no entry is ever lost or changed: every old lineage can be read later, unchanged |
| FactTree.FirstErrorExactly | src/voidcode/core/event_store.py:73-79 | the error of an append is that of the first fact that may not be recorded: live stream, or a request or completion without identity |
| FactTree.AppendAccepts | src/voidcode/core/event_store.py:65-79 | an append is accepted if and only if every fact may be recorded and keys come one a fact or not at all |
| FactTree.CheckoutExactly | src/voidcode/core/event_store.py:119-122 | a checkout succeeds if and only if the entry is there and every request on its path is answered, identity by identity; it moves the leaf there and changes nothing else |
| FactTree.ForkExactly | src/voidcode/core/event_store.py:161-173 | a fork succeeds if and only if its point is an entry whose path pairs; it holds exactly the entries up to it, its leaf is there, and it has no keys |
| FactTree.RunMovesBetweenBlocks | src/voidcode/core/event_store.py:119-173 | over any run, right after a checkout or a fork no request on the current path is open |
| FactTree.PageTells | src/voidcode/core/event_store.py:107-117 | a page tells the leaf it was read from, how far the store has got, and entries of that lineage behind the cursor only |
| FactTree.RestoreReads | src/voidcode/core/event_store.py:124-159 | for any log at all: recovery succeeds if and only if the latest completion has a clean snapshot with sound identities, the reports carrying the same one answer its first calls, and what follows fits; it yields that snapshot with these reports |
| FactTree.RestoreNeedsCompletion | src/voidcode/core/event_store.py:130-131 | a log without a completion cannot be recovered |
| EventStore.Stage | src/voidcode/core/event_store.py:69-88 | the staging loop checks every fact first, and numbers exactly the facts that will be recorded |
| EventStore.MemoryEventStore.AppendFacts | src/voidcode/core/event_store.py:65-94 | the new state is the appended store, or on any error the old one; returned are the sequences recorded |
| EventStore.MemoryEventStore.Path | src/voidcode/core/event_store.py:96-105 | the leaf-to-root loop returns the lineage, or an error for an unknown leaf |
| EventStore.MemoryEventStore.Read | src/voidcode/core/event_store.py:107-117 | a page is the next entries of the pinned lineage; the store is unchanged |
| EventStore.MemoryEventStore.MoveTo | src/voidcode/core/event_store.py:119-122 | checkout moves the leaf if and only if the path pairs its calls; otherwise nothing changes |
| EventStore.MemoryEventStore.Branch | src/voidcode/core/event_store.py:161-173 | the branch is a fresh object holding the fork; this store is unchanged |
| EventStore.MemoryEventStore.RestoreBatch | src/voidcode/core/event_store.py:124-159 | the loops over the path answer exactly what the restore function answers, raising in the same cases |
| EventStore.CollectCompletions | src/voidcode/core/event_store.py:126-129 | collects the completions of a lineage in order and the position of the latest |
| EventStore.CollectTrailing | src/voidcode/core/event_store.py:134-140 | collects backwards exactly the reports at the end that carry the same snapshot |
| EventStore.NewerBySequence | src/voidcode/core/event_store.py:146 | the facts whose sequence is greater than that of the latest completion are exactly those that follow it on the path |
| Paging.PagesAreTheLineage | src/voidcode/core/event_store.py:107-117 | following the next cursor with the pinned leaf and any positive limits ends after at most as many pages as there are entries and adds up to that lineage, with appends and checkouts in between |
| Paging.CursorMustBelong | src/voidcode/core/event_store.py:107-113 | a page is read if and only if its limit is positive, its leaf known, and its cursor zero or on the lineage of that leaf |
| Engine.Identified | src/voidcode/core/engine.py:73 | every call ends up with an identity; one that is present is kept |
| TurnEngine.EngineState.BeginToolBatch | src/voidcode/core/engine.py:70-80 | the new engine state is the batch begun, or the old state when a batch is unfinished or identities repeat |
| TurnEngine.EngineState.AdvanceBatch | src/voidcode/core/engine.py:82-91 | the new state is the advanced one, or the old one when call or report are foreign |
| TurnEngine.EngineState.TranscriptSegments | src/voidcode/core/engine.py:93-140 | the rebuilding loop yields exactly the segments of the complete batches and texts, filtered by the given views |
| TurnEngine.EngineState.ReplaySeed | src/voidcode/core/engine.py:185-193 | the seed loop consumes the pending calls report by report, and raises at the first that is not the next |
| TurnEngine.BeginRun | src/voidcode/core/engine.py:179-195 | the state a run starts with, from a seed or without, and when starting raises |
| TurnEngine.TurnRun.Resume | src/voidcode/core/engine.py:196-262 | one answer of the host takes the run object to the next question exactly as the step function says |
| TurnEngine.TurnRun.Drive | src/voidcode/core/engine.py:196-262 | a whole drive through any answers ends where playing the answers ends |
| EngineInvariant.StepKeeps | src/voidcode/core/engine.py:196-262 | whatever the host answers: pending is the last batch less its answered calls, earlier batches are complete, the plan starts with the next pending call, completed leaves none pending and paused some, and no assertion of the engine fails |
| EngineInvariant.StartInv | src/voidcode/core/engine.py:179-195 | the invariant holds of every run that starts, seeded or not |
| EngineInvariant.SeedAllKeeps | src/voidcode/core/engine.py:185-193 | a replayed seed leaves exactly the unanswered calls pending |
| EngineInvariant.RunKeepsInv | src/voidcode/core/engine.py:196-262 | the invariant holds at every point of every run |
| Endings.EndsExactly | src/voidcode/core/engine.py:171-262 | each final status is reached by exactly the answers that mean it, and a call is executed exactly behind a look that finds no cancel, the first pending one |
| Endings.CancelStopsCalls | src/voidcode/core/engine.py:198-262 | over any chain of runs, once the cancel flag is up and no call is in hand no call is requested until the flag is taken back or the process restarted |
| Endings.CallInHandIsLast | src/voidcode/core/engine.py:247-253 | a call in hand when the cancel comes is the last: its report is taken over and the next look aborts |
| Prompts.AppendExactly | src/voidcode/core/engine.py:264-266 | messages go behind the prompt in order, each behind a blank line, and their commands behind its commands |
| Prompts.FollowedHolds | src/voidcode/core/engine.py:264-266 | every message stands in the resulting prompt |
| Prompts.FollowupIsHeard | src/voidcode/core/engine.py:227-235 | follow-ups go behind the prompt, become one text of the user and start the next step; nothing else changes |
| Prompts.SteeringIsHeard | src/voidcode/core/engine.py:199-203 | steering does the same within the step |
| Prompts.SilenceIsNothing | src/voidcode/core/engine.py:199-235 | without messages nothing changes |
| Prompts.ContinuationIsHeard | src/voidcode/core/engine.py:236-245 | a continuation replaces the prompt, starts the next step and becomes a text unless it repeats the prompt; without one the run completes with the output of its final turn |
| Prompts.FinalTurnIsSaid | src/voidcode/core/engine.py:225-226 | the output of a final turn becomes a text of the assistant |
| Prompts.MessagesQueue | src/voidcode/core/memory_host.py:89-93 | a message waits behind those of its kind that came before it, and nothing else changes |
| Prompts.DrainedIsAsked | src/voidcode/core/engine.py:196-235 | over any chain of runs: all messages taken from the host, steering and follow-ups alike, are in the prompt with which the producer is asked next, in order behind the prompt they came to |
| Prompts.PreparedIs | src/voidcode/core/memory_host.py:101-108 | preparing changes the context alone, and fills it with prompt, results and transcript as they stand |
| Prompts.PreparedLosesNothing | src/voidcode/core/memory_host.py:101-108 | with distinct identities the prepared transcript is the unfiltered one |
| Prompts.AskedInContext | src/voidcode/core/memory_host.py:101-126 | whenever the producer is asked, in any chain of runs, it is given that context as it stands at that moment |
| Transcript.SegmentsPaired | src/voidcode/core/engine.py:93-140 | in a transcript whose own texts are plain, every tool segment directly follows the assistant segment with its identity |
| Transcript.RunIsPaired | src/voidcode/core/engine.py:93-262 | so it is at every point of every run that starts, seeded or not, filtered by any views |
| Transcript.UnfinishedIsSilent | src/voidcode/core/engine.py:100-102 | a batch that is not complete contributes nothing and can only be the last entry |
| Transcript.StepExtendsSegments | src/voidcode/core/engine.py:196-262 | the unfiltered segments only grow at the end, whatever the host answers |
| Transcript.RunExtendsHistory | src/voidcode/core/engine.py:196-262 | over a whole run an earlier segment list is a prefix of every later one |
| Transcript.FilterExact | src/voidcode/core/engine.py:93-109 | the filtered transcript is the unfiltered one if and only if every report finds itself under its identity |
| Transcript.StepCollects | src/voidcode/core/engine.py:82-91 | the results of a run are the given ones followed by all batches' results in order |
| Transcript.DistinctFilterLosesNothing | src/voidcode/core/memory_host.py:101-108 | what the host prepares loses nothing when identities are distinct across the run |
| Transcript.RunFilterLosesNothing | src/voidcode/core/memory_host.py:101-108 | the same at every point of every run that was not seeded |
| Exchanges.ProposalExactly | src/voidcode/core/engine.py:70-80 | a proposed turn is taken up if and only if no identity would occur twice; its calls, facts, reasoning and step are all kept, and otherwise nothing changes |
| Exchanges.StartSays | src/voidcode/core/engine.py:179 | a run without a seed starts at its request, with the results given and the prompt as first text of the user |
| Exchanges.BatchTells | src/voidcode/core/engine.py:93-140 | each exchange of a batch is a call with its arguments, then the output or error reported for it with the reasoning of the batch |
| Exchanges.ExchangesAreShown | src/voidcode/core/engine.py:93-140 | at every point of every run, every complete batch and every text of the transcript stands in the segments at its place, call by call with what came back for it |
| Exchanges.StartIsReasoned | src/voidcode/core/engine.py:180-195 | a run starts with its plan, if any, carrying the reasoning of the seeded batch |
| Exchanges.RunIsReasoned | src/voidcode/core/engine.py:204-262 | over any run the plan in hand carries the reasoning of the batch it belongs to |
| ReusedIdentity.ReusedIdentityMisleads | src/voidcode/core/memory_host.py:101-108 | a run from its start whose producer uses an identity twice: what the host then prepares shows the older exchange with the newer result |
| MemoryHost.MemoryHost.RecordFact | src/voidcode/core/memory_host.py:73-76 | a fact is kept by the host, and by the store unless it is a stream fact or refused |
| MemoryHost.MemoryHost.DrainMessages | src/voidcode/core/memory_host.py:95-99 | each kind of message is handed out once, in order, and the other queue stays |
| MemoryHost.MemoryHost.Observe | src/voidcode/core/memory_host.py:128-135 | a new batch is noticed by identity and its snapshot taken, then the plan's facts are recorded up to the first refusal |
| MemoryHost.MemoryHost.Execute | src/voidcode/core/memory_host.py:137-171 | request, tool, report and completion are recorded in order, the completion with the batch snapshot |
| MemoryHost.ObserveStepByStep | src/voidcode/core/memory_host.py:128-135 | recording fact by fact in the joint system adds up to the whole method, a refused fact included |
| MemoryHost.ExecuteStepByStep | src/voidcode/core/memory_host.py:137-171 | request and completion steps of the joint system add up to the whole method |
| MemoryHost.RecordAllExactly | src/voidcode/core/memory_host.py:128-135 | all facts of a plan are kept in order if and only if the store refuses none of them |
| Turns.ReportExactly | src/voidcode/core/turns.py:90-99 | a call is reported if and only if it has an identity and the result names the tool that ran; identity, arguments, name and the whole result are in the report |
| HostedInvariant.ToolIsReported | src/voidcode/core/memory_host.py:150-171 | what a tool returns is recorded as it is under the snapshot of the batch in hand, or the run ends without recording |
| Recovery.RestoreExact | src/voidcode/core/event_store.py:124-159 | for any log a chain of runs can leave: the batch of the latest completion with exactly its completed results, or the exact error |
| Recovery.TrailingIsOwn | src/voidcode/core/event_store.py:134-140 | reports with the latest snapshot are the latest batch's own, also when identities are reused, because steps strictly grow |
| Recovery.CompletedInOrder | src/voidcode/core/event_store.py:124-159 | completions on the lineage are the batches' calls in order, each batch but the last in full |
| HostedRun.RecordEffect | src/voidcode/core/memory_host.py:73-76 | what recording one fact does to the lineage, and exactly when it is refused |
| HostedInvariant.StartContinues | src/voidcode/core/engine.py:180-195 | a seed taken from a batch always starts a run, and the run continues that very batch |
| HostedInvariant.NextKeeps | src/voidcode/core/engine.py:171-262 | the joint invariant of engine, host and store survives every choice of users, producer, tools, crashes and restarts, with or without a checkout of the last completion before the restart |
| CrashResume.ReachableChain | src/voidcode/core/engine.py:171-262 | so it holds at every point of every chain of runs over one store |
| CrashResume.NoWrongRecovery | src/voidcode/core/event_store.py:126-151 | wherever the log is cut, recovery raises or returns the batch of the latest completion with its completed results in order |
| CrashResume.EveryCutRecoversRightly | src/voidcode/core/event_store.py:124-159 | the same for every point of every chain of runs |
| CrashResume.CutAfterRequest | src/voidcode/core/event_store.py:146-151 | between a request and its completion, recovery answers as before the request if and only if the batch had started or recovery raised already; for the first call of a batch it raises |
| CrashResume.CheckoutRepairs | src/voidcode/core/event_store.py:119-122 | after checking out the last completion a restart starts if and only if no identity of the latest batch is empty; it continues that batch and is a link of the chain like any other |
| CrashResume.CompletedExactlyOnce | src/voidcode/core/memory_host.py:137-171 | over any number of crashes the completions on the lineage are the batches' calls, each once, in order |
| CrashResume.RestartNeverFails | src/voidcode/core/engine.py:180-195 | a restart starts if and only if recovery succeeds, and then exactly the uncompleted calls are pending at the recorded step |
| Likeness.AlikeStep | src/voidcode/core/engine.py:196-262 | two runs that stand alike stay alike under the same answer |
| Likeness.AlikeRunsAgree | src/voidcode/core/engine.py:196-262 | and execute the same calls under the same answers |
| Resumption.RestartStandsAlike | src/voidcode/core/engine.py:180-195 | wherever a run with a started batch is cut before its turn ends, also while a call runs or its completion is not yet taken over, a restart is led without executing anything to where the interrupted run stood |
| Resumption.ResumeSimulatesContinue | src/voidcode/core/engine.py:180-195 | from there it executes exactly the calls the interrupted run would have executed; one whose completion is on record is not executed again |
| Resumption.RestartBeginsAnew | src/voidcode/core/engine.py:180-223 | a cut after a new batch was begun and before its first completion: given the same turn again, a restart is led without executing anything to where the interrupted run stood |
| Resumption.ResumeRepeatsTurn | src/voidcode/core/engine.py:180-262 | from there it executes exactly the calls the interrupted run would have executed |
| CrashResume.EmptyIdentityDefeatsRecovery | src/voidcode/core/event_store.py:141-143 | a batch with an empty identity, which the engine accepts, can never be recovered |
| TornLogs.FirstRequestTearsLog | src/voidcode/core/event_store.py:146-151 | a chain from its beginning on: recovery succeeds before the first request of a second batch and raises after it |
| TornLogs.EmptyIdentityTearsLog | src/voidcode/core/event_store.py:141-143 | a chain from its beginning on: a batch whose second identity is empty cannot be recovered once its first call is completed |
| CrashResume.SeedResultsExact | src/voidcode/core/engine.py:181-192 | a seed's reports follow the given results if and only if no identity is among the given ones |
| CrashResume.OpenRequests | src/voidcode/core/event_store.py:37-53 | with nothing pending the recorded lineage pairs; during a call exactly its identity is open |
| CrashResume.SafeBoundaryAgrees | src/voidcode/core/event_store.py:119-122 | with nothing pending, checkout and fork at the leaf succeed |
| CrashResume.LineageIsWhatTheHostKept | src/voidcode/core/memory_host.py:73-76 | the lineage is what the store held before followed by the host's facts without the live stream |
| CrashResume.FreshLineageIsTheHosts | src/voidcode/core/memory_host.py:73-76 | on a fresh store the lineage is exactly the host's facts without the live stream and without a refused last one |
| Deterministic.CommandsOfTwoLines | src/voidcode/core/deterministic_turns.py:30 | the commands of two texts joined by a line feed are theirs in order, also behind a carriage return |
| Deterministic.AppendedCommands | src/voidcode/core/engine.py:264-266 | appending messages to a prompt appends their commands to its commands |
| DeterministicRun.Produces | src/voidcode/core/deterministic_turns.py:19-45 | which turn the producer makes once so many commands are done, and exactly when it raises |
| DeterministicRun.OccursKeeps | src/voidcode/core/deterministic_turns.py:11-45 | one batch a command, one call a batch, one result a finished batch, in the order of the commands, while steering arrives at any moment |
| DeterministicOutcome.EventMeasured | src/voidcode/core/deterministic_turns.py:30-39 | every step lowers the measure of commands left; an arriving message raises it by its own commands only |
| DeterministicOutcome.Terminates | src/voidcode/core/deterministic_turns.py:30-39 | the run is over after a number of steps that the commands alone bound, however the messages arrive |
| DeterministicOutcome.PlayIsChain | src/voidcode/core/engine.py:196-262 | such a run is a run of the joint system, so all its invariants hold of it |
| DeterministicOutcome.TakenExactly | src/voidcode/core/engine.py:199-203 | in a completed run a message was taken if and only if it arrived while a command was left or before the last drain |
| DeterministicOutcome.DeterministicRunIsExact | src/voidcode/core/deterministic_turns.py:30-45 | it completes having executed every command of the prompt and of exactly those messages, in order and once each, with the last result's output, or fails if and only if nothing was asked for or at the first line that does not resolve |
| DeterministicResults.RunReportsReturns | src/voidcode/core/memory_host.py:150-171 | a run that is over has on record exactly what its tools returned, return by return; a completed one says what the last of them returned as output |
| DeterministicOutcome.LateMessageIsLeft | src/voidcode/core/engine.py:199-203 | a run of one command, from its beginning on, that completes with a message in the queue |
| DeterministicOutcome.SlashCommandIsEchoed | src/voidcode/core/deterministic_turns.py:25-29 | a slash command executes nothing and is answered with its own text |
| TextShapes.StripExactly | src/voidcode/core/deterministic_turns.py:30 | stripping takes away exactly the blanks at both ends |
| TextShapes.SplitExactly | src/voidcode/core/deterministic_turns.py:30 | the lines of a text hold no break, and with breaks between them they are the text again |
| TextShapes.CommandsAreLines | src/voidcode/core/deterministic_turns.py:30 | every command is a line of the prompt without the blanks around it, and not empty |
| StreamAssembly.Accumulate | src/voidcode/core/provider_turns.py:336-460 | the loop over the stream accumulates what the event-by-event function does, with calls in the order of their first events |
| StreamAssembly.PreviewIsPrefix | src/voidcode/core/provider_turns.py:368-375 | the preview of a call is the first 65536 characters of its concatenated arguments |
| StreamAssembly.ReadCalls | src/voidcode/core/provider_turns.py:501-533 | reading in ordinal order finds exactly the ended, named calls with argument objects, or a malformed one |
| StreamAssembly.MergeIsInOrder | src/voidcode/core/provider_turns.py:501-541 | sorting both kinds of calls by their keys gives the order of first appearance, with the payload's calls at its last part |
| StreamAssembly.Merge | src/voidcode/core/provider_turns.py:542-550 | the dedupe loop keeps the first call of each identity and all without one |
| StreamAssembly.Assemble | src/voidcode/core/provider_turns.py:336-575 | a streaming step answers the calls in order of appearance, output and reasoning, or the first error of the ending, the calls or the payload |
| StreamContent.AssembledExactly | src/voidcode/core/provider_turns.py:336-575 | read off the events alone: when a stream makes a turn, that its output is the text and its reasoning the thoughts, which calls it holds with which name and arguments, in which order, and where the payload's calls stand |
| StreamContent.EntryExactly | src/voidcode/core/provider_turns.py:623-662 | an entry of a payload is a call if and only if it is an object with a name that is not blank and an object of arguments; these and its identity are taken over |
| StreamContent.EntriesExactly | src/voidcode/core/provider_turns.py:623-663 | a list of entries is read if and only if each entry is, one call an entry |
| StreamContent.PayloadExactly | src/voidcode/core/provider_turns.py:583-621 | which text of a payload is read, and what counts as its entries |
| Fragmentation.FragmentationInvariance | src/voidcode/core/provider_turns.py:345-575 | cutting any text or reasoning delta, any part of a call (into a start and a delta, two deltas, or a delta and an end), or any part of the tool payload but the last leaves calls, output, reasoning and errors as they are |
| Fragmentation.LastPartExactly | src/voidcode/core/provider_turns.py:583-601 | cutting the last part of the tool payload changes what is read if and only if the second half, or else the joined text, reads otherwise than the whole part, or else the joined text; unchanged, the turn is the same |
| Fragmentation.CutPayloadIsMalformed | src/voidcode/core/provider_turns.py:583-601 | a payload that is repeated by its provider and malformed once the repetition is cut in two |
| Fragmentation.MergedExactly | src/voidcode/core/provider_turns.py:542-550 | merging keeps exactly the calls without identity and the first of each identity, in order |
| Fragmentation.MergedDistinct | src/voidcode/core/provider_turns.py:542-550 | no identity occurs twice in the merged calls |
| Fragmentation.StreamedTurnsBegin | src/voidcode/core/engine.py:70-75 | so the engine never refuses a streamed turn for its identities, as long as generated ones are fresh |
| AcpDiscipline.ExclusiveKept | src/voidcode/acp/stdio.py:189-211 | every atomic step of main and prompt threads keeps: one live prompt at most, the flag set exactly while one runs or is started, bindings active exactly while their prompt holds the flag |
| AcpResponses.AccountedKept | src/voidcode/acp/stdio.py:101-157 | every step keeps the account of responses: none while a line is being handled or left to a prompt, then exactly what is owed |
| AcpResponses.Reached | src/voidcode/acp/stdio.py:75-99 | these invariants hold under every interleaving from the start |
| AcpResponses.AtMostOnePrompt | src/voidcode/acp/stdio.py:196-202 | at most one prompt runs, and an active session is the one whose thread holds the flag |
| AcpResponses.ResponseDiscipline | src/voidcode/acp/stdio.py:408-429 | each line gets at most one response, under its own identity; one if it has an identity or cannot be attributed, none if it is well formed without one |
| AcpResponses.ServeReturnsLast | src/voidcode/acp/stdio.py:98-99 | serving returns only after all prompt threads ended and every line got exactly what it is owed |
| AcpResponses.NeverStuck | src/voidcode/acp/stdio.py:159-171 | until serving returns some thread can always go on |
| AcpBodies.ParseExactly | src/voidcode/acp/stdio.py:101-137 | which requests are taken, and which error the others get |
| AcpBodies.MethodExactly | src/voidcode/acp/stdio.py:139-150 | which method a request calls and what it hands over |
| AcpBodies.PromptOkExactly | src/voidcode/acp/stdio.py:460-485 | a prompt is a text, or text blocks not all blank, of at most 65536 characters |
| AcpBodies.EveryAnswerFits | src/voidcode/acp/stdio.py:101-157 | under every interleaving every response has a body that its line can have: success for initialize, an error of the right kind for what is refused, an end of a prompt only for a prompt |
| AcpBodies.OpensExactly | src/voidcode/acp/stdio.py:213-224 | a session is opened if and only if the request may and fewer than 128 are open; it is idle and without name |
| AcpBodies.PromptTakenExactly | src/voidcode/acp/stdio.py:189-200 | a prompt passes the first look if and only if it names a session that is there and its text will do |
| AcpBodies.ChecksExactly | src/voidcode/acp/stdio.py:195-200 | it is refused if its session or another prompt is under way |
| AcpBodies.PreparesExactly | src/voidcode/acp/stdio.py:201-203 | three steps make a session active, without run and without a cancel on record |
| AcpBodies.CancelAsksExactly | src/voidcode/acp/stdio.py:312-335 | a cancel asks the runtime if and only if, look after look, it finds the session active, named and with a run, and tells what the runtime says |
| AcpBodies.ChunksTell | src/voidcode/acp/stdio.py:261-290 | a prompt fails because of its runtime if and only if some chunk told of a failure, or its last session had failed |
| AcpBodies.NameStays | src/voidcode/acp/stdio.py:257-258 | no step changes a name that the runtime has given |
| AcpBodies.ChunkNames | src/voidcode/acp/stdio.py:257-260 | a chunk gives name and run if there are none |
| AcpBodies.RunsAreForgotten | src/voidcode/acp/stdio.py:306-310 | under every interleaving a session has a run on record only while a prompt of it is under way |
| AcpCancel.AskedIsHistory | src/voidcode/acp/stdio.py:312-317 | a thread's mark says exactly whether a cancel of its session reached the server since it was started, at every point of every interleaving |
| AcpCancel.CancelIsHonoured | src/voidcode/acp/stdio.py:280-305 | under every interleaving a prompt that ends is answered as cancelled exactly if a cancel came after its thread started and before its last look, unless it failed |
| AcpCancel.NamedExactly | src/voidcode/acp/stdio.py:255-259 | at every point of every interleaving a session has a name of the runtime if and only if some prompt of it has taken over a chunk |
| AcpCancel.RaisesExactly | src/voidcode/acp/stdio.py:243-293 | at a step of its own a prompt goes wrong if and only if the runtime raises there, or its stream has ended, by a cancel or by itself, and no prompt of the session has ever taken over a chunk |
| AcpCancel.RaisedFrom | src/voidcode/acp/stdio.py:243-304 | a prompt that went wrong did so at a step of that kind, and is answered with an internal error |
| AcpCancel.AnswersInTime | src/voidcode/acp/stdio.py:280-309 | once its stream has ended a prompt is never held up: it has got its response after three steps of its own and is dead after six |
| AcpCancel.LateCancelIsLost | src/voidcode/acp/stdio.py:282-292 | a run from the start: a cancel after the last look is told that the prompt runs, and the prompt is answered as not cancelled |
| AcpCancel.EarlyCancelFails | src/voidcode/acp/stdio.py:249-281 | a run from the start: a cancel seen at the first chunk of the first prompt is answered with an internal error |
| LiveStream.ApplyLiveStreamEvent | frontend/src/store/index.ts:252-268 | the index loop drops exactly the live frames at the end before a discarding restart |
| LiveStream.FoldIsFilter | frontend/src/store/index.ts:252-268 | folding any stream keeps every persisted frame and drops a live one if and only if the next persisted frame is a discarding restart |
| LiveStream.MissingAreLost | frontend/src/store/index.ts:472-505 | which of the merged persisted frames are missing after one pass |
| LiveStream.MergeTwiceExactly | frontend/src/store/index.ts:472-505 | merging the same persisted frames twice equals merging once if and only if none is taken for delivered by a live frame that the first new frame discards |
| LiveStream.MergeTwiceApart | frontend/src/store/index.ts:472-505 | in particular when no live frame at the end shares a sequence with a pushed one |
| LiveStream.MergeTwiceCanDiffer | frontend/src/store/index.ts:484-496 | it can fail: a live frame with the cursor of a persisted one, discarded by a retry |
| LiveStream.ApplyExactly | frontend/src/store/index.ts:252-268 | one frame goes behind the others, and a discarding retry or fallback takes away exactly the live frames at the end |
| LiveStream.MergeExactly | frontend/src/store/index.ts:472-505 | a pushed frame is left out if and only if one of its session and sequence is there, a live one only with the same payload |
| ClientStore.StaleIsSilent | frontend/src/store/index.ts:580-745 | a reply to an operation that has been superseded changes nothing in the store |
| ClientStore.LatestOperationWins | frontend/src/store/index.ts:405-425 | once a selection, resume, run or switch has started, no reply to an earlier operation changes anything, whatever happens in between |
| ClientStore.WhatSupersedes | frontend/src/store/index.ts:747-843 | each of these operations that is not turned away takes a new number, and nothing else does |
| ClientStore.StaleRepliesErased | frontend/src/store/index.ts:580-998 | leaving all replies to superseded operations out of any run leads to the same store |
| ClientStore.ClearedStaysClear | frontend/src/store/index.ts:560-578 | an emptied selection takes no number, yet nothing in flight brings a session back |
| ClientStore.ResumeSettlesExactly | frontend/src/store/index.ts:747-815 | the reply to a resume takes the store out of loading if and only if, since it started, no session was selected, the selection not emptied and the workspace not switched; otherwise it changes nothing |
| ClientStore.DisturbsExactly | frontend/src/store/index.ts:548-580 | while a resume loads, what takes a new number is a selection or a switch, and besides these only the emptied selection disturbs it |
| ClientStore.SelectionLosesResume | frontend/src/store/index.ts:548-580 | any selection during a resume, the emptied one like any other, leaves the resume status at loading |
| ClientStore.LostResumeStaysLost | frontend/src/store/index.ts:753-760 | over any run from there no resume starts and none is reported over until the workspace is switched |
| ClientStore.EmptiedSelectionLosesResume | frontend/src/store/index.ts:560-578 | a run from the start in which an emptied selection loses a resume |
| ClientScreens.SelectionLoads | frontend/src/store/index.ts:580-609 | what a selection puts on screen while it loads, and that every other action is superseded |
| ClientScreens.ReplayShows | frontend/src/store/index.ts:682-715 | the reply to a selection puts its own session, frames and output on screen, and the run stands as the session says |
| ClientScreens.ChildShows | frontend/src/store/index.ts:617-665 | a child found is shown with its own transcript, its task's output and its parent |
| ClientScreens.FailureRestores | frontend/src/store/index.ts:715-745 | a selection that fails brings back what was on screen, or an empty screen |
| ClientScreens.SelectedIsShown | frontend/src/store/index.ts:527-745 | over any run: an undisturbed selection is on screen once its reply has come, whatever came in between, or what was there before if it fails |
| ClientScreens.ResumedIsShown | frontend/src/store/index.ts:747-815 | over any run: an undisturbed resume of a session shows that session, its frames and its output |
| ClientScreens.ResumeShows | frontend/src/store/index.ts:774-813 | a resume that fails leaves the screen as it is |
| ClientScreens.ChunkShows | frontend/src/store/index.ts:909-950 | what a chunk of the current run puts on screen |
| ClientScreens.StreamEndsExactly | frontend/src/store/index.ts:952-999 | a run ends idle if it was stopped by whatever sign, otherwise failed if it failed by any, otherwise done |
| ClientScreens.RunStartsExactly | frontend/src/store/index.ts:816-843 | a run starts if and only if nothing loads and none is under way |
| ClientScreens.ResumeStartsExactly | frontend/src/store/index.ts:747-779 | a resume starts if and only if the session on screen was interrupted, or failed where that may be resumed, and nothing else is under way |
| ClientScreens.SelectTurnedAway | frontend/src/store/index.ts:527-578 | which selections are turned away, and what the emptied one leaves |
| ClientScreens.PushesExactly | frontend/src/store/index.ts:472-525 | a push concerns the session on screen only |
| ClientScreens.ReconcileExactly | frontend/src/store/index.ts:429-471 | a list of sessions clears the screen if and only if it shows a main session with a transcript that is over and not listed |
| ClientScreens.CancelSentExactly | frontend/src/store/index.ts:1003-1033 | for which runs a cancel is sent, and to whom |
| ClientScreens.CancelAnswered | frontend/src/store/index.ts:1034-1057 | the answer to a cancel counts for a run of another client only, and only while its session is on screen |
| ClientScreens.SwitchForgets | frontend/src/store/index.ts:395-428 | switching the workspace leaves nothing behind but the numbering |
| BodyWalk.CollectProxies | src/voidcode/core/turns.py:28-55 | the worklist ends on any finite graph, cyclic or not, and the memo holds exactly the proxies reachable from the body |
| Diagnostics.AppendedIsBounded | src/voidcode/hook/executor.py:44-48 | appending one by one keeps the first 32 diagnostics and one sentinel if and only if there were more |
| Sorting.SortIsStable | src/voidcode/hook/typed.py:171-174 | sorting leaves elements of one key in the order they had |
| TypedHooks.NewRegistry | src/voidcode/hook/typed.py:149-174 | a registry is built if and only if names are unique and every binding is that of its declaration |
| TypedHooks.HandlersRunInOrder | src/voidcode/hook/typed.py:171-174 | exactly the bound handlers run, by priority, ties in the order of declaration |
| TypedHooks.Apply | src/voidcode/hook/typed.py:200-263 | the loop gives the left fold of the handlers, cut at the first block or failure; it refuses if a declaration is unbound |
| TypedHooks.OutcomeExact | src/voidcode/hook/typed.py:206-263 | recorded plus omitted handlers are those that ran, at most 32 are recorded, the action is a rewrite exactly if some step changed the arguments of an uncut run, a reason is given exactly for a block |
| TypedHooks.CutHidesTheRest | src/voidcode/hook/typed.py:228-255 | handlers behind the cut make no difference |
| TypedHooks.ArgumentsExactly | src/voidcode/hook/typed.py:206-255 | each handler sees the arguments as the last rewrite before it left them |
| TypedHooks.TextsExactly | src/voidcode/hook/typed.py:228-255 | every diagnostic before the cut is handed on, in order |
| TypedHooks.OutcomeTells | src/voidcode/hook/typed.py:206-263 | the outcome has the arguments of the last rewrite before the cut, the diagnostics up to it, and the reason of the handler that blocked or failed |
| TypedHooks.BindCompletes | src/voidcode/hook/typed.py:188-198 | binding succeeds exactly if every declaration has its binding or gets one that declares just it; then all are bound, in priority order |
| HookPlan.ValidatePlanBindings | src/voidcode/hook/plan.py:249-274 | the one-pass validation accepts exactly well-formed, contiguously numbered bindings without repeated identity or command |
| HookPlan.BindingIdsDiffer | src/voidcode/hook/plan.py:190-205 | bindings of different order never share an identity, whatever their surfaces |
| HookPlan.BindingExactly | src/voidcode/hook/plan.py:249-274 | which bindings a plan may hold, field by field |
| HookPlan.NewPlanExactly | src/voidcode/hook/plan.py:76-87 | a plan can be constructed if and only if version, name, revision, digest and bindings are sound; construction signs it and changes nothing else |
| HookPlan.MaterializedIsValid | src/voidcode/hook/plan.py:249-274 | what is planned from a configuration passes the validation of plans, unless its failure mode is unknown |
| HookPlan.PlanCommands | src/voidcode/hook/plan.py:173-205 | the nested loops plan every command of every surface, or raise exactly if one is no argv or comes twice |
| HookPlan.Materialize | src/voidcode/hook/plan.py:152-234 | when a configuration is planned, and what the plan is; it passes its own constructor |
| HookPlan.NegativeTimeoutIsLost | src/voidcode/hook/plan.py:76-149 | a plan with a timeout of -1 that its constructor takes and the reader of its payload refuses |
| HookPlan.UnknownModeIsLost | src/voidcode/hook/plan.py:76-149 | a plan with an unknown failure mode that meets the same end |
| HookPlan.PlanKeepsCommands | src/voidcode/hook/plan.py:106-108 | for every surface the plan holds the very commands of the configuration, in order |
| HookPlan.PlanRoundTrip | src/voidcode/hook/plan.py:89-149 | a plan comes back unchanged from its payload if and only if its failure mode is known and its timeout is not negative |
| HookPlan.ReadPlansAreSigned | src/voidcode/hook/plan.py:111-149 | what is read from a payload is valid and carries the digest of its own content |
| HookExecutor.RunHookCommands | src/voidcode/hook/executor.py:202-326 | the command loop with its early exits gives the outcome of running all commands up to the first that stops it |
| HookExecutor.OutcomeExact | src/voidcode/hook/executor.py:202-326 | events are numbered contiguously, one a command attempted, up to the first that crashes or asks to cancel; the outcome fails if and only if the last attempted crashes, cancels if and only if that one asks to or a closed gate crashes, and loses diagnostics if and only if a crash that is not closed comes after one was told |
| HookOutcomes.ReadExactly | src/voidcode/hook/executor.py:352-371 | a command asks to cancel if and only if it prints an object whose action is cancel; its other words are read likewise |
| HookOutcomes.EventsTell | src/voidcode/hook/executor.py:202-326 | the event of each command says whether it was skipped, ran or crashed, and what it said or how it failed |
| HookOutcomes.ToolHooksExactly | src/voidcode/hook/executor.py:123-160 | hooks of a tool cancel it if and only if the last one tried asks for it, or crashes before the tool: that gate fails closed. Whose commands run, with a plan and without, and when none do |
| HookOutcomes.LifecycleHooksExactly | src/voidcode/hook/executor.py:164-199 | other hooks cancel if and only if theirs is one of four surfaces and the last one tried asks for it; no crash cancels; surfaces of tools and unknown ones are refused |
| HookOutcomes.CommandsForExactly | src/voidcode/hook/plan.py:106-108 | the commands of a surface are those of its bindings, in order |
| HookOutcomes.PlannedCarries | src/voidcode/hook/plan.py:190-234 | every planned binding carries surface, phase, command, order and what the configuration says |
| HookExecutor.DiagnosticIsLostAfterTool | src/voidcode/hook/executor.py:145-155 | two commands after a tool: what the first told is lost when the second crashes |
| HookExecutor.DiagnosticIsLost | src/voidcode/hook/executor.py:160-199 | the same on a lifecycle surface |
| HookExecutor.PlanRefinesConfig | src/voidcode/hook/executor.py:123-199 | beside its configuration the plan materialized from it changes no outcome of tool or lifecycle hooks |
| HookExecutor.PlanAloneExactly | src/voidcode/hook/executor.py:131-144 | instead of its configuration it gives the same outcomes, on tool surfaces if and only if the tool filter holds nothing back |

## Left out

- The `runtime/` package (SQLite store, run loop, permissions, HTTP transport) is not part of this model.
- Providers, tools, subprocesses, JSON parsing, digests, uuids, clocks and logging are parameters or choices of the environment: a parser is any function to an optional value, a shell any function of command and timeout, a generated identity any text.
- Producers are assumed to report no execution facts of their own; only the host records requests and completions. A producer that forges them is not covered by the recovery theorems.
- Tools that raise, and hosts that raise anywhere, are choices of the environment in `HostedRun`; `DeterministicRun` assumes tools that return and has no follow-ups and no cancellation, because a follow-up raises the step and shifts the command index.
- Tool results keep name, success, output and error; bounds, attachments, usage and pricing are not modelled, nor is copying on the way into and out of the store, which values make unnecessary.
- Request metadata is reduced to the flag that a slash command was given; sessions, model selection and context windows are opaque to the engine and left out.
- Reading a page with booleans in place of numbers raises in the source; the model's parameters are integers.
- Resumption.ResumeSimulatesContinue: holds of cuts before a turn has ended, with a completed call of the last batch on record. Cuts before the first completion of a new batch are covered by `Resumption.ResumeRepeatsTurn`, if the producer repeats its turn and no turn was ended in between; a restart after a final turn goes back to the step of the last completion, as the source does, and there `CrashResume.RestartNeverFails` says what is pending.
- HostedRun lets a chain check out the last completion before a restart; checkouts of other points and forks are covered for the store alone (`FactTree.RunKeepsTree`).
- Fragmentation.FragmentationInvariance: the last part of a tool payload is left to `Fragmentation.LastPartExactly`, since cutting it can change what is read. Previews handed to a callback are stated as one text, not as a list of pieces.
- StreamAssembly.Assemble: covers the turn without its facts, usage and log lines, and does not tell the kinds of provider errors apart.
- AcpServer works on values rather than on objects: bindings and threads are records that atomic steps replace. Failing writes to stdout, a thread that cannot be started, and notifications are not modelled. New session identities are assumed to be unused.
- AcpResponses.NeverStuck: some step is always possible; it does not say that a runtime stream ends. `AcpCancel.AnswersInTime` bounds what follows once it has.
- ClientStore works on values rather than on objects, action by action. Approvals and questions, query caches, abort controllers, the active run's identity, error texts and a refresh that fails after a reply are left out.
- ClientStore.ClearedStaysClear: holds of the actions modelled; approvals, which can unlock a local run, are not among them.
- BodyWalk.CollectProxies: the copy that follows, made with the memo, is not modelled.
- Handlers of typed hooks are functions of the arguments; the rest of the event they see does not change from handler to handler. Their builtin instances, schema validation and the bounded key lists are left out.
- HookPlan reads fields of a persisted binding with their declared types, where the source takes some unchecked; timeouts are whole numbers, and canonical JSON is the value itself.
- HookExecutor leaves out the base payload, environment and policy record of an event; the read-only policy is kept.
- `lsp/`, `formatter/`, `command/`, the agent registry and the React components would add only easy members.
