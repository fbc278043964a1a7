# Lumi show engine: a verified model

Lumi drives stage lighting from DJ decks. Its engine is a set of small deterministic machines, and most of what it
promises is about whole runs of them. This project models those machines in Dafny and proves the promises for every
input, every interleaving and every reachable state.

`dafny verify dfyconfig.toml` checks everything. The files group as follows.

- **The show reducer.** `Domain` is the vocabulary, `Reducer` specifies one reduction, `RuntimeState` is the same
  reduction on a mutable record and is proved to take exactly the specified steps. `ShowRuns`, `ShowTheorems` and
  `ShowCommands` prove what every run keeps and promises: output safety, no output after a close until a Start, no
  repeated cue, consecutive command numbers, one command per revision, harmless duplicates. `ShowReplica` proves that
  the events and the decisions on them are enough to rebuild decks, plans, leader and active plan. `EventQueue` and
  `Runtime` add the bounded queue and the serialized runtime. `Validation` covers track and plan construction, over the
  ranges of `Spans`, and `ShowValidity` what constructed tracks, analysed or not, and valid plans buy in every run.
  `ShowWitnesses` holds runs from the initial state that show the exceptions named below.
- **The Beat Link Trigger deck source.** `BltMidi` is the wire format, `BltProvider` specifies the provider,
  `BltDeckSource` is the provider as an object. `BltSimulation`, `BltJoint` and `BltRuns` prove that in every
  interleaving with anything else the reducer accepts each of its observations and ends up with the same decks.
  `BltValidity` proves that these interleavings are runs of the reducer with constructed tracks, so that its theorems
  apply to them. `BltWitnesses` follows whole frames through such runs, up to one in which the lead is lost.
- **The live library resolver.** `Resolver` is the polling half, `ResolverRuns` every interleaving with the worker
  thread, `LibraryCache` the version-keyed cache with writers committing at any moment. `ResolverGap` shows
  the one place where the two halves do not meet, and `ResolverAnswers` runs them together and proves exactly when they
  do; `ResolverWitness` is such a run from the start.
- **Output machines.** `Executor`, `LaunchPolicy` and `LinkRelay`.
- **The library.** `History` rebuilds undo and redo from the log, `Timeline` and `TimelineEdits` cover phrase timelines
  and their edits, `Grid`, `SourcePhrases` and `PlaybackClock` the import of grids and phrases and the tick arithmetic.

Machines that update themselves are classes whose methods are proved against specification functions; the run theorems
are about those functions. Operations that can fail return the error as a value. Times, identifiers, texts and colours
are natural numbers, and widths are written out where a counter or a product can exceed them. The outcomes of I/O
(whether a connection opens, what a provider call answers, what the clock reads) are parameters.

Where the code does not do what one would expect, the code is modelled as it is and the exact condition is proved;
where it takes a run to get there, one is given:

- A Start sends nothing although a look is due only after an overload paused the live show
  (`OnlyAnOverloadKeepsTheLookDark`, `DarkAfterAnOverload`).
- Two kinds of step change the show without a new revision (`SilentChanges`, `HydratesSilently`,
  `DropsThePlanSilently`).
- A fallback plan can be active until the next leader report (`LeaderReportDropsFallbacks`,
  `FallbackIsActiveUntilTheNextReport`).
- After hydration the next revision of a stored plan can be refused (`RevisionIsAccepted`,
  `RevisionRefusedAfterHydration`).
- A reloaded leading deck is not announced again (`LeadAnnounced`, `ReloadingLosesTheLead`, `LeadIsLost`).
- A commit of another protocol version keeps the assembler (`OnlyTheRightVersionResets`).
- An overload's critical flag says that a critical event met a full queue, not that one was lost
  (`FlagMeansACriticalMetAFullQueue`, `LossNeedsAQueueOfCriticals`, `CriticalFlagWithoutLoss`).
- A completed cue can be triggered again (`RepeatedTrigger`, `CompletedTwice`), and the watermark knows one context
  (`OneContextRemembered`, `TakingTurnsRepeats`).
- The relay does not repeat a failed synchronize (`LosslessExactly`, `MissedForGood`, `ChangeIsMissed`).
- An answer that no poll accepted is still cached (`UnchangedRefersToTheLastAnswer`, `FirstHandedIsUnchanged`).
- The clock anchor divides by zero after the last marker for a fallback of zero and no measurable tempo
  (`AnchorExists`, `FallbackOfZeroFails`).
- A copied timeline makes the history unreadable until the next edit, which then cannot be undone to the copy
  (`CorruptExactlyAfterACopy`, `CopyIsSkipped`).

## Model

| member | source | states |
|---|---|---|
| Domain.RingKeepsLatest | engine/crates/lumi-domain/src/state.rs:248-267 | however many entries were pushed, a ring holds exactly the latest ones, in order |
| ShowRuns.DeckKeeps | engine/crates/lumi-domain/src/reducer.rs:189-234 | status, hydration, position and tempo reports keep leader, plans and active plan consistent |
| ShowRuns.TransportKeeps | engine/crates/lumi-domain/src/reducer.rs:235-414 | seeks, play-state changes and phrase changes keep leader, plans and active plan consistent |
| ShowRuns.LoadKeeps | engine/crates/lumi-domain/src/state.rs:212-246 | a load keeps every plan on its deck's current load and drops the active plan of the deck |
| ShowRuns.UnloadKeeps | engine/crates/lumi-domain/src/reducer.rs:350-376 | an unload leaves no leader, plan or active plan without its deck |
| ShowRuns.LeadKeeps | engine/crates/lumi-domain/src/reducer.rs:415-467 | after a leader change the active plan is none or the stored plan of the new leader |
| ShowRuns.ExecutionFacts | engine/crates/lumi-domain/src/reducer.rs:496-548 | at most one request results; it is current, differs from the recorded cue, becomes the record and takes the next command number |
| ShowRuns.PlaceRecord | engine/crates/lumi-domain/src/reducer.rs:188-467 | the cue record survives an observation unless the observation is of a kind that clears it and was accepted |
| ShowRuns.ObservationStep | engine/crates/lumi-domain/src/reducer.rs:162-486 | one observation keeps the invariant and obeys the step facts about cues, record and counters |
| ShowRuns.CommandStep | engine/crates/lumi-domain/src/reducer.rs:550-623 | one command keeps the invariant and obeys the step facts |
| ShowRuns.StartStep | engine/crates/lumi-domain/src/reducer.rs:605-620 | a Start keeps the invariant and sends at most the current cue |
| ShowRuns.CloseStep | engine/crates/lumi-domain/src/reducer.rs:590-604 | Arm, Pause and Off keep the invariant and send no cue |
| ShowRuns.PlanKeeps | engine/crates/lumi-domain/src/reducer.rs:639-671 | accepting a plan keeps it on its deck's load and makes the leader's active plan the stored one |
| ShowRuns.EffectStep | engine/crates/lumi-domain/src/reducer.rs:625-680 | one worker result keeps the invariant and sends no cue |
| ShowRuns.ShowStep | engine/crates/lumi-domain/src/reducer.rs:98-125 | every event, accepted, keeps the invariant and obeys the step facts |
| ShowRuns.RunKeepsConsistent | engine/crates/lumi-domain/src/reducer.rs:98-150 | in every reachable state the leader is loaded, plans belong to current loads, the active plan is none or the leader's stored plan |
| Reducer.PhraseIndexIsFirst | engine/crates/lumi-domain/src/reducer.rs:488-494 | of all phrases that cover a beat the first listed one is found |
| ShowReplica.PlaceTells | engine/crates/lumi-domain/src/reducer.rs:188-467 | what an observation does to decks, plans, leader and active plan follows from it and the decision taken, without comparing loads, positions, tempos or phrases |
| ShowReplica.ResultMirrors | engine/crates/lumi-domain/src/reducer.rs:625-680 | what a worker result does to them follows from it and the decision taken |
| ShowReplica.DecisionsTellTheShow | engine/crates/lumi-domain/src/reducer.rs:98-150 | in every run the decks, the stored plans, the leader and the active plan are rebuilt exactly from the events and the decisions on them |
| ShowValidity.PlaceKeepsValid | engine/crates/lumi-domain/src/reducer.rs:188-467 | with metadata from either constructor every deck keeps such metadata, a tempo in range and a current phrase of its track, if any |
| ShowValidity.RunIsValid | engine/crates/lumi-domain/src/reducer.rs:98-150 | in every run fed with constructed tracks, analysed or not, and valid plans, every deck has such a track, a tempo in range and a phrase of that track, and every stored plan and the active one are valid |
| ShowValidity.LookIsDueExactly | engine/crates/lumi-domain/src/reducer.rs:496-518 | in such runs a look is due exactly when the leading deck plays a phrase within the number of the active plan's cues |
| ShowValidity.EveryPhraseHasItsLook | engine/crates/lumi-domain/src/reducer.rs:496-518 | and always, when the plan has as many cues as the track has phrases |
| ShowValidity.NoLookWithoutAnalysis | engine/crates/lumi-domain/src/track.rs:237-239 | in such runs a leading deck without analysis has no look due, whatever plan is active |
| ShowValidity.OnlyAnalysedTracksAreShown | engine/crates/lumi-domain/src/track.rs:237-239 | in such runs every cue ever sent is for a deck with an analysed track and for a phrase of it |
| ShowTheorems.OutputSafety | engine/crates/lumi-domain/src/reducer.rs:496-548 | every cue ever sent is the active plan's cue for the current phrase of the playing, leading deck under a live operation |
| ShowTheorems.ClosingStep | engine/crates/lumi-domain/src/reducer.rs:105-124 | after an order to close the output the operation is not live |
| ShowTheorems.SendingStep | engine/crates/lumi-domain/src/reducer.rs:590-620 | a cue is sent only in a live operation or by an accepted Start |
| ShowTheorems.StaysClosed | engine/crates/lumi-domain/src/reducer.rs:550-623 | without an accepted Start the operation does not become live again |
| ShowTheorems.ClosedUntilStart | engine/crates/lumi-domain/src/reducer.rs:105-124 | between an order to close and a later cue a Start was accepted, in every run |
| ShowTheorems.SentRecord | engine/crates/lumi-domain/src/reducer.rs:519-547 | a sent cue is on record afterwards, and resending the recorded cue needs a clearing event in that very step |
| ShowTheorems.RecordPersists | engine/crates/lumi-domain/src/reducer.rs:254-332 | the record of a sent cue persists until something clears it or another cue is sent |
| ShowTheorems.NoRepeatedCue | engine/crates/lumi-domain/src/reducer.rs:519-547 | two successive cues of a run are the same execution only if a seek, stop, load, unload, Pause or Off intervened |
| ShowTheorems.CommandIdsAreConsecutive | engine/crates/lumi-domain/src/reducer.rs:529-546 | the k-th request of every run carries command number k |
| ShowTheorems.RunIsSound | engine/crates/lumi-domain/src/reducer.rs:127-142 | in every reachable state revision and command counter stay within the number of processed events |
| ShowTheorems.SoundStepDoesNotOverflow | engine/crates/lumi-domain/src/reducer.rs:127-142 | a sound state with room for one more event overflows neither the revision nor the command counter |
| ShowTheorems.OverflowOnlyWhenFull | engine/crates/lumi-domain/src/reducer.rs:529-532 | a command overflow is reported only at the largest counter value, and no step reports a revision overflow of its own |
| ShowTheorems.NoCounterOverflow | engine/crates/lumi-domain/src/reducer.rs:127-142 | in no run can an event find the revision or the command counter exhausted before the event counter is |
| ShowCommands.RevisionStep | engine/crates/lumi-domain/src/reducer.rs:137-142 | an event raises the revision by at most one, and an accepted command by exactly one |
| ShowCommands.RevisionMonotone | engine/crates/lumi-domain/src/reducer.rs:137-142 | the revision never decreases along a run |
| ShowCommands.OneCommandPerRevision | engine/crates/lumi-domain/src/reducer.rs:550-593 | over any run the expected revisions of accepted commands strictly increase |
| ShowCommands.StartSends | engine/crates/lumi-domain/src/reducer.rs:605-622 | an accepted Start sends the due look exactly when there is one that is not on record, and nothing else |
| ShowCommands.RecordStaysEmpty | engine/crates/lumi-domain/src/reducer.rs:590-600 | a cleared record stays empty until the next accepted Start |
| ShowCommands.ClosingCommand | engine/crates/lumi-domain/src/reducer.rs:594-600 | an accepted Arm, Pause or Off leaves no cue on record and the operation not live |
| ShowCommands.StartRestoresTheLook | engine/crates/lumi-domain/src/reducer.rs:590-622 | after any accepted Arm, Pause or Off the next accepted Start sends the cue then due, whatever happened in between |
| ShowCommands.OverloadKeepsTheLookDark | engine/crates/lumi-domain/src/reducer.rs:105-109 | after an overload pause a Start leaves the look that was already scheduled unsent |
| ShowCommands.OnlyAnOverloadKeepsTheLookDark | engine/crates/lumi-domain/src/reducer.rs:105-109 | in every run, when an accepted Start with a due look sends nothing, an overload paused the live show before it and no command was accepted in between |
| ShowCommands.StepCongruence | engine/crates/lumi-domain/src/reducer.rs:98-150 | states that differ in the journal only take the same steps |
| ShowCommands.DuplicateStep | engine/crates/lumi-domain/src/reducer.rs:166-172 | an already seen observation, command or result changes nothing but the journal |
| ShowCommands.DuplicateIsHarmless | engine/crates/lumi-domain/src/reducer.rs:98-186 | inserting an already seen event anywhere in a run changes neither the effects nor the final show |
| ShowCommands.TimelineHoldsTheLatest | engine/crates/lumi-domain/src/reducer.rs:127-136 | the timeline of every run is exactly its latest 256 accepted events with their numbers, times, kinds and decisions |
| ShowCommands.SilentObservation | engine/crates/lumi-domain/src/reducer.rs:470-484 | an observation without a new revision alters the visible show exactly when it is in sequence and is a hydration that alters the deck it names, or a leader report for a load that is not there while a plan is active |
| ShowCommands.SilentCommand | engine/crates/lumi-domain/src/reducer.rs:554-560 | a command that reports no change changes nothing |
| ShowCommands.SilentChanges | engine/crates/lumi-domain/src/reducer.rs:462-484 | told before the step: a reduction without a new revision alters the visible show exactly in those two cases |
| ShowWitnesses.GoesLive | engine/crates/lumi-domain/src/reducer.rs:550-623 | a run from the initial state to a live show with one cue sent |
| ShowWitnesses.ResentAfterASeek | engine/crates/lumi-domain/src/reducer.rs:235-288 | a run that sends the same cue twice, with the clearing seek in between |
| ShowWitnesses.ClosedAndReopened | engine/crates/lumi-domain/src/reducer.rs:590-620 | a run in which a Pause closes the output and the next Start sends the look again |
| ShowWitnesses.DarkAfterAnOverload | engine/crates/lumi-domain/src/reducer.rs:105-109 | a run in which a Start after an overload sends nothing although a look is due |
| ShowWitnesses.HydratesSilently | engine/crates/lumi-domain/src/reducer.rs:207-218 | a run in which a hydration changes the show without a new revision |
| ShowWitnesses.DropsThePlanSilently | engine/crates/lumi-domain/src/reducer.rs:415-467 | a run in which a refused leader report drops the active plan without a new revision |
| ShowWitnesses.RevisionRefusedAfterHydration | engine/crates/lumi-domain/src/reducer.rs:639-671 | a run in which a hydration makes the next revision of the stored plan be refused |
| ShowWitnesses.FallbackIsActiveUntilTheNextReport | engine/crates/lumi-domain/src/reducer.rs:667-669 | a run in which a fallback plan is active until the leader is reported again |
| ShowWitnesses.RunsAreAdmissible | engine/crates/lumi-domain/src/track.rs:240-326 | all these runs are fed with constructed tracks and valid plans |
| RuntimeStates.RuntimeState.constructor | engine/crates/lumi-domain/src/state.rs:113-137 | a new runtime state is the initial state of the specification |
| RuntimeStates.RuntimeState.Clone | engine/crates/lumi-domain/src/reducer.rs:99-99 | a copy shows the same state |
| RuntimeStates.RuntimeState.PushDiagnostic | engine/crates/lumi-domain/src/state.rs:248-253 | appends to the ring of 64 diagnostics |
| RuntimeStates.RuntimeState.PushOutputEffect | engine/crates/lumi-domain/src/state.rs:255-260 | appends to the ring of 256 output effects |
| RuntimeStates.RuntimeState.PushTimeline | engine/crates/lumi-domain/src/state.rs:262-267 | appends to the ring of 256 timeline entries |
| RuntimeStates.RuntimeState.LoadTrack | engine/crates/lumi-domain/src/state.rs:212-246 | the in-place load is the specified load |
| RuntimeStates.RuntimeState.ForgetScheduled | engine/crates/lumi-domain/src/state.rs:233-238 | the cue record is dropped exactly if it is the deck's |
| RuntimeStates.RuntimeState.ForgetActive | engine/crates/lumi-domain/src/state.rs:239-245 | the active plan is dropped exactly if it is the deck's |
| RuntimeStates.RuntimeState.Execute | engine/crates/lumi-domain/src/reducer.rs:496-548 | the in-place execution sends and records exactly the specified cue |
| RuntimeStates.RuntimeState.ExecuteOr | engine/crates/lumi-domain/src/reducer.rs:265-283 | the decision is a scheduled execution exactly when a cue was sent |
| RuntimeStates.RuntimeState.Seeked | engine/crates/lumi-domain/src/reducer.rs:235-288 | the in-place seek agrees with its specification |
| RuntimeStates.RuntimeState.PlayStateChanged | engine/crates/lumi-domain/src/reducer.rs:304-349 | the in-place play-state change agrees with its specification |
| RuntimeStates.RuntimeState.DropDeck | engine/crates/lumi-domain/src/reducer.rs:354-373 | everything that belongs to the deck goes, and nothing else |
| RuntimeStates.RuntimeState.Unloaded | engine/crates/lumi-domain/src/reducer.rs:350-376 | the in-place unload agrees with its specification |
| RuntimeStates.RuntimeState.PhraseEnteredOn | engine/crates/lumi-domain/src/reducer.rs:377-414 | the in-place phrase change agrees with its specification |
| RuntimeStates.RuntimeState.LeaderChangedTo | engine/crates/lumi-domain/src/reducer.rs:415-467 | the in-place leader change agrees with its specification |
| RuntimeStates.RuntimeState.PutBack | engine/crates/lumi-domain/src/reducer.rs:246-262 | a deck is replaced, and its last cue forgotten exactly if asked |
| RuntimeStates.RuntimeState.Described | engine/crates/lumi-domain/src/reducer.rs:195-218 | load and hydration in place agree with their specification |
| RuntimeStates.RuntimeState.Noted | engine/crates/lumi-domain/src/reducer.rs:190-234 | status, position and tempo in place agree with their specification |
| RuntimeStates.RuntimeState.Observed | engine/crates/lumi-domain/src/reducer.rs:188-468 | every observation in place agrees with its specification |
| RuntimeStates.RuntimeState.ReduceObservation | engine/crates/lumi-domain/src/reducer.rs:162-486 | envelope checks, observation and revision flag agree with the specification |
| RuntimeStates.RuntimeState.ReduceCommand | engine/crates/lumi-domain/src/reducer.rs:550-623 | the in-place command agrees with its specification, errors included |
| RuntimeStates.RuntimeState.ReduceEffectResult | engine/crates/lumi-domain/src/reducer.rs:625-680 | the in-place worker result agrees with its specification, errors included |
| RuntimeStates.RuntimeState.RuntimeStart | engine/crates/lumi-domain/src/reducer.rs:152-160 | a start is accepted once |
| RuntimeStates.RuntimeState.Overloaded | engine/crates/lumi-domain/src/reducer.rs:105-124 | an overload degrades health, pauses a live show and is diagnosed |
| RuntimeStates.RuntimeState.Take | engine/crates/lumi-domain/src/reducer.rs:100-125 | every event in place changes the show as specified |
| RuntimeStates.RuntimeState.Enter | engine/crates/lumi-domain/src/reducer.rs:127-136 | the decision is numbered, remembered and entered in the timeline |
| RuntimeStates.RuntimeState.Conclude | engine/crates/lumi-domain/src/reducer.rs:127-142 | the ruling is entered and the revision counted, or the exhausted counter reported |
| RuntimeStates.RuntimeState.Reduce | engine/crates/lumi-domain/src/reducer.rs:98-150 | a reduction leaves the given state alone and returns a copy that is the specified next state, or the specified error |
| EventQueue.LastNonCritical | engine/crates/lumi-domain/src/queue.rs:48-50 | finds the last observation in the queue, or that there is none |
| EventQueue.BoundedEventQueue.constructor | engine/crates/lumi-domain/src/queue.rs:15-24 | a new queue is empty and has its capacity |
| EventQueue.BoundedEventQueue.RecordOverload | engine/crates/lumi-domain/src/queue.rs:75-91 | occurrences add up, saturating, and the critical flag is kept once set |
| EventQueue.BoundedEventQueue.FindLastNonCritical | engine/crates/lumi-domain/src/queue.rs:48-50 | the search from the back finds the specified position |
| EventQueue.BoundedEventQueue.PushBack | engine/crates/lumi-domain/src/queue.rs:41-66 | accepts, evicts or refuses exactly as specified |
| EventQueue.BoundedEventQueue.PopFront | engine/crates/lumi-domain/src/queue.rs:68-73 | a pending overload is delivered before any queued event |
| EventQueue.BoundedEventQueue.TryNew | engine/crates/lumi-domain/src/queue.rs:15-24 | a queue is refused exactly for capacity zero |
| EventQueue.CriticalsWithout | engine/crates/lumi-domain/src/queue.rs:51-58 | evicting an observation does not touch the critical events |
| EventQueue.AcceptConserves | engine/crates/lumi-domain/src/queue.rs:42-46 | accepting an event keeps the ledger balanced |
| EventQueue.EvictionConserves | engine/crates/lumi-domain/src/queue.rs:47-59 | evicting for a critical event keeps the ledger balanced and loses only an observation |
| EventQueue.RejectConserves | engine/crates/lumi-domain/src/queue.rs:62-65 | a refused event is booked as lost |
| EventQueue.DequeueConserves | engine/crates/lumi-domain/src/queue.rs:68-73 | delivering the head keeps the ledger balanced |
| EventQueue.QueueConserves | engine/crates/lumi-domain/src/queue.rs:41-91 | over every run the length stays within capacity plus one, delivered events are the accepted ones in order minus evicted observations, critical events are all delivered in order, and below saturation losses equal the reported occurrences |
| EventQueue.CriticalRefusedOnlyWhenFull | engine/crates/lumi-domain/src/queue.rs:41-66 | a critical event is refused exactly by a queue full of critical events |
| EventQueue.FlagMeansACriticalMetAFullQueue | engine/crates/lumi-domain/src/queue.rs:75-91 | over every run a pending overload carries the critical flag exactly when a critical event met a full queue since the last report |
| EventQueue.LossNeedsAQueueOfCriticals | engine/crates/lumi-domain/src/queue.rs:47-65 | over every run a critical event is lost since the last report exactly when one of them met a queue of critical events only |
| EventQueue.CriticalFlagWithoutLoss | engine/crates/lumi-domain/src/queue.rs:47-59 | a run in which the reported overload carries the critical flag and no critical event was lost |
| Runtime.SerializedRuntime.constructor | engine/crates/lumi-domain/src/runtime.rs:16-21 | a new runtime has an empty queue and the initial state |
| Runtime.SerializedRuntime.TryNew | engine/crates/lumi-domain/src/runtime.rs:16-21 | a runtime is refused exactly for capacity zero |
| Runtime.SerializedRuntime.SubmitEvent | engine/crates/lumi-domain/src/runtime.rs:38-40 | submitting changes the queue only |
| Runtime.SerializedRuntime.ProcessEvent | engine/crates/lumi-domain/src/runtime.rs:42-57 | processing takes the next event off, replaces the state by its reduction and returns the effects and the new revision, or keeps the state on an error |
| Runtime.RunningIsSound | engine/crates/lumi-domain/src/runtime.rs:42-57 | in every run of submissions and processing the state is sound |
| Runtime.OverloadOutranksOlderCommands | engine/crates/lumi-domain/src/runtime.rs:42-57 | once an overload is pending, no command expecting a revision at or below the present one is ever accepted |
| Runtime.OverloadClosesUntilNewerStart | engine/crates/lumi-domain/src/runtime.rs:38-57 | once an overload is pending, a cue is sent only after a Start that knew a revision newer than the overload |
| BltMidi.Chunks | engine/crates/lumi-blt-midi/src/lib.rs:695-710 | splits a number into the given count of 7-bit chunks |
| BltMidi.ChunksRoundTrip | engine/crates/lumi-blt-midi/src/lib.rs:580-590 | joining the chunks of a number gives the number back |
| BltMidi.ChunksInverse | engine/crates/lumi-blt-midi/src/lib.rs:695-710 | splitting the joined chunks gives the chunks back |
| BltMidi.Decode7 | engine/crates/lumi-blt-midi/src/lib.rs:580-590 | the shifting loop computes the joined value and never leaves 32 bits on the way |
| BltMidi.FieldsOfFrameBytes | engine/crates/lumi-blt-midi/src/lib.rs:540-578 | decoding the printed bytes of any frame that fits the wire gives that frame |
| BltProvider.DecodedFramesAreBounded | engine/crates/lumi-blt-midi/src/lib.rs:540-578 | whatever the assembler holds, a decoded frame is in range |
| BltProvider.DurationExceedsBeat | engine/crates/lumi-blt-midi/src/lib.rs:603-612 | for every decoded loaded frame the duration fits 32 bits and exceeds the beat, and the metadata is valid |
| BltProvider.DurationIsChecked | engine/crates/lumi-blt-midi/src/lib.rs:603-612 | for every decoded loaded frame no checked product overflows and the metadata constructor accepts |
| BltProvider.FailsOnlyByExhaustion | engine/crates/lumi-blt-midi/src/lib.rs:295-466 | applying a decoded frame fails exactly when there is no room, and only for want of a load or a sequence number |
| BltProvider.IngestFailsOnlyByExhaustion | engine/crates/lumi-blt-midi/src/lib.rs:149-192 | whatever bytes arrive, ingesting fails exactly when there is no room, and only for those two reasons |
| BltProvider.IdentityIsExact | engine/crates/lumi-blt-midi/src/lib.rs:592-601 | two frames name the same load exactly when player, slot and track agree |
| BltProvider.OnlyTheRightVersionResets | engine/crates/lumi-blt-midi/src/lib.rs:160-163 | a commit empties the assembler exactly when it names this protocol version |
| BltProvider.FieldArrives | engine/crates/lumi-blt-midi/src/lib.rs:509-538 | a field byte changes the assembler and nothing else |
| BltProvider.FieldsArrive | engine/crates/lumi-blt-midi/src/lib.rs:509-538 | after n printed bytes the assembler holds those n bytes, whatever it held before |
| BltProvider.CommitArrives | engine/crates/lumi-blt-midi/src/lib.rs:160-192 | a commit of a full assembler applies, drops or refuses exactly the frame it holds |
| BltProvider.EncodedFrameCommits | engine/crates/lumi-blt-midi/src/lib.rs:643-710 | ingesting the printed messages of a frame over any leftovers commits exactly that frame |
| BltDeckSource.BltMidiDeckSource.constructor | engine/crates/lumi-blt-midi/src/lib.rs:123-147 | a new source has reported that it is starting |
| BltDeckSource.BltMidiDeckSource.Emit | engine/crates/lumi-blt-midi/src/lib.rs:468-485 | an observation is queued under the next number, or the counter is exhausted |
| BltDeckSource.BltMidiDeckSource.Drop | engine/crates/lumi-blt-midi/src/lib.rs:310-321 | a loaded deck is taken off and its unload reported |
| BltDeckSource.BltMidiDeckSource.AnnounceLoad | engine/crates/lumi-blt-midi/src/lib.rs:352-402 | a new load is announced in the specified order |
| BltDeckSource.BltMidiDeckSource.LoadFrame | engine/crates/lumi-blt-midi/src/lib.rs:328-402 | loading a frame emits and stores what is specified, or reports the first of its four errors |
| BltDeckSource.BltMidiDeckSource.UpdateFrame | engine/crates/lumi-blt-midi/src/lib.rs:403-448 | updating a deck emits and stores what is specified, or reports the first of its errors |
| BltDeckSource.BltMidiDeckSource.TakeLead | engine/crates/lumi-blt-midi/src/lib.rs:450-464 | a deck takes the lead and announces it, or is reported missing |
| BltDeckSource.BltMidiDeckSource.ApplyLoaded | engine/crates/lumi-blt-midi/src/lib.rs:323-466 | a loaded frame is applied as specified, or its first error reported |
| BltDeckSource.BltMidiDeckSource.AnnounceReady | engine/crates/lumi-blt-midi/src/lib.rs:295-309 | the first frame reports that the source is ready |
| BltDeckSource.BltMidiDeckSource.ApplyFrame | engine/crates/lumi-blt-midi/src/lib.rs:295-466 | a frame is applied as specified, or its first error reported; a decoded one fails exactly for want of room |
| BltDeckSource.BltMidiDeckSource.Take | engine/crates/lumi-blt-midi/src/lib.rs:149-192 | counts, writes, resets and commits as specified, and returns exactly the frame committed |
| BltDeckSource.BltMidiDeckSource.Ingest | engine/crates/lumi-blt-midi/src/lib.rs:149-192 | a message is ingested as specified, and the call fails exactly for want of a load or a sequence number |
| BltDeckSource.BltMidiDeckSource.ExpireLane | engine/crates/lumi-blt-midi/src/lib.rs:203-226 | an expired channel loses deck, lead and assembler |
| BltDeckSource.BltMidiDeckSource.ExpireStale | engine/crates/lumi-blt-midi/src/lib.rs:197-228 | exactly the channels beyond the age are expired |
| BltDeckSource.BltMidiDeckSource.Clear | engine/crates/lumi-blt-midi/src/lib.rs:272-293 | all decks are unloaded and every channel is reset |
| BltSimulation.UnloadFits | engine/crates/lumi-blt-midi/src/lib.rs:310-321 | the observations of an unload fit the situation and lead to the decks without it |
| BltSimulation.NewDeckFits | engine/crates/lumi-blt-midi/src/lib.rs:352-402 | the observations of a new load fit and lead to the announced transport |
| BltSimulation.UpdateFits | engine/crates/lumi-blt-midi/src/lib.rs:403-448 | the observations of an update fit and lead to the frame's transport |
| BltSimulation.FrameFits | engine/crates/lumi-blt-midi/src/lib.rs:295-466 | every decoded frame is reported by fitting observations that lead to the source's new decks |
| BltSimulation.ExpiryFits | engine/crates/lumi-blt-midi/src/lib.rs:197-228 | the observations of an expiry fit and lead to the remaining decks |
| BltSimulation.ClearFits | engine/crates/lumi-blt-midi/src/lib.rs:272-293 | the observations of a clear fit and lead to no decks |
| BltJoint.PlaceFollows | engine/crates/lumi-domain/src/reducer.rs:188-467 | a fitting observation is not ignored and moves the reducer's picture of decks 1 and 2 as the protocol says |
| BltJoint.ObservationFollows | engine/crates/lumi-domain/src/reducer.rs:162-486 | a fitting, timely observation is taken and its envelope recorded |
| BltJoint.DeliveredStep | engine/crates/lumi-domain/src/reducer.rs:98-150 | reducing a fitting, timely observation succeeds in every sound state with room for one more event |
| BltJoint.ObservationShape | engine/crates/lumi-domain/src/reducer.rs:162-186 | an observation records at most its own source's envelope |
| BltJoint.OtherObservationKeeps | engine/crates/lumi-domain/src/reducer.rs:162-486 | observations of other sources leave decks 1 and 2, the leader and this source's envelopes alone |
| BltJoint.OtherEventKeeps | engine/crates/lumi-domain/src/reducer.rs:98-125 | commands, results, starts and overloads leave decks, leader and envelopes alone |
| BltJoint.ExternalStep | engine/crates/lumi-domain/src/reducer.rs:98-150 | no non-interfering event changes what the source shares with the reducer |
| BltRuns.EmitTracks | engine/crates/lumi-blt-midi/src/lib.rs:468-485 | emitting fitting observations keeps source, channel and reducer in step |
| BltRuns.ReceiveTracks | engine/crates/lumi-blt-midi/src/lib.rs:149-192 | ingesting any message keeps them in step |
| BltRuns.ExpireTracks | engine/crates/lumi-blt-midi/src/lib.rs:197-228 | expiry keeps them in step |
| BltRuns.ClearTracks | engine/crates/lumi-blt-midi/src/lib.rs:272-293 | clearing keeps them in step |
| BltRuns.HeadIsDue | engine/crates/lumi-blt-midi/src/lib.rs:468-485 | the head of the channel is timely and fits the reducer's state |
| BltRuns.DeliverTracks | engine/crates/lumi-domain/src/reducer.rs:162-486 | delivering the head is accepted and keeps them in step |
| BltRuns.OtherTracks | engine/crates/lumi-domain/src/reducer.rs:98-150 | anything else that reaches the reducer keeps them in step |
| BltRuns.RunTracks | engine/crates/lumi-blt-midi/src/lib.rs:149-293 | in every interleaving the pending observations bring the reducer exactly to the source's decks |
| BltRuns.NothingIsRejected | engine/crates/lumi-domain/src/reducer.rs:162-376 | in every interleaving no observation of the source is stale, regressed or mismatched |
| BltRuns.DrainedAgree | engine/crates/lumi-blt-midi/src/lib.rs:295-466 | whenever nothing is pending, load, beat, tempo and play state of decks 1 and 2 agree, and the reducer's leader is the source's or none |
| BltRuns.LeadAnnounced | engine/crates/lumi-blt-midi/src/lib.rs:450-464 | after a loaded master frame the deck is the announced leader exactly when the source did not already count it as leader, or it was announced and not reloaded since |
| BltWitnesses.FrameReceived | engine/crates/lumi-blt-midi/src/lib.rs:149-192 | in every run, receiving the printed messages of a frame is committing that frame |
| BltWitnesses.DeliverAll | engine/crates/lumi-blt-midi/src/lib.rs:468-485 | in every run, delivering all that is pending brings the reducer to what the source has told |
| BltWitnesses.FrameLead | engine/crates/lumi-blt-midi/src/lib.rs:450-464 | after a loaded master frame the told leader is the frame's deck exactly when the source did not already count it as leader, or it was told so and is not reloaded; otherwise it is none |
| BltWitnesses.ReloadingLosesTheLead | engine/crates/lumi-blt-midi/src/lib.rs:310-464 | in every run, giving the leading deck of a drained source another track leaves the reducer without a leader while the source has one |
| BltWitnesses.LeadIsLost | engine/crates/lumi-blt-midi/src/lib.rs:310-464 | a run from the start in which that happens |
| BltValidity.JointIsARun | engine/crates/lumi-blt-midi/src/lib.rs:468-485 | the reducer's state in every joint run is that of one of its own runs, so every theorem about runs applies |
| BltValidity.JointIsAdmissible | engine/crates/lumi-blt-midi/src/lib.rs:344-351 | whatever bytes the source receives, it feeds the reducer only with tracks that a constructor lets through |
| BltValidity.JointIsValid | engine/crates/lumi-blt-midi/src/lib.rs:295-466 | in every joint run with admissible other events the show is valid |
| BltValidity.NoLookBeforeAnalysis | engine/crates/lumi-domain/src/track.rs:237-239 | and a leading deck has no look due before its analysis has arrived |
| Resolver.Chosen | engine/crates/lumi-engine/src/live_library_resolver.rs:186-191 | the chosen slot is due and has waited longest, the lowest deck among equals; none is chosen exactly when none is due |
| Resolver.LiveLibraryResolver.Disabled | engine/crates/lumi-engine/src/live_library_resolver.rs:52-62 | starts without a worker |
| Resolver.LiveLibraryResolver.Spawn | engine/crates/lumi-engine/src/live_library_resolver.rs:101-139 | starts with a worker and empty channels |
| Resolver.LiveLibraryResolver.Note | engine/crates/lumi-engine/src/live_library_resolver.rs:143-153 | keeps, drops, inserts and replaces slots as specified, six keys at most |
| Resolver.LiveLibraryResolver.TryReceive | engine/crates/lumi-engine/src/live_library_resolver.rs:156-174 | takes one reply, clears the key in flight if answered, and accepts it exactly if its slot still holds the key |
| Resolver.LiveLibraryResolver.Drain | engine/crates/lumi-engine/src/live_library_resolver.rs:154-175 | takes up to four replies as specified |
| Resolver.LiveLibraryResolver.Refuse | engine/crates/lumi-engine/src/live_library_resolver.rs:176-185 | without a worker refuses and postpones every due slot |
| Resolver.LiveLibraryResolver.Send | engine/crates/lumi-engine/src/live_library_resolver.rs:186-197 | sends the chosen key when nothing is in flight |
| Resolver.LiveLibraryResolver.PollOnce | engine/crates/lumi-engine/src/live_library_resolver.rs:142-199 | a poll is exactly its specification |
| ResolverRuns.PollIsSteps | engine/crates/lumi-engine/src/live_library_resolver.rs:142-199 | an uninterrupted sequence of a poll's atomic steps is one call of the resolver |
| ResolverRuns.BeginKeeps | engine/crates/lumi-engine/src/live_library_resolver.rs:143-153 | noting keys keeps the protocol |
| ResolverRuns.ReceiveKeeps | engine/crates/lumi-engine/src/live_library_resolver.rs:155-175 | receiving keeps the protocol |
| ResolverRuns.WorkerKeeps | engine/crates/lumi-engine/src/live_library_resolver.rs:110-130 | every worker step, also the end of its thread, keeps the protocol |
| ResolverRuns.FinishKeeps | engine/crates/lumi-engine/src/live_library_resolver.rs:176-198 | refusing and sending keep the protocol |
| ResolverRuns.RunKeepsProtocol | engine/crates/lumi-engine/src/live_library_resolver.rs:101-199 | the protocol holds in every interleaving |
| ResolverRuns.OneRequestOneReply | engine/crates/lumi-engine/src/live_library_resolver.rs:101-199 | the key in flight is in exactly one place, no send finds a full channel, and the replies received are those of the requests sent, in order |
| ResolverRuns.AcceptedIsCurrent | engine/crates/lumi-engine/src/live_library_resolver.rs:168-174 | whatever a poll accepts is for the key its slot holds |
| ResolverRuns.DeadWorkerIsReported | engine/crates/lumi-engine/src/live_library_resolver.rs:158-185 | the poll that finds the worker gone refuses every due slot |
| ResolverRuns.ServedFallsBehind | engine/crates/lumi-engine/src/live_library_resolver.rs:186-197 | a deck served while another waits becomes due later than the waiting one |
| ResolverRuns.StaysBehind | engine/crates/lumi-engine/src/live_library_resolver.rs:142-199 | with strictly increasing poll times it stays later |
| ResolverRuns.BehindIsNotServed | engine/crates/lumi-engine/src/live_library_resolver.rs:186-191 | a deck due later than a waiting one is not served |
| ResolverRuns.OthersAreServedOnce | engine/crates/lumi-engine/src/live_library_resolver.rs:186-197 | while a due slot waits unchanged every other deck is served at most once |
| LibraryCache.CachedReader.constructor | engine/crates/lumi-engine/src/live_library_resolver.rs:65-67 | starts without a connection |
| LibraryCache.CachedReader.Prepare | engine/crates/lumi-engine/src/live_library_resolver.rs:68-98 | a lookup reopens, samples, hits, reads and records exactly as specified |
| LibraryCache.LastReal | engine/crates/lumi-engine/src/live_library_resolver.rs:85-95 | names the call that gave the deck its last real answer |
| LibraryCache.EntryOrigin | engine/crates/lumi-engine/src/live_library_resolver.rs:85-95 | a cache entry comes from the call that just gave a real answer, or is an old one untouched by it |
| LibraryCache.HistoryRemembers | engine/crates/lumi-engine/src/live_library_resolver.rs:68-98 | every cache entry carries the key of the deck's last real answer and the version sampled before its read |
| LibraryCache.UnchangedIsFresh | engine/crates/lumi-engine/src/live_library_resolver.rs:79-95 | when the answer is that nothing changed, the last real answer was for the same key and is what a fresh read gives now, with writers committing at any moment |
| LibraryCache.RepeatedLookup | engine/crates/lumi-engine/src/live_library_resolver.rs:78-94 | a repeated lookup is answered as unchanged exactly when nothing was committed since the version was sampled |
| ResolverGap.DiscardedExactlyWhenUnwanted | engine/crates/lumi-engine/src/live_library_resolver.rs:165-174 | a reply is dropped exactly when its slot no longer holds its key |
| ResolverGap.UnchangedWithNothingAccepted | engine/crates/lumi-engine/src/live_library_resolver.rs:94-94 | for every key there is a run in which the first answer a poll accepts is that nothing changed |
| ResolverAnswers.JoinedRunIsARun | engine/crates/lumi-engine/src/live_library_resolver.rs:101-199 | resolver and worker with its cache together run as one of the resolver's interleavings |
| ResolverAnswers.RunIsConsistent | engine/crates/lumi-engine/src/live_library_resolver.rs:65-199 | in every interleaving the replies received and waiting are the worker's answers in order, and a poll handed on exactly those wanted when received |
| ResolverAnswers.UnchangedRefersToTheLastAnswer | engine/crates/lumi-engine/src/live_library_resolver.rs:79-174 | in every interleaving a received answer that nothing changed refers to an earlier reply for the same key with what a fresh read gives; that reply is the last real one the polls handed on exactly when its slot held its key when it was received, and otherwise they handed on an older one or none |
| ResolverWitness.FirstHandedIsUnchanged | engine/crates/lumi-engine/src/live_library_resolver.rs:79-174 | for every key and library state, a run of resolver and worker from the start in which the only reply handed on is that nothing changed |
| ResolverWitness.ItHappens | engine/crates/lumi-engine/src/live_library_resolver.rs:79-174 | one such run |
| Executor.AutoloopCueExecutor.constructor | engine/crates/lumi-engine/src/autoloop_executor.rs:98-113 | starts idle |
| Executor.AutoloopCueExecutor.BeginExecutionEpoch | engine/crates/lumi-engine/src/autoloop_executor.rs:117-122 | a new epoch forgets watermark and pending cue, unless the counter is exhausted |
| Executor.AutoloopCueExecutor.ScheduleIdentity | engine/crates/lumi-engine/src/autoloop_executor.rs:134-158 | a schedule is granted exactly for a cue that is neither current nor covered by the watermark |
| Executor.AutoloopCueExecutor.RecordPendingRetime | engine/crates/lumi-engine/src/autoloop_executor.rs:163-171 | only the pending cue is retimed |
| Executor.AutoloopCueExecutor.MarkBankPrepared | engine/crates/lumi-engine/src/autoloop_executor.rs:173-186 | only the scheduled cue is prepared |
| Executor.AutoloopCueExecutor.MarkTriggered | engine/crates/lumi-engine/src/autoloop_executor.rs:188-201 | the current identity becomes triggered |
| Executor.AutoloopCueExecutor.CompleteIfEmitted | engine/crates/lumi-engine/src/autoloop_executor.rs:203-217 | a triggered cue completes exactly when enough was emitted and then becomes the watermark |
| Executor.AutoloopCueExecutor.Fail | engine/crates/lumi-engine/src/autoloop_executor.rs:219-224 | only the current identity fails |
| Executor.AutoloopCueExecutor.CancelPending | engine/crates/lumi-engine/src/autoloop_executor.rs:226-236 | the executor becomes idle and counts a pending cue as cancelled |
| Executor.StepKeeps | engine/crates/lumi-engine/src/autoloop_executor.rs:117-236 | every call keeps the discipline between grant, progress, watermark and completions |
| Executor.CompletionsGoForward | engine/crates/lumi-engine/src/autoloop_executor.rs:134-217 | in every disciplined run successive completions of one context in one epoch have strictly increasing phrases |
| Executor.UnsentStaysSchedulable | engine/crates/lumi-engine/src/autoloop_executor.rs:219-236 | a pending cue that failed or was cancelled is granted again, and the watermark has not moved |
| Executor.SentIsNotRepeated | engine/crates/lumi-engine/src/autoloop_executor.rs:140-151 | a completed cue is not granted again, not even after a cancel or a failure |
| Executor.RepeatedTrigger | engine/crates/lumi-engine/src/autoloop_executor.rs:188-201 | repeating a trigger completes a completed cue again exactly if it is still the current one |
| Executor.OneContextRemembered | engine/crates/lumi-engine/src/autoloop_executor.rs:141-151 | a cue completed earlier in the epoch is granted again exactly when the last completion was in another context or before it |
| Executor.CompletedTwice | engine/crates/lumi-engine/src/autoloop_executor.rs:188-217 | for every cue: scheduled, triggered and completed from the initial state, then triggered once more, it is counted as completed twice |
| Executor.TakingTurnsRepeats | engine/crates/lumi-engine/src/autoloop_executor.rs:141-151 | a run in which two decks taking turns complete the same cue twice |
| Executor.EpochsAscend | engine/crates/lumi-engine/src/autoloop_executor.rs:117-122 | in every run the epochs of the completions never decrease |
| LaunchPolicy.Upcoming | engine/crates/lumi-engine/src/launch_policy.rs:81-98 | the least boundary at or after the beat, or none exactly when all lie before it |
| LaunchPolicy.UpcomingIsFirstListed | engine/crates/lumi-engine/src/launch_policy.rs:95-97 | among equally close boundaries the first listed is taken |
| LaunchPolicy.LaunchGate.constructor | engine/crates/lumi-engine/src/launch_policy.rs:42-45 | starts waiting for playback |
| LaunchPolicy.LaunchGate.Arm | engine/crates/lumi-engine/src/launch_policy.rs:53-55 | a new cycle waits for playback |
| LaunchPolicy.LaunchGate.CancelPending | engine/crates/lumi-engine/src/launch_policy.rs:59-63 | only an unlaunched gate is reset |
| LaunchPolicy.LaunchGate.Observe | engine/crates/lumi-engine/src/launch_policy.rs:65-103 | the loop keeps a target that is still offered and otherwise takes the upcoming boundary |
| LaunchPolicy.LaunchGate.DidLaunch | engine/crates/lumi-engine/src/launch_policy.rs:107-126 | a launch succeeds exactly when allowed and opens the gate |
| LaunchPolicy.TargetOrigin | engine/crates/lumi-engine/src/launch_policy.rs:65-103 | a waiting target was chosen by an earlier observation and upheld by every call since |
| LaunchPolicy.FirstLaunchIsTheChosenTarget | engine/crates/lumi-engine/src/launch_policy.rs:107-126 | the first launch of a cycle is for the least boundary an earlier playing observation chose, and every observation since was playing, in that context, and offered it |
| LaunchPolicy.LaunchedExactlySinceALaunch | engine/crates/lumi-engine/src/launch_policy.rs:53-126 | the show is launched exactly when a launch has not been followed by an arm |
| LinkRelay.EightBeats | engine/crates/lumi-engine/src/link_relay.rs:183-196 | the window is eight beats from 60 to 160 beats per minute, eight seconds below, and three seconds above or without a tempo |
| LinkRelay.Relay.constructor | engine/crates/lumi-engine/src/link_relay.rs:36-47 | starts disabled with nothing heard |
| LinkRelay.Relay.ResetProlinkFreshness | engine/crates/lumi-engine/src/link_relay.rs:164-171 | everything heard is forgotten |
| LinkRelay.Relay.SetEnabled | engine/crates/lumi-engine/src/link_relay.rs:57-76 | publishes or stops exactly on a change, and disables even if the stop fails |
| LinkRelay.Relay.SynchronizeClock | engine/crates/lumi-engine/src/link_relay.rs:84-118 | records the observation before the provider call and forwards exactly material changes |
| LinkRelay.Relay.FailClosedNow | engine/crates/lumi-engine/src/link_relay.rs:153-162 | the provider is called once until the relay is fresh again |
| LinkRelay.Relay.ReconcileProlinkFreshness | engine/crates/lumi-engine/src/link_relay.rs:121-150 | fails closed exactly when the clock is stale |
| LinkRelay.RunIsFaithful | engine/crates/lumi-engine/src/link_relay.rs:57-171 | in every run the record is the last in-order observation and the provider log is spaced and current |
| LinkRelay.CoalescingIsLossless | engine/crates/lumi-engine/src/link_relay.rs:84-118 | with calls that succeed, while enabled and fresh the last call has tempo, play state and deck of the last in-order observation |
| LinkRelay.CoalescingIsMinimal | engine/crates/lumi-engine/src/link_relay.rs:99-112 | neighbouring synchronize calls differ materially, and a fail-closed call is followed by a synchronize or a stop |
| LinkRelay.FailClosedIsSpaced | engine/crates/lumi-engine/src/link_relay.rs:153-162 | between two fail-closed calls there is a synchronize or a stop |
| LinkRelay.ForwardedOnlyWhenDifferent | engine/crates/lumi-engine/src/link_relay.rs:99-117 | an observation is forwarded exactly when it differs from the one before, whether or not that one reached the provider |
| LinkRelay.TrialIsKept | engine/crates/lumi-engine/src/link_relay.rs:57-171 | in every run with arbitrary outcomes of the provider calls the record is the last in-order observation and the last issued call fits it |
| LinkRelay.LosslessExactly | engine/crates/lumi-engine/src/link_relay.rs:84-118 | in every such run, while enabled and fresh, the provider is on the last in-order material exactly when the last synchronize succeeded or the provider was on its material already |
| LinkRelay.RightAfterAFailure | engine/crates/lumi-engine/src/link_relay.rs:99-117 | a run in which the last synchronize failed and the provider is right all the same |
| LinkRelay.MissedForGood | engine/crates/lumi-engine/src/link_relay.rs:99-117 | in every run, while enabled and fresh, a provider that is not on the last in-order material missed a synchronize that failed, and it stays behind until a call brings something new |
| LinkRelay.NextSuccessRestores | engine/crates/lumi-engine/src/link_relay.rs:99-117 | the next in-order observation that is new to the relay or finds it stale, or one of another source, brings the provider onto it if its call succeeds |
| LinkRelay.ChangeIsMissed | engine/crates/lumi-engine/src/link_relay.rs:99-117 | a run in which a tempo change never reaches the provider |
| LinkRelay.FailClosedIsRetried | engine/crates/lumi-engine/src/link_relay.rs:153-162 | a fail-closed call is repeated exactly when it failed |
| History.ReplayLog | engine/crates/lumi-engine/src/library.rs:4087-4137 | the loop over the log computes the replay, errors included |
| History.CorruptStays | engine/crates/lumi-engine/src/library.rs:4095-4116 | a bad entry is never forgiven |
| History.AppendKeepsSound | engine/crates/lumi-engine/src/library.rs:3293-3326 | every operation appends an entry that replays |
| History.CorruptExactlyAfterACopy | engine/crates/lumi-engine/src/library.rs:2765-2775 | a built log is reported corrupt exactly when it is empty or ends in a copied timeline; otherwise the position has the head's content |
| History.UndoStep | engine/crates/lumi-engine/src/library.rs:4095-4104 | a possible undo moves the top of the undo stack to the position and the position to the redo stack |
| History.RedoStep | engine/crates/lumi-engine/src/library.rs:4106-4115 | a possible redo does the reverse |
| History.StepOnLine | engine/crates/lumi-engine/src/library.rs:3293-3326 | one undo or redo moves along the line of reachable revisions, or is refused at its end, for another length or for want of a revision number |
| History.UndoAndRedoWalkTheLine | engine/crates/lumi-engine/src/library.rs:3293-3326 | any sequence of undos and redos keeps the reachable revisions, and the head shows the content of the place reached, also when the revision numbers run out |
| History.EditStep | engine/crates/lumi-engine/src/library.rs:4124-4130 | an edit pushes the position and empties the redo stack |
| History.EditsExtendTheLine | engine/crates/lumi-engine/src/library.rs:4124-4130 | n edits, as long as there are numbers for them, extend the line by n revisions |
| History.EditsUndoneAndRedone | engine/crates/lumi-engine/src/library.rs:3293-3326 | n edits and n undos reach the old content, n redos the last content and the same stacks, as long as there are numbers for them |
| History.CopyIsSkipped | engine/crates/lumi-engine/src/library.rs:4117-4123 | after a copied timeline and an edit the copy is on no stack and one undo returns to what was before it |
| Timeline.ValidOverrides | engine/crates/lumi-library/src/timeline.rs:203-210 | overrides are accepted exactly when nonempty and strictly ordered |
| Timeline.Validate | engine/crates/lumi-library/src/timeline.rs:167-227 | a timeline is accepted exactly when its identifiers are in order and its phrases partition the track, and otherwise the first defect is reported |
| Timeline.LookupCovers | engine/crates/lumi-library/src/timeline.rs:192-215 | a chain of phrases gives a meaning to exactly the beats it covers |
| Timeline.Splice | engine/crates/lumi-library/src/timeline.rs:477-577 | replacing neighbouring phrases by others over the same beats changes the meaning of those beats only |
| TimelineEdits.CreatePhrase | engine/crates/lumi-library/src/timeline.rs:432-476 | the selection has the new role, every other beat its old meaning, and the boundaries are the old ones outside the selection and its two ends |
| TimelineEdits.SplitPhrase | engine/crates/lumi-library/src/timeline.rs:477-493 | both halves keep the role, the second loses the loop strategy, and the one new boundary is the given beat |
| TimelineEdits.MergeBackward | engine/crates/lumi-library/src/timeline.rs:494-508 | the selected phrase takes over the one before it, and only the boundary between them goes |
| TimelineEdits.MergeForward | engine/crates/lumi-library/src/timeline.rs:509-523 | the selected phrase takes over the one after it, and only the boundary between them goes |
| TimelineEdits.MovePhraseBoundary | engine/crates/lumi-library/src/timeline.rs:524-543 | the beats between old and new boundary change sides, and only that boundary moves |
| TimelineEdits.DeletePhrase | engine/crates/lumi-library/src/timeline.rs:544-577 | the neighbour takes over the deleted phrase, and only the boundary between them goes |
| TimelineEdits.ReplacePhrase | engine/crates/lumi-library/src/timeline.rs:578-602 | only the selected phrase changes role or strategy, and no boundary changes |
| TimelineEdits.ReindexedKeeps | engine/crates/lumi-library/src/timeline.rs:614-626 | renumbering changes no meaning |
| TimelineEdits.Reshape | engine/crates/lumi-library/src/timeline.rs:425-604 | every command that is not refused leaves exactly the meanings and the boundaries it should |
| TimelineEdits.DoingIsUnique | engine/crates/lumi-library/src/timeline.rs:425-604 | meanings, boundaries and numbering determine the resulting phrases |
| TimelineEdits.IdleExactly | engine/crates/lumi-library/src/timeline.rs:281-283 | a command that is not refused expects the old meanings and boundaries exactly when it moves a boundary to where it is, or creates a phrase that is already there with that role and no loop strategy |
| TimelineEdits.SameExactlyWhenUnchanged | engine/crates/lumi-library/src/timeline.rs:281-283 | the resulting phrases are the old ones exactly for such a command |
| TimelineEdits.Edit | engine/crates/lumi-library/src/timeline.rs:274-296 | for a valid timeline the outcome is complete: the specified refusal, an invalid loop strategy, no change exactly when the command is idle, and otherwise the one valid timeline with the expected meanings and boundaries |
| Grid.ValidateGrid | engine/crates/lumi-library/src/baseline.rs:57-92 | a grid is accepted exactly when it has whole, correctly numbered bars at rising times, and otherwise the first defect is reported |
| Grid.FirstDownbeat | engine/crates/lumi-engine/src/library.rs:4448-4452 | the first beat numbered one |
| Grid.FirstMismatch | engine/crates/lumi-engine/src/library.rs:4462-4474 | the first beat that is out of place |
| Grid.WholeBars | engine/crates/lumi-engine/src/library.rs:4453-4454 | the largest multiple of four that is left |
| Grid.CanonicalGridExists | engine/crates/lumi-engine/src/library.rs:4445-4488 | a grid results exactly when the whole bars after the first downbeat are in place and rising and can be numbered in 32 bits |
| Grid.CanonicalGridIsTheLongestRun | engine/crates/lumi-engine/src/library.rs:4445-4488 | the grid is that run with unchanged times, the longest whole-bar run there, and valid |
| SourcePhrases.Collect | engine/crates/lumi-engine/src/library.rs:4904-4912 | each start within the track is recorded with its first-listed name |
| SourcePhrases.Keys | engine/crates/lumi-engine/src/library.rs:4919-4919 | the starts in ascending order |
| SourcePhrases.Ranges | engine/crates/lumi-engine/src/library.rs:4920-4932 | the ranges partition the track, and fail exactly on a blank name |
| SourcePhrases.CanonicalPhrases | engine/crates/lumi-engine/src/library.rs:4896-4933 | the output partitions the track into nonempty ranges named by the first-listed phrase with the greatest start at or before each beat, or the earliest name |
| PlaybackClock.Passed | engine/crates/lumi-engine/src/library.rs:480-484 | the markers at or before a position are counted |
| PlaybackClock.BeatInvertsMillis | engine/crates/lumi-engine/src/library.rs:479-501 | looking up the time of a beat gives the beat, and a position gives a beat exactly when it lies within it |
| PlaybackClock.MeasuredOverTheWindow | engine/crates/lumi-engine/src/library.rs:515-535 | a measured tempo is the number of beats in the window, eight to either side and clipped to the grid, over the time they take, rounded down |
| PlaybackClock.AnchorExists | engine/crates/lumi-engine/src/library.rs:504-567 | no anchor results exactly for an empty grid or a song position beyond 16 bits, and the division by zero exactly after the last marker with a fallback of zero and no measurable tempo |
| PlaybackClock.FallbackOfZeroFails | engine/crates/lumi-engine/src/library.rs:515-567 | a valid grid on which the division by zero happens |
| PlaybackClock.TickBound | engine/crates/lumi-engine/src/library.rs:545-556 | strictly inside a beat the delay does not saturate, is at most a twenty-fourth of the beat, and leads to the next of the 24 ticks |
| PlaybackClock.AnchorIsExact | engine/crates/lumi-engine/src/library.rs:504-567 | beat, song position and delay at any position of a valid grid, also after its last marker |
| Validation.ValidateTrack | engine/crates/lumi-domain/src/track.rs:283-326 | analysed metadata is accepted exactly when its phrases are in order and tile the track, and otherwise the first defect is reported |
| Validation.LookupIsExact | engine/crates/lumi-domain/src/reducer.rs:488-494 | in a valid track the lookup finds phrase i exactly at the beats of phrase i, and nothing exactly beyond the end |
| Validation.ValidateFacts | engine/crates/lumi-domain/src/track.rs:385-404 | the facts are accepted exactly when title and artist are not blank, the tempo is in range and the duration is not zero, and otherwise the first defect is reported |
| Validation.NewUnanalysed | engine/crates/lumi-domain/src/track.rs:240-262 | metadata without analysis exists exactly for valid facts, carries them, and has no phrase at any beat |
| Validation.ScanCues | engine/crates/lumi-domain/src/plan.rs:383-398 | the pass reports the first cue that is not distinct, in order and adjoining, or the end and whether a fallback is among them |
| Validation.ValidatePlan | engine/crates/lumi-domain/src/plan.rs:357-441 | a plan is accepted exactly when it is well formed, and otherwise the first defect is reported |
| Validation.ActivePlanServesItsPhrases | engine/crates/lumi-domain/src/reducer.rs:503-518 | an active valid plan has a cue for exactly its phrases, and one cue for each beat |
| Validation.RevisionIsAccepted | engine/crates/lumi-domain/src/plan.rs:523-545 | a stored plan can be revised exactly when there is a number left and the new cues are valid, and the reducer takes the revision exactly when the deck still shows the plan's track |
| Validation.HydrationKeepsThePlan | engine/crates/lumi-domain/src/reducer.rs:207-218 | hydration keeps the stored plans whatever track it names |
| Validation.LeaderReportDropsFallbacks | engine/crates/lumi-domain/src/reducer.rs:667-669 | an accepted plan is active for the leader even as a fallback, and the next leader report keeps it exactly if it is ready |

## Left out

- The rest of `engine/crates/lumi-engine/src/library.rs`: database calls, USB scanning, backup and JSON projection.
- `commands.rs`, `desktop_io.rs`, `launch_preferences.rs` and `autoloop_defaults.rs` of the engine crate: decoding, sockets, file persistence and a finite table, with easy properties only.
- `session.rs` and how it wires gate, executor and relay together: no claim is made about it.
- The Swift, Python and packaging code, and the simulator's native helper.
- Titles, artists, keys, colours, scene names, severities and messages, which no decision depends on; blank texts are a flag or label 0.
- BltRuns.NothingIsRejected: the observations reach the reducer in the order emitted; that an overfull queue in between can drop some of them is the subject of `EventQueue`, and other sources are taken not to move decks 1 and 2 or the leader.
- BltDeckSource.BltMidiDeckSource.ApplyFrame: the state left behind by a call that fails on an exhausted counter is not specified; the joint runs stop short of it.
- ShowCommands.DuplicateIsHarmless: stated for runs that do not exhaust the 64-bit event counter, since the extra event itself is counted.
- Resolver.LiveLibraryResolver.PollOnce: the measured duration of a reply is not represented, and poisoned or aborted threads only as the end of the worker.
- ResolverRuns.OthersAreServedOnce: bounds the waiting in sends, not in time, since a worker may take arbitrarily long.
- LibraryCache.UnchangedIsFresh: a read that overlaps a commit may return anything; only a read with no commit since the sample is taken to be a read of that state.
- LaunchPolicy.FirstLaunchIsTheChosenTarget: for a policy fixed at the start of a phrase; under the immediate policy every launch is allowed.
- LinkRelay.CoalescingIsLossless: for calls that succeed; `LosslessExactly` and `MissedForGood` state what a failing provider holds.
- History.EditsUndoneAndRedone: revision numbers end at the largest signed 64-bit integer, as stored in `engine/crates/lumi-library-sqlite/src/lib.rs:6790`; beyond it the log refuses every operation, and the theorem is about logs with enough numbers left.
