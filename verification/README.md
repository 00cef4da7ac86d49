# GSX Integrator: a verified model

GSX Integrator drives an aircraft turnaround in a flight simulator through GSX, a ground handling program that
answers late, restarts at will and shows its menus to the pilot as well. This project models the parts of it whose
correctness is hardest to see from the code, and proves what they are for:

- **The menu navigator** (`NavigatorModel`, `NavigatorHistory`, `NavigatorRuns`, `NavigatorProperties`,
  `NavigatorArming`, `GsxMenuNavigator`): the queue of requests with retries, refusals and give-up windows, and the
  inference of whose menu is on screen. A record of every send, drop, message and menu is kept beside the state; what
  a record may look like is stated on the record alone, and every run is proved to keep to it.
- **The resume of a saved turnaround** (`TurnaroundKeyJudgement`, `TurnaroundResumption`, `ResumptionProtocol`,
  `TurnaroundRestore`, `TurnaroundData`, `CheckpointCodec`, `CheckpointProperties`): the staged protocol over a store
  whose writes and erases fail, the projection a checkpoint is, and the JSON it is written as.
- **The doors** (`DoorModel`, `DoorProperties`, `GsxDoorSync`): the reconciliation of seven doors with vehicles whose
  readings are not trusted after a GSX restart.
- **The step machine** (`StateMachineModel`, `StateMachineProperties`, `TurnaroundStateMachine`): delayed transitions,
  the escape to the flight, one-shot touches, resuming. The bodies of the states are arbitrary functions.
- **Observing GSX** (`Counters`, `StateTracks`, `GsxRemoteState`, `GsxRemoteProofs`): counters that survive resets,
  completion of services, and the fold of snapshots and patches.
- **Two text tools** (`AircraftProfile`, `AircraftProfileProperties`, `WireExpand`, `WireExpandProperties`,
  `WireExpandWitness`): the refueling entry of an INI profile, and JSON pointers, patches and log expansion.

Where the source changes objects in place, a class has the same fields and methods, and every method is proved to
leave what a specification function of the same name says; the properties are proved of these functions. Inputs the
program reads from outside (the clock, answers of the wire, failing disks, readings of the simulator, the bodies of
states) are parameters, so every statement holds for all of them. Doubles are `real`; whole numbers are unbounded
and their C++ ranges are written out where they matter.

## Findings

- The navigator keeps the owner of the menu across a reconnection that forgets the menu itself, so a pilot's menu
  can be closed as the client's (`ReconnectingCanCloseThePilotsMenu`). It happens if and only if the menu on record
  was the client's and the client asked for none in the three seconds before the first snapshot
  (`OwnerAfterAReconnection`); without a reconnection no run closes a menu that the client did not ask for
  (`ClosedMenusOfEveryRun`, `PilotsMenusAreClosedOnlyAfterAReconnection`).
- The departure clearance shares verb and label with the pushback and waits for no confirmation. It never leaves, and
  the pushback is forgotten with it, if and only if it is asked for while a pushback that was sent is still queued
  (`ClearanceCanBeLost`, `ClearanceIsLostBehindASentPushback`).
- A discard whose erase failed is forgotten with the process (`DiscardIsLostWithTheProcess`);
  `NextProcessLoadsWhatWasWanted` says exactly when the next process loads a discarded document.
- A saved turnaround is accepted while the live airport is still unknown, by design; it may turn out to be another
  one (`AcceptanceCanBeTooEarly`). An acceptance is final if and only if the turnaround has flown since the save, the
  live airport is known or none was saved (`AcceptanceIsFinal`).
- A profile whose last aircraft header ends the text loses the entry written behind it
  (`HeaderAtTheEndLosesTheEntry`, `WrittenIsReadBack`).

## Model

| member | source | states |
|---|---|---|
| NavigatorRuns.EveryRunHolds | src/infrastructure/gsx/GsxMenuNavigator.cpp:945-1126 | in every run (publications, messages, reconnections, requests, ticks, resets and restores in any order, sends refused at will, the clock not running backwards) the record of what happened is lawful, nothing is owed to it, and queue, owner, last asking and the menu on screen agree with it |
| NavigatorProperties.QueueOfEveryRun | src/infrastructure/gsx/GsxMenuNavigator.h:85-126 | in every run no two queued requests share verb and label, attempts stay within 0 and 3, and a refused request was sent once or twice |
| NavigatorProperties.TogglesOfEveryRun | src/infrastructure/gsx/GsxMenuNavigator.cpp:1278-1329 | in every run a toggle is sent again only after GSX showed a message since its last send, at least 3 s after that send, and no request is sent more than three times before it is dropped, the sends before a restart included |
| NavigatorHistory.ToggleIsNeverResentBlindly | src/infrastructure/gsx/GsxMenuNavigator.h:116-125 | in a lawful record, between two sends of one toggle with no drop between them lies a message, and at least 3 s |
| NavigatorHistory.NoRequestIsSentMoreThanThreeTimes | src/infrastructure/gsx/GsxMenuNavigator.cpp:995-998 | in a lawful record at most three sends of a request follow its last drop or reset, and a restore brings the sends it saved into the count |
| NavigatorHistory.DropsComeInTime | src/infrastructure/gsx/GsxMenuNavigator.cpp:978-1006 | a request is dropped as taken or given up if and only if it was sent, as never taken only after its third send; a toggle no sooner than 90 s after its last send, a worn-out request no sooner than 20 s after it |
| NavigatorProperties.QueueRemembersEverySend | src/infrastructure/gsx/GsxMenuNavigator.cpp:945-976 | in every run each queued request counts exactly the sends on record since it was last ended, before a restart too, and knows the time of the last one, however often it was armed again; and a request with a send on record is still queued |
| NavigatorArming.ArmedRequestIsDroppedUnsent | src/infrastructure/gsx/GsxMenuNavigator.cpp:945-1006 | in every run an armed request is dropped at once and without a send of its own if and only if open sends of its verb and label are on record and GSX took its service, it is a toggle last sent 90 s ago, or three sends are spent with the last 20 s ago; or none is open and its service is under way |
| NavigatorArming.ClearanceIsLostBehindASentPushback | src/infrastructure/gsx/GsxMenuNavigator.cpp:210-225 | in every run the departure clearance is dropped as taken without leaving, and the pushback with it, if and only if a request of their shared verb and label that was sent is still queued |
| NavigatorArming.ClearanceCanBeLost | src/infrastructure/gsx/GsxMenuNavigator.cpp:210-225 | a run with a pushback that left, after which the clearance never does |
| NavigatorProperties.TheFirstDueIsServed | src/infrastructure/gsx/GsxMenuNavigator.cpp:1051-1126 | serving the queue sends exactly the first request that was never sent, was refused, or is no toggle and was sent 20 s ago, and that if and only if no untaken toggle, no pilot's menu and no refusal holds it; then exactly the close of the client's menu, if one is up, and the send are put on record; a held request leaves no send on record, and every other request keeps all but its hold marks |
| NavigatorProperties.PumpLeavesNothingOverdue | src/infrastructure/gsx/GsxMenuNavigator.cpp:978-1049 | after a pump no queued request is unsent for 90 s, a toggle sent 90 s ago or sent three times with the last 20 s ago, and none was taken by GSX but one sent just now |
| NavigatorHistory.MenuIsTheClientsWhenItAsked | src/infrastructure/gsx/GsxMenuNavigator.cpp:1182-1210 | a menu first seen is the client's if and only if the client asked for a menu, or a menu of its own went away, less than 3 s before; otherwise it is the pilot's |
| NavigatorProperties.ClosedMenusOfEveryRun | src/infrastructure/gsx/GsxMenuNavigator.cpp:319-332 | in every run, at each site that sends menu.close with a menu on screen, and at each request sent over a menu, the last word on the owner was that a menu is the client's; if and only if GSX was not reconnected since that word it was on the menu on screen, and then the client asked for it less than 3 s before it came up |
| NavigatorHistory.OnlyTheClientsMenuIsClosed | src/infrastructure/gsx/GsxMenuNavigator.cpp:652-721 | the same in every lawful record, with the place where the closed menu came up and the place where it was judged |
| NavigatorHistory.MenuIsGivenUpAtOnce | src/infrastructure/gsx/GsxMenuNavigator.cpp:1182-1200 | in a lawful record the owner of a menu that GSX takes off the screen is given up by the very next happening, at the same moment, whether the client drives or only watches |
| NavigatorProperties.PilotsMenusAreClosedOnlyAfterAReconnection | src/infrastructure/gsx/GsxMenuNavigator.cpp:1182-1210 | of a menu that came up in a step of a run and is taken away later, the navigator would have said on a fresh look that it is the pilot's if and only if GSX was reconnected since the judgement acted on and no asking lay less than 3 s before the menu came up |
| NavigatorProperties.OwnerAfterAReconnection | src/infrastructure/gsx/GsxRemoteStateReducer.cpp:228-236 | after any run and any reconnection that brings a menu, disabling closes a menu that a fresh look calls the pilot's if and only if the menu on record was the client's and no asking lay less than 3 s back |
| NavigatorProperties.ReconnectingCanCloseThePilotsMenu | src/infrastructure/gsx/GsxMenuNavigator.cpp:1182-1195 | a run in which the connection is lost, comes back and brings the pilot's menu with its snapshot, and the client closes it |
| NavigatorProperties.SaveAndRestoreKeepTheQueue | src/infrastructure/gsx/GsxMenuNavigator.cpp:362-476 | restoring the saved queue of any run gives the same requests in the same order with verb, arguments, label, confirmation, attempts, last send and underway flag; unsent ones start waiting anew |
| NavigatorProperties.SavedToggleIsNotResent | src/infrastructure/gsx/GsxMenuNavigator.cpp:375-399 | in every run that restores what another run saved, a request sent before the save counts its sends on, and a toggle among them is not sent again while its request stays queued |
| NavigatorHistory.RestoredToggleIsNotResent | src/infrastructure/gsx/GsxMenuNavigator.cpp:1316-1329 | in a lawful record no send of a toggle that a restore took over as sent comes before its request was dropped |
| MenuNavigator.GsxMenuNavigator.TrackMenuOwner | src/infrastructure/gsx/GsxMenuNavigator.cpp:1182-1205 | in place: a hidden menu gives up its owner, and a client's renews the asking; a menu first seen is judged |
| MenuNavigator.GsxMenuNavigator.SendOne | src/infrastructure/gsx/GsxMenuNavigator.cpp:1469-1488 | one send: refused at once after a refusal in this pass, otherwise as the wire answers; a request for a menu is remembered |
| MenuNavigator.GsxMenuNavigator.MaybeResyncStalledMenu | src/infrastructure/gsx/GsxMenuNavigator.cpp:603-650 | a menu that does not move: watched anew, closed as a leftover, resynced up to three times, then discarded |
| MenuNavigator.GsxMenuNavigator.DiscardStuckMenu | src/infrastructure/gsx/GsxMenuNavigator.cpp:652-690 | closes a stuck menu once, only the client's, only under an intent and not while a request waits behind a toggle |
| MenuNavigator.GsxMenuNavigator.EraseTheSettled | src/infrastructure/gsx/GsxMenuNavigator.cpp:1043-1049 | in place: the queue keeps exactly the requests with no reason to go, in order, and each drop is on record with its reason |
| MenuNavigator.GsxMenuNavigator.MarkTheRefusedToggles | src/infrastructure/gsx/GsxMenuNavigator.cpp:1316-1329 | in place: exactly the refused toggles are marked |
| MenuNavigator.GsxMenuNavigator.RestartTheUnsentClocks | src/infrastructure/gsx/GsxMenuNavigator.cpp:1292-1306 | in place: while the pilot's menu is up, exactly the unsent requests start waiting anew |
| MenuNavigator.GsxMenuNavigator.SendRequest | src/infrastructure/gsx/GsxMenuNavigator.cpp:1077-1126 | a request behind the pilot's menu is held; over the client's menu that menu is closed first; a delivered request is stamped |
| MenuNavigator.GsxMenuNavigator.PumpRequests | src/infrastructure/gsx/GsxMenuNavigator.cpp:1035-1075 | a whole pump is tracking, restarting clocks, dropping, marking and then serving the queue |
| MenuNavigator.GsxMenuNavigator.ArmRequest | src/infrastructure/gsx/GsxMenuNavigator.cpp:945-976 | arming replaces the queued request of the same verb and label, keeps its last send, and pumps |
| MenuNavigator.GsxMenuNavigator.DisableGsxMenu | src/infrastructure/gsx/GsxMenuNavigator.cpp:319-332 | closes the menu unless it is the pilot's, and drops the intent only if that worked |
| MenuNavigator.GsxMenuNavigator.OnMenuChanged | src/infrastructure/gsx/GsxMenuNavigator.cpp:492-552 | a menu change handles the menu and pumps the queue in one pass |
| MenuNavigator.GsxMenuNavigator.RestoreMemory | src/infrastructure/gsx/GsxMenuNavigator.cpp:375-399 | restoring forgets everything, reads the queue and restarts the clocks of unsent requests |
| MenuNavigator.GsxMenuNavigator.ReadQueue | src/infrastructure/gsx/GsxMenuNavigator.cpp:451-476 | reading a queue leaves out unreadable entries and repeated verb and label pairs |
| KeyJudgement.DifferentIsFinal | src/application/TurnaroundKeyJudgement.cpp:31-74 | filling in live key parts that were empty never changes a Different verdict, so discarding on it drops nothing a fuller reading would accept |
| KeyJudgement.AcceptanceIsFinalUnlessTheAirportWasUnknown | src/application/TurnaroundKeyJudgement.cpp:18-29 | the verdicts Same and OnlyCouatlDiffers change under a fuller reading if and only if the turnaround has not flown, the live airport was unknown and turns out to be another than the saved one; then it is Different |
| KeyJudgement.AcceptanceIsFinal | src/application/TurnaroundKeyJudgement.cpp:18-29 | no fuller reading changes an acceptance if and only if the turnaround has flown since the save, the live airport is known, or none was saved |
| KeyJudgement.AcceptanceCanBeTooEarly | src/application/TurnaroundKeyJudgement.cpp:9-12 | a key accepted as Same whose fuller reading is Different |
| KeyJudgement.AcceptedExactlyForTheSameFlight | src/application/TurnaroundKeyJudgement.cpp:31-74 | the exact condition on saved and live key for Same, and for OnlyCouatlDiffers |
| Resumptions.EveryRunIsValid | src/application/TurnaroundResumption.cpp:47-245 | in every sequence of calls with writes and erases failing at will: a document is pending exactly when the stage is not Idle, the last written document is what the store holds, an open discard leaves none known as written, a restart mark while restoring means the pilot agreed |
| Resumptions.SkippingIsWriting | src/application/TurnaroundResumption.cpp:220-237 | in every run a save with the equality skip leaves the same store as a save that always writes, and the same state altogether when no document is pending |
| Resumptions.EveryRunKeepsWhatIsWanted | src/application/TurnaroundResumption.cpp:47-112 | in every run the store holds the document last saved and not discarded since, or a discard is open and nothing is wanted |
| Resumptions.OnlyTheWantedIsHandedBack | src/application/TurnaroundResumption.cpp:126-147 | every restoration in every run is of the document last saved and not discarded since, has a checkpoint of a resumable phase, and is marked as of another GSX run only after the pilot was asked and agreed since the last load |
| Resumptions.RepositionedIsReportedOfTheSame | src/application/TurnaroundResumption.cpp:126-175 | in every run an advance reports that the last session repositioned if and only if the pending document says so and is found the same now without a checkpoint, or is handed back without a restart mark; it is then the document last saved and not discarded since, and the last verdict on it was Same |
| Resumptions.DiscardedIsNotHandedBack | src/application/TurnaroundResumption.cpp:77-112 | after a discard, however many erases fail, no later call hands a document back until a newer save succeeded |
| Resumptions.NextProcessLoadsWhatWasWanted | src/application/TurnaroundResumption.cpp:47-66 | the next process loads what was wanted if and only if no readable document is left with its discard still to be done |
| Resumptions.DiscardIsLostWithTheProcess | src/application/TurnaroundResumption.cpp:87-93 | any readable document whose discard failed is loaded again by the next process |
| Resumptions.EveryRestorationIsResumed | src/application/IntegratorRuntime.cpp:376-411 | in every run the runtime's branches for a document without a checkpoint and for an unknown phase are unreachable; a restored document is settled as written and nothing stays on hold |
| Resumptions.HeldDocumentIsNotOverwritten | src/application/IntegratorRuntime.cpp:413-442 | in every run saving changes nothing while a document is pending, and changes the store only to the document saved |
| ResumptionProtocol.TurnaroundResumption.Load | src/application/TurnaroundResumption.cpp:47-66 | in place: a load forgets, does an open discard first, and judges only a document with something to read |
| ResumptionProtocol.TurnaroundResumption.Discard | src/application/TurnaroundResumption.cpp:77-86 | in place: a discard forgets the pending and the written document and stays open when the erase fails |
| ResumptionProtocol.TurnaroundResumption.RetryPendingDiscard | src/application/TurnaroundResumption.cpp:88-94 | in place: an open discard is tried again and closes when the erase works |
| ResumptionProtocol.TurnaroundResumption.AnswerResume | src/application/TurnaroundResumption.cpp:114-124 | in place: the pilot's answer moves from deciding to restoring and is remembered; elsewhere it does nothing |
| ResumptionProtocol.TurnaroundResumption.Judge | src/application/TurnaroundResumption.cpp:149-185 | in place: what each verdict does in each stage |
| ResumptionProtocol.TurnaroundResumption.Advance | src/application/TurnaroundResumption.cpp:126-147 | in place: judges, then hands the document back once readings and aircraft are there |
| ResumptionProtocol.TurnaroundResumption.Settle | src/application/TurnaroundResumption.cpp:214-218 | in place: the pending document counts as written and nothing is pending |
| ResumptionProtocol.TurnaroundResumption.Save | src/application/TurnaroundResumption.cpp:220-237 | in place: skips an equal document, leaves everything after a failed write, otherwise closes the discard and forgets |
| ResumptionProtocol.IntegratorRuntime.RestoreSavedTurnaround | src/application/IntegratorRuntime.cpp:376-411 | in place: discards without a checkpoint, settles on a resume, restarts the flow on an unknown phase |
| ResumptionProtocol.IntegratorRuntime.AdvanceResumption | src/application/IntegratorRuntime.cpp:352-374 | in place: advances only with a pending document and restores what is handed back |
| ResumptionProtocol.IntegratorRuntime.SaveTurnaround | src/application/IntegratorRuntime.cpp:413-442 | in place: saves only while driving, with nothing on hold, from the reposition on and with an identified key |
| ResumptionProtocol.IntegratorRuntime.RestartFlow | src/application/IntegratorRuntime.cpp:1430-1440 | in place: a restart discards and forgets |
| TurnaroundRestores.CheckpointAfterResume | src/domain/turnaround/TurnaroundRestore.cpp:69-114 | a checkpoint taken right after a resume is the one resumed from, but that the reposition may be raised as completed and the pushback as lost, under their exact conditions |
| TurnaroundRestores.FiguresAfterResume | src/domain/turnaround/TurnaroundRestore.cpp:15-67 | every rebuilt figure of resumed data as a function of saved fields, phase and aircraft; all other unsaved fields are as after a reset |
| TurnaroundRestores.ResumingTwiceIsResumingOnce | src/domain/turnaround/TurnaroundRestore.cpp:100-114 | resuming again from resumed data or its checkpoint, with the same phase, aircraft and restart flag, gives the same data |
| TurnaroundRestores.OnlySavedFieldsMatter | src/domain/turnaround/TurnaroundData.h:147-248 | resuming depends on the raw fields alone |
| TurnaroundRestores.FactsOfTheResumed | src/domain/turnaround/TurnaroundRestore.cpp:116-136 | the facts the aircraft is told on a resume are those of the saved data |
| TurnaroundRestores.Restore | src/domain/turnaround/TurnaroundRestore.cpp:100-114 | the edits in sequence give the restored data |
| TurnaroundDatas.NamesAreDistinct | src/domain/turnaround/TurnaroundData.h:147-248 | no two saved flags share a name |
| TurnaroundPhases.PhaseRoundTrip | src/domain/turnaround/TurnaroundPhase.h:36-83 | the text of every phase is read back as that phase |
| TurnaroundPhases.FromString | src/domain/turnaround/TurnaroundPhase.h:71-83 | the loop over the phases finds the first one with the text |
| StateMachineProperties.StepIsBounded | src/domain/turnaround/TurnaroundStateMachine.cpp:136-180 | for every state bodies a step keeps the airborne count in 0..29, moves at most twice, twice only when a delay runs out, and uses up the app's touch |
| StateMachineProperties.MovesLead | src/domain/turnaround/TurnaroundStateMachine.cpp:380-442 | the moves of a step lead one after the other from the phase before it to the phase after it |
| StateMachineProperties.EveryRunIsValid | src/domain/turnaround/TurnaroundStateMachine.cpp:338-378 | in every run of steps, touches, restarts and resumes the airborne count stays in 0..29 and counts only while no delay runs |
| StateMachineProperties.NothingMovesDuringADelay | src/domain/turnaround/TurnaroundStateMachine.cpp:145-160 | while a delay runs no step moves, whatever the states do, and the delay is what the steps leave of it |
| StateMachineProperties.DelayedTransitionFires | src/domain/turnaround/TurnaroundStateMachine.cpp:136-180 | a transition delayed by n ticks leaves the phase for n - 1 steps and is the first move of the n-th |
| StateMachineProperties.ThirtyAirborneStepsEndInTheFlight | src/domain/turnaround/TurnaroundStateMachine.cpp:338-378 | thirty consecutive steps in the air with no delay, in a phase without an exit of its own, end in the flight; fewer leave the phase |
| StateMachineProperties.EscapeTakesThirtySteps | src/domain/turnaround/TurnaroundStateMachine.cpp:344-361 | in every run the escape has twenty-nine steps in the air before it, from the second on in that phase |
| StateMachineProperties.AirborneCountIsTheStepsInTheAir | src/domain/turnaround/TurnaroundStateMachine.cpp:363-378 | in every run, touches and resumes included, the airborne count is covered by that many last steps in the air with no restart or resume between them |
| StateMachineProperties.TouchIsSeenOnce | src/domain/turnaround/TurnaroundStateMachine.cpp:182-199 | in every run the states see a touch in a step if and only if the switch was touched or a touch of the app is open, and after the step none is open |
| StateMachineProperties.TouchOfEveryRun | src/domain/turnaround/TurnaroundStateMachine.cpp:182-199 | in every run a touch of the app waits for the next step and is forgotten when the machine starts over or resumes before it |
| StateMachineProperties.NothingOfTheLastTurnaroundMatters | src/domain/turnaround/TurnaroundStateMachine.cpp:393-399 | after any two turnarounds the wait for a new flight, once entered, leads to the same run whatever follows: of the last turnaround only whether the session repositioned is carried over |
| StateMachineProperties.ResumeStandsAtTheCheckpoint | src/domain/turnaround/TurnaroundStateMachine.cpp:291-319 | after a resume the machine stands at the saved phase with nothing pending and no touch, keeps the session's mark, and its next checkpoint is the old one up to the two marks |
| StateMachineProperties.WhatIsSavedCanBeResumed | src/domain/turnaround/TurnaroundStateMachine.cpp:273-319 | what a machine saves in any run another resumes from in any run once its aircraft is in reach, at the same phase, with the same facts and up to the two marks the same checkpoint; a try out of reach changes nothing and loses nothing |
| StateMachine.TurnaroundStateMachine.Step | src/domain/turnaround/TurnaroundStateMachine.cpp:136-180 | in place: one step |
| StateMachine.TurnaroundStateMachine.TransitionTo | src/domain/turnaround/TurnaroundStateMachine.cpp:380-442 | in place: the data entering a phase, the counters at zero |
| StateMachine.TurnaroundStateMachine.EvaluateCurrentPhase | src/domain/turnaround/TurnaroundStateMachine.cpp:363-378 | in place: counts an airborne tick or asks the state |
| StateMachine.TurnaroundStateMachine.ResumeFrom | src/domain/turnaround/TurnaroundStateMachine.cpp:291-319 | in place: refuses, or takes over the restored data and stands at the phase |
| StateMachine.TurnaroundStateMachine.TakeCheckpoint | src/domain/turnaround/TurnaroundStateMachine.cpp:273-289 | a checkpoint of the saved fields in resumable phases, none elsewhere |
| CheckpointProperties.DocumentRoundTrip | src/infrastructure/checkpoint/JsonFileTurnaroundCheckpointStore.cpp:426-507 | every document with a resumable phase and a known unit is read back with the data a checkpoint keeps, and with every bag in order, repeats included |
| CheckpointProperties.DocumentIsReadBackAsItself | src/infrastructure/checkpoint/JsonFileTurnaroundCheckpointStore.cpp:510-514 | such a document is read back as itself if and only if its data is its own projection |
| CheckpointProperties.AcceptedCanBeWrittenAgain | src/infrastructure/checkpoint/JsonFileTurnaroundCheckpointStore.cpp:453-507 | whatever JSON is accepted, its document can be written, fits its types, is its own projection, and is then read back as itself |
| CheckpointProperties.OtherStampsAreRefused | src/infrastructure/checkpoint/JsonFileTurnaroundCheckpointStore.cpp:446-465 | a JSON of another client version or phase count is refused whatever else it holds |
| CheckpointProperties.DocumentOfAnotherVersionIsRefused | src/infrastructure/checkpoint/JsonFileTurnaroundCheckpointStore.cpp:453-460 | a document written by another version is refused by its version |
| CheckpointProperties.WrittenFileIsReadBack | src/infrastructure/checkpoint/JsonFileTurnaroundCheckpointStore.cpp:516-568 | a write succeeds exactly for a document that can be read back and a disk that commits; then the file reads back as the projection unless it cannot be opened or exceeds the cap; a failed write leaves the file |
| CheckpointProperties.ReadDocumentCanBeReadBack | src/infrastructure/checkpoint/JsonFileTurnaroundCheckpointStore.cpp:510-568 | whatever a file gives back can be written and read back again, which is what the resume protocol asks of its store |
| CheckpointProperties.SavedTurnaroundIsReadBack | src/domain/turnaround/TurnaroundStateMachine.cpp:273-289 | what the step machine saves is read back as itself |
| CheckpointProperties.DataRoundTrip | src/infrastructure/checkpoint/JsonFileTurnaroundCheckpointStore.cpp:218-246 | the raw fields are read back under their names |
| CheckpointProperties.BagRoundTrip | src/infrastructure/checkpoint/JsonFileTurnaroundCheckpointStore.cpp:248-289 | a bag is read back with every entry in order |
| CheckpointProperties.MemoryRoundTrip | src/infrastructure/checkpoint/JsonFileTurnaroundCheckpointStore.cpp:395-424 | the bags of every owner are read back |
| CheckpointProperties.PlanRoundTrip | src/infrastructure/checkpoint/JsonFileTurnaroundCheckpointStore.cpp:343-393 | a plan with a known unit is read back, its optional amounts included |
| CheckpointCodec.ReadBag | src/infrastructure/checkpoint/JsonFileTurnaroundCheckpointStore.cpp:262-289 | the loop reads the entries up to the first malformed one, which refuses the bag |
| CheckpointCodec.ReadMemory | src/infrastructure/checkpoint/JsonFileTurnaroundCheckpointStore.cpp:406-424 | the loop over the owners reads every bag or refuses all |
| MemoryBags.FindAfterPut | src/domain/model/MemoryBag.h:42-53 | a put is read back under its own name and under no other |
| MemoryBags.PutKeepsTheOrder | src/domain/model/MemoryBag.h:42-53 | the names of a bag keep the order of their first put |
| MemoryBags.WholeNumbersAreReadBack | src/domain/model/MemoryBag.h:32-38 | there is a number text that reads back every whole number, so what is asked of saved counts and states can be met |
| MemoryBags.MemoryBag.PutText | src/domain/model/MemoryBag.h:42-53 | in place: replaces the first entry of the name or appends one |
| MemoryBags.MemoryBag.FindText | src/domain/model/MemoryBag.h:55-110 | finds the value of the first entry of the name |
| DoorProperties.EveryDoorAgreesOrIsHeld | src/infrastructure/gsx/GsxDoorSync.cpp:283-325 | after a pass each of the seven doors has a target that agrees with its vehicles or is in the named hold whose condition holds; a held door is never opened, a door is closed only from an open target |
| DoorProperties.TransitHoldsForThirtyPasses | src/infrastructure/gsx/GsxDoorSync.cpp:153-190 | until the next command, whatever the passes find in between, a change of mind is held up by a transit only in the thirty passes after the command, less those its transit has behind it |
| DoorProperties.TransitHoldsInEveryRun | src/infrastructure/gsx/GsxDoorSync.cpp:153-190 | in every run, closing all, holds and restores included, a pass holds a door for a transit only when the door was commanded since the last restore with fewer than thirty passes in between |
| DoorProperties.StuckDoorIsHeldThirtyTimes | src/infrastructure/gsx/GsxDoorSync.cpp:168-190 | the bound is met by a door that goes on reading closed; then its reading is believed |
| DoorProperties.DoorsOpenForTrustedVehicles | src/infrastructure/gsx/GsxDoorSync.cpp:592-603 | in every run a pass wants a door open if and only if the door is not held closed and one of its vehicles was received, serves it, and, after a GSX restart, was found by a look to differ from the first value received since; only then a door is opened |
| DoorProperties.TrustOfEveryRun | src/infrastructure/gsx/GsxDoorSync.cpp:414-434 | in every run the distrusted values are what the history of all looks at the vehicles says |
| DoorProperties.TrustFollowsTheHistory | src/infrastructure/gsx/GsxDoorSync.cpp:459-479 | a value is awaited if and only if none was received since the restart, and distrusted if and only if one was and no later look at the vehicle found it changed |
| DoorProperties.RestartsAreSeen | src/infrastructure/gsx/GsxDoorSync.cpp:355-377 | distrust begins at the first look that finds GSX up after it was up and then down |
| DoorProperties.ClosingAllClosesAll | src/infrastructure/gsx/GsxDoorSync.cpp:544-563 | closing all leaves every target closed and commands exactly the doors that do not read closed or are on their way open |
| DoorProperties.DoorRoundTrip | src/infrastructure/gsx/GsxDoorSync.cpp:379-412 | a save and a restore give every door its target; an open target waits for its vehicles, and the vehicles are distrusted exactly after a GSX restart |
| DoorProperties.EveryRunIsValid | src/infrastructure/gsx/GsxDoorSync.cpp:153-190 | in every run every transit stays within its bound |
| DoorReconciliation.GsxDoorSync.Sync | src/infrastructure/gsx/GsxDoorSync.cpp:283-325 | in place over the array: the new record of every door, the trust after all looks, and the commands in door order |
| DoorReconciliation.GsxDoorSync.CloseAll | src/infrastructure/gsx/GsxDoorSync.cpp:544-563 | in place over the array: every door's record and the commands in door order |
| DoorReconciliation.GsxDoorSync.VehicleState | src/infrastructure/gsx/GsxDoorSync.cpp:459-479 | in place: a distrusted value reads as absent, a changed one is trusted from then on |
| DoorReconciliation.GsxDoorSync.InheritArrivedVehicles | src/infrastructure/gsx/GsxDoorSync.cpp:421-434 | in place: every awaited value that arrived is taken as distrusted |
| DoorReconciliation.GsxDoorSync.IsDesiredOpen | src/infrastructure/gsx/GsxDoorSync.cpp:592-603 | in place: a held door asks no vehicle; otherwise asking stops at the first that serves |
| DoorReconciliation.GsxDoorSync.Observe | src/infrastructure/gsx/GsxDoorSync.cpp:355-377 | in place: samples the exits and follows GSX going down and up |
| DoorReconciliation.GsxDoorSync.SampleExits | src/infrastructure/gsx/GsxDoorSync.cpp:436-457 | in place over the array: an exit moves when two received positions differ |
| DoorReconciliation.GsxDoorSync.WatchExit | src/infrastructure/gsx/GsxDoorSync.cpp:197-200 | in place: the door watches the exit anew |
| DoorReconciliation.GsxDoorSync.AppendMemory | src/infrastructure/gsx/GsxDoorSync.cpp:379-389 | in place: the known targets are put into the bag |
| DoorReconciliation.GsxDoorSync.RestoreMemory | src/infrastructure/gsx/GsxDoorSync.cpp:391-412 | in place over the array: targets from the bag, no transit, trust by the restart flag |
| Counters.ReportIsTheClosedForm | src/infrastructure/gsx/GsxStateService.cpp:435-490 | after any polls the report is the base plus the reset-aware increments, stated on the readings alone, if and only if the readings never sink (no drop from below zero that is no restart); readings that are not negative never do |
| Counters.EveryAnswerIsTheClosedForm | src/infrastructure/gsx/GsxStateService.cpp:435-485 | so is what each update returns, under the same exact condition |
| Counters.ReportNeverDecreases | src/infrastructure/gsx/GsxStateService.cpp:435-485 | the report never decreases, across resets of the GSX counter too |
| Counters.SinkingLosesTheClosedForm | src/infrastructure/gsx/GsxStateService.cpp:463-480 | three readings that sink, for which the closed form fails |
| Counters.SaveAndLoadChangeNoReport | src/infrastructure/gsx/GsxStateService.cpp:492-508 | a save and a load at any point change no later report if and only if both counts lie in 0..1000000, given that the two numbers saved are read back |
| Counters.SaveAndLoadChangeNoCargoReport | src/infrastructure/gsx/GsxStateService.cpp:528-570 | a save and a load of the cargo reading change no later report if and only if the percentage lies in 0..100, although the first reading is not saved, given that the percentage saved is read back |
| Counters.EachReadingFindsItsOwnFields | src/infrastructure/gsx/GsxStateService.cpp:208-225 | the four readings saved in one bag do not disturb each other |
| Counters.PassengerCounter.Update | src/infrastructure/gsx/GsxStateService.cpp:435-485 | in place: the counter and its answer |
| Counters.CargoPercentReading.Update | src/infrastructure/gsx/GsxStateService.cpp:528-550 | in place: the reading and its answer |
| StateTracks.CompletionIsTheHistory | src/infrastructure/gsx/GsxStateService.cpp:797-836 | a service counts as completed if and only if a reading since the last turn said so or took it from running to idle with GSX not down since it last started (a silent service: from active to idle) |
| StateTracks.RestoringKeepsTheCompletion | src/infrastructure/gsx/GsxStateService.cpp:227-236 | a save and a restore on the same GSX change no later completion, except if and only if the first reading is idle under the stated condition |
| StateTracks.RestartCompletesNothing | src/infrastructure/gsx/GsxStateService.cpp:276-294 | after a GSX restart a service that was under way is never completed by being idle |
| StateTracks.TrackRoundTrip | src/infrastructure/gsx/GsxStateService.cpp:256-268 | status, completion and death are read back, given that the number of the status is |
| StateTracks.StateTrack.Observe | src/infrastructure/gsx/GsxStateService.cpp:797-836 | in place: one reading |
| GsxRemoteProofs.LastPatchDecides | src/infrastructure/gsx/GsxRemoteStateReducer.cpp:198-226 | the last patch with something usable on a key decides the field |
| GsxRemoteProofs.UnpatchedKeyKeepsItsValue | src/infrastructure/gsx/GsxRemoteStateReducer.cpp:198-226 | a key no patch decides keeps its value |
| GsxRemoteProofs.VeryLastPatchDecides | src/infrastructure/gsx/GsxRemoteStateReducer.cpp:130-136 | the very last patch on a key decides it whatever came before; only a startup without a usable session identifier leaves the key as the patches before it did |
| GsxRemoteProofs.PatchesOnDistinctTargetsCommute | src/infrastructure/gsx/GsxRemoteStateReducer.cpp:198-226 | patches on distinct keys commute |
| GsxRemoteProofs.SnapshotSetsEveryKey | src/infrastructure/gsx/GsxRemoteStateReducer.cpp:185-196 | a snapshot sets exactly its usable keys and the synced mark |
| GsxRemoteProofs.SnapshotIsItsMembersInAnyOrder | src/infrastructure/gsx/GsxRemoteStateReducer.cpp:185-226 | a snapshot equals its members patched in any order, plus synced, if and only if it brings no message that would be shown |
| GsxRemoteProofs.SnapshotsCountNoMessage | src/infrastructure/gsx/GsxRemoteStateReducer.cpp:185-196 | one snapshot with a message that it does not count and its patch does |
| GsxRemoteProofs.EveryShownMessageIsCountedOnce | src/infrastructure/gsx/GsxRemoteStateReducer.cpp:81-92 | the message count is the number of visible messages with a text |
| GsxRemote.GsxRemoteState.ReduceSnapshot | src/infrastructure/gsx/GsxRemoteStateReducer.cpp:185-196 | in place: the table applied in order |
| GsxRemote.GsxRemoteState.ReducePatch | src/infrastructure/gsx/GsxRemoteStateReducer.cpp:198-226 | in place: the patched field, and whether the path is known |
| GsxRemote.GsxRemoteState.ReduceConnection | src/infrastructure/gsx/GsxRemoteStateReducer.cpp:228-236 | in place: connecting starts from a fresh state |
| AircraftProfile.PiecesPartition | src/infrastructure/gsx/GsxAircraftProfile.cpp:107-118 | the walk from line to line ends, its pieces make up the text, and each piece is one line |
| AircraftProfile.ReadRefueling | src/infrastructure/gsx/GsxAircraftProfile.cpp:204-239 | the loop reads the first entry of an aircraft section |
| AircraftProfile.WriteRefueling | src/infrastructure/gsx/GsxAircraftProfile.cpp:241-286 | the loop replaces the first entry in place, or inserts one behind the last aircraft header, or fails |
| AircraftProfileProperties.WrittenIsReadBack | src/infrastructure/gsx/GsxAircraftProfile.cpp:204-286 | after a write that succeeds the value is read back if and only if there was an entry or the last aircraft header's line is ended; otherwise nothing is read |
| AircraftProfileProperties.OnlyTheEntryChanges | src/infrastructure/gsx/GsxAircraftProfile.cpp:267-286 | a write replaces one line or adds one and leaves every other line; only an unended header gets the entry glued to it |
| AircraftProfileProperties.WritingAgainChangesNothing | src/infrastructure/gsx/GsxAircraftProfile.cpp:241-286 | writing the same value again changes nothing |
| AircraftProfileProperties.WriteNeedsTheSection | src/infrastructure/gsx/GsxAircraftProfile.cpp:278-281 | a write succeeds if and only if there is an entry or an aircraft header |
| AircraftProfileProperties.HeaderAtTheEndLosesTheEntry | src/infrastructure/gsx/GsxAircraftProfile.cpp:283-285 | a profile that is nothing but its header loses every value written |
| WireExpandProperties.PointerRoundTrip | tools/wire-expand.py:27-31 | every list of tokens is read back from its pointer, as section 4 of RFC 6901 escapes it |
| WireExpandProperties.PartIsWrittenBack | tools/wire-expand.py:31 | a part of a pointer is written back as it was read if and only if it is properly escaped |
| WireExpandProperties.RemovingUndoesAdding | tools/wire-expand.py:41-66 | adding at a fresh place and removing there gives the document back, and the added value is found in between |
| WireExpandProperties.ReplacingIsRemovingAndAdding | tools/wire-expand.py:41-66 | replacing is removing and adding, as section 4.3 of RFC 6902 says, and the new value is found |
| WireExpandProperties.ReplacingTouchesNothingElse | tools/wire-expand.py:41-66 | a replacement changes nothing at any place that parts ways with the one it names |
| WireExpandProperties.EditingIsEditingTheHolder | tools/wire-expand.py:41-66 | an operation succeeds if and only if the container that holds its place is there and takes it, and the container is then edited in its place |
| WireExpandProperties.EditingTouchesNothingElse | tools/wire-expand.py:41-66 | no operation changes anything at a place that parts ways with its own above the last container, or at another member of it |
| WireExpandProperties.EditingAListShiftsIt | tools/wire-expand.py:53-60 | in a list an addition moves what stands at or behind its position one on, a removal what stands behind it one back |
| WireExpandProperties.PatchesOnPointers | tools/wire-expand.py:41-73 | the same for whole patches with the place written as a pointer |
| WireExpandProperties.ExpandingTwiceIsExpandingOnce | tools/wire-expand.py:87-127 | expanding an expanded log writes the same lines and ends with the same memo, for every log and every JSON printer that reads back what it can print |
| WireExpandProperties.PassesAgreeLineByLine | tools/wire-expand.py:87-127 | after every line the two passes remember the same |
| WireExpandProperties.LineIsDoneInOnePass | tools/wire-expand.py:87-119 | an expanded line is no differential patch any more and does to the memo what the original did |
| WireExpandWitness.FaithfulTextsExist | tools/wire-expand.py:76-84 | there is a printer and a parser that meet what the log expansion asks, for every value whose numbers are whole |
| WireExpand.ApplyOperations | tools/wire-expand.py:69-73 | the loop applies the operations in order or stops at the first exception |
| WireExpand.Expander.ExpandLine | tools/wire-expand.py:87-119 | in place: the memo after a line, and the line written |
| WireExpand.Expander.Expand | tools/wire-expand.py:122-127 | the loop over a log |

## Left out

- NavigatorRuns.EveryRunHolds: time does not run backwards from one step to the next and stands still within one, which the wall clock the program reads does not promise.
- NavigatorModel.PickStage: which entry of a menu is picked, and the timed intents behind it, are an input of the pass; at most one entry is picked in a pass.
- NavigatorProperties.SaveAndRestoreKeepTheQueue: covers the queue; the menu latches saved beside it (deicing, stairs, panel) are not modelled, nor is the text the queue's JSON is printed to.
- The GSX toolbar panel: only whether it makes a pump wait, as an input of the pass.
- The picking of menu entries and the answers to GSX questions: their effect on the properties is the pick of the pass.
- WireExpand.ApplyOperation: patches are applied to values; the in-place edits of Python lists and dictionaries, and the aliasing they could show, are not modelled. Which texts Python reads as an integer is left open.
- WireExpand.ExpandAll: works on lines without their endings; a raised exception ends the pass without the lines written before it. A value whose numbers the printer is exact at is taken to be read back from its text, and printed JSON to be free of line feeds (`FaithfulTextsExist` shows that this can be met).
- CheckpointCodec: JSON text, UTF-8 conversion and the exactness of printed numbers are taken as given; the size of a written file is an input.
- MemoryBags.NumberText: the text of a double is left open; a statement about a saved number asks that this one number is read back (`WHOLE_NUMBERS` is a printer that does so for every whole number).
- TurnaroundDatas: the field table's classes are the grouping of the record, its 49 raw flags a set of names; the order in which fields are visited is not modelled.
- DoorReconciliation.GsxDoorSync: the parallel arrays of the doors are one array of records, and the one-time logging of holds is not modelled.
- StateMachine.TurnaroundStateMachine.TransitionTo: the calls to the menu, GSX and aircraft that a move triggers follow from the recorded move and are not modelled; nor are PublishStatus, the slow rules and the debugging skip.
- ResumptionProtocol.IntegratorRuntime.RestoreSavedTurnaround: the aircraft answers the same within a tick whether it is in reach; adopting the plan and restoring the memories of services are modelled on their own.
- Resumptions: a write that fails leaves the store as it was, and a store gives back what was written; the latter is proved of the file's codec.
- The key a document is saved under, watching the stand, and the start and end of sessions: they decide when the modelled calls happen, and the runs proved about allow any order.
- StateTracks: how pushback status, stairs, loaders and other readings are interpreted beyond completion, foundUnderway and the counters.
- Counters: one reading at a time; which service feeds which counter is a choice of names.
- AircraftProfile: finding the profile folders and reading and writing the file; letters are compared as in the classic locale.
- View models, display texts, the EFB publisher, network clients and reconnect backoff, aircraft matching, settings and unit conversion: none of them decides when a request is sent, a menu closed, a door moved or a turnaround handed back.
