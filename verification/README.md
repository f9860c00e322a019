# Verification models of the audio, telephony and webcam HALs

Dafny models of the stateful parts of four hardware abstraction layers, and proofs about them. Each file
models one component; what it proves is a statement about all inputs, all runs or all interleavings.

| files | component |
|---|---|
| `DeviceCounts`, `RoutingRules`, `RoutingConflicts`, `RoutingCourse`, `RoutingSteady`, `RoutingAnswers`, `RoutingRequests`, `AudioRouting` | routing of use cases to sound devices: the use case list, the reference count per device with nested combo devices, and every procedure that starts, stops or re-routes a use case; the state after any requests, where each use case ends, and when use cases never compete |
| `OffloadThread`, `OffloadCallbacks`, `OffloadLiveness` | the compress offload worker against the threads that call into its stream, as interleaved steps over the stream lock, the lock in front of it, the device lock and two condition variables; safety, and exactly when it can go on |
| `AtLines`, `AtReader` | the buffered line reader of the AT channel |
| `AtDispatch`, `AtResponses`, `AtProtocol` | sorting of lines, the linked list of intermediate lines, and the reader, writer and close protocol around one pending response |
| `AtTokens`, `AtTokenizer` | the destructive tokenizer of response lines and the CME error decoder |
| `RequestTracking`, `CameraDevice` | capture requests accepted, counted per stream, completed and flushed |
| `MetadataBuffers`, `CameraMetadata` | the growing metadata container over fixed-size buffers |
| `StaticProperties` | consistency checks of camera metadata and of stream configurations |
| `PcmLoops`, `WcamPipeline`, `WcamRaces` | in-place sample loops, the byte pipeline of the webcam microphone, and resets that fall into its receive loop |
| `StreamFormats` | the choice of capture formats per resolution |
| `Wrappers` | types the others share |

Objects that the code updates in place are classes; a function of the old state specifies each of their
methods, and lemmas state what that function guarantees. The two protocols with several threads are
state machines whose steps end where the code can block; a run is any sequence of steps, and the
theorems hold after every run.

Answers of the platform, of drivers and of other modules are parameters. In the audio model they are
the fields of `Env` and `Platform`: functions and flags about which nothing is assumed but that
splitting is acyclic and that two devices match backends in either order
(`hardware/audio/pixel3/msm8916/platform.c:1361-1393`). Device masks are sets of bit positions.
Splitting may nest to any depth. Hands-free calls (`hardware/audio/pixel3/audio_extn/hfp.c:243-412`)
are started and stopped like voice calls.

## Where the code does not do what its comments or callers expect

Each is stated by the member named; where a property fails for some inputs only, the exact condition under
which it holds is proved.

- A device that fails to start breaks the conservation law when it is part of a combo, because the
  combo is counted all the same: exactly then, `DeviceCounts.EnableConservesIff`, with an input in
  `DeviceCounts.FailingPartIsNotCounted`.
- A write that leaves standby, and a routing change, take the stream lock before the device lock. When
  one gets the stream lock while a standby call holds the device lock and waits for the worker, nothing
  moves from there on. Nor does it when one holds the lock that `lock_output_stream` takes first while a
  standby call waits for the worker, or is about to: the worker comes back through that lock. In
  every other state the worker can go on: `OffloadLiveness.WorkerGoesOnIff`,
  `OffloadLiveness.CallbackComesIff`, with runs in `OffloadLiveness.StandbyAndWriteCanGetStuck`,
  `OffloadLiveness.StandbyAndRoutingCanGetStuck` and `OffloadLiveness.StandbyCanGetStuckBehind`.
  `out_set_parameters` (`hardware/audio/pixel3/audio_hw.c:3037-3213`) stands for every caller with that
  order of locks.
- Routing leaves two use cases competing for a backend when it meets the exception documented for combo
  devices, or keeps the devices of a use case whose mask came onto the codec: exactly then,
  `RoutingCourse.SelectedSettledIff`, with inputs in `RoutingConflicts.ExceptionOccurs` and
  `RoutingConflicts.KeptDeviceOccurs`. A board and requests that rule both out never do:
  `RoutingSteady.FitRunStaysCalm`.
- Two AT commands that are not serialised by the write mutex can make the first read the final
  response of no response; serialised ones never do: `AtProtocol.SafeIffSerialised`. Whether callers
  are serialised depends on `isInEmulator` (`hardware/ril/reference-ril/atchannel.c:740-771`). Without
  the mutex, runs whose sends do not overlap are as safe: `AtProtocol.NeverOverlappingIsSafe`.
- A loop over `at_tok_hasmore` misses an empty unquoted token at the end of a line, and nothing else:
  `AtTokens.HasMoreLoopReadsBack`.
- Erasing a tag removes its first entry, so the tag is gone only if it occurred once:
  `CameraMetadata.Metadata.Erase`, with an input in `CameraMetadata.AppendedTagSurvivesErase`.
  Updates and erasures never make a tag occur twice: `CameraMetadata.Metadata.Run`.
- A failed allocation in `resizeIfNeeded` loses the old metadata buffer:
  `CameraMetadata.Metadata.ResizeIfNeeded`.
- The limits on the number of output streams are counted and logged but not enforced:
  `StaticProperties.OutputStreamsSupported` says exactly which accepted configurations respect them,
  `StaticProperties.LimitsEnforcedIff` when all do, and `StaticProperties.EachLimitIsExceeded` gives
  one above each.
- A reset of the microphone buffers that falls into an iteration of the receive loop can make the buffered
  size negative, `WcamRaces.NegativeIff` with a run in `WcamRaces.ResetCanBreakTheLoop`; store bytes
  elsewhere than they are counted, `WcamRaces.MisplacedIff`; store them behind the end of the buffer,
  `WcamRaces.OverrunIff` with a run in `WcamRaces.ResetCanOverrunTheBuffer`; or get lost,
  `WcamRaces.ResetCanBeLost`.

## Model

| member | source | states |
|---|---|---|
| `DeviceCounts.CountsAreDetermined` | hardware/audio/pixel3/audio_hw.c:821-954 | The law (a device's count is the use cases naming it plus the active combo devices splitting onto it) leaves no freedom: two count arrays that obey it for the same holders agree on every device, for any acyclic splitting. |
| `DeviceCounts.NothingHeldAllZero` | hardware/audio/pixel3/audio_hw.c:821-954 | With no holder left every count is zero; no combo device keeps itself or its parts alive. |
| `DeviceCounts.EnableConserves` | hardware/audio/pixel3/audio_hw.c:821-892 | Enabling a device, parts of a combo included, keeps the law with one more holder, if nothing it starts fails. |
| `DeviceCounts.UncleanEnableBreaks` | hardware/audio/pixel3/audio_hw.c:821-892 | If something it would start fails, enabling breaks the law: a combo is counted although a part of it is not. |
| `DeviceCounts.EnableConservesIff` | hardware/audio/pixel3/audio_hw.c:821-892 | Exact condition: enabling keeps the law if and only if every device it has to start can be started. |
| `DeviceCounts.FailingPartIsNotCounted` | hardware/audio/pixel3/audio_hw.c:821-892 | A failing input: with one of two parts not starting, enabling a combo from idle counts the combo and the other part, and the law is broken. |
| `DeviceCounts.DisableConserves` | hardware/audio/pixel3/audio_hw.c:894-955 | Disabling a held device keeps the law with one holder less, giving the parts of a combo back with the last reference. |
| `DeviceCounts.EnableThenDisable` | hardware/audio/pixel3/audio_hw.c:821-955 | Enabling and then disabling a device restores every count. |
| `DeviceCounts.Enabled` | hardware/audio/pixel3/audio_hw.c:821-892 | No count falls, and only the device and devices below it in the splitting order change. |
| `DeviceCounts.UncleanStaysUnclean` | hardware/audio/pixel3/audio_hw.c:821-892 | A device that could not be started cleanly still cannot in any later state that obeys the law. |
| `RoutingRules.FindUsecase` | hardware/audio/pixel3/audio_hw.c:1546-1558 | The first use case with the id, or none when no use case has it. |
| `RoutingRules.RoutedPlaybackMakesWay` | hardware/audio/pixel3/audio_hw.c:1095-1291 | After a device is routed, every other codec or USB use case that is no capture is on it or kept its own device, and competes with it for a backend if and only if it did before and is in the documented exception: overlapping device masks whose combo splits onto different backends. For lists of any length. |
| `RoutingRules.SwitchedMakesWay` | hardware/audio/pixel3/audio_hw.c:1785-1900 | The same after the move of one use case, captures following included. |
| `RoutingRules.SelectedMakesWay` | hardware/audio/pixel3/audio_hw.c:1671-1930 | The same for the whole of select_devices, the voice communication input it routes first included, for every list and every answer of the platform. |
| `RoutingRules.SelectedOneKeepsOutputs` | hardware/audio/pixel3/audio_hw.c:1671-1930 | Selecting devices for a capture moves no output of any use case. |
| `RoutingRules.SwitchedInputsFollow` | hardware/audio/pixel3/audio_hw.c:1888-1899 | After select_devices chose an input, every other recording or call is on it or is off its backend and kept its own; only speaker calibration is exempt. |
| `RoutingRules.PriorityInputIsBest` | hardware/audio/pixel3/audio_hw.c:1617-1669 | The input that sets the device is the first among the captures with the highest source rank; there is none exactly when no capture has a rank. |
| `RoutingRules.VoipInputIsCapture` | hardware/audio/pixel3/audio_hw.c:1721-1742 | The use case select_devices routes first is a capture on the list, so its recursion ends. |
| `RoutingRules.ActiveInputIsCapture` | hardware/audio/pixel3/audio_hw.c:1578-1593 | The active input belongs to a capture on the list. |
| `RoutingRules.VoiceCommunicationInputIsCapture` | hardware/audio/pixel3/audio_hw.c:1595-1615 | So does the voice communication input. |
| `RoutingRules.SelectedOneKeepsOthers` | hardware/audio/pixel3/audio_hw.c:1671-1930 | Selecting devices for a capture leaves playbacks as they are. |
| `RoutingRules.SelectedKeepsIds` | hardware/audio/pixel3/audio_hw.c:1671-1930 | Routing changes devices, never which use cases are on the list or their order. |
| `RoutingRules.UnionDrop` | hardware/audio/pixel3/audio_hw.c:894-955 | A use case gives up one reference: the holdings of all lose exactly that one. |
| `RoutingRules.UnionAdd` | hardware/audio/pixel3/audio_hw.c:821-892 | A use case takes one reference: the holdings of all gain exactly that one. |
| `RoutingRules.HoldingWithout` | hardware/audio/pixel3/audio_hw.c:2428-2431 | A use case that holds nothing leaves the list without changing the holdings. |
| `RoutingRules.HoldingJoined` | hardware/audio/pixel3/audio_hw.c:2557-2576 | A use case joins the list with the placeholder device, which holds nothing. |
| `RoutingRules.PlaybackMoved` | hardware/audio/pixel3/audio_hw.c:1205-1291 | Disabling the old device of every marked use case and enabling the derived one yields the routed list, and holdings that agree with it. |
| `RoutingRules.CaptureMoved` | hardware/audio/pixel3/audio_hw.c:1293-1362 | The same for captures that follow to a new input device. |
| `RoutingRules.LastFound` | hardware/audio/pixel3/audio_hw.c:2557-2712 | The use case that joined last is found by its id, and its leaving undoes the joining. |
| `RoutingRules.RoutedPlaybackWellFormed` | hardware/audio/pixel3/audio_hw.c:1205-1291 | Re-routing keeps ids distinct, captures without an output and playbacks without an input. |
| `RoutingConflicts.MadeWaySettledIff` | hardware/audio/pixel3/audio_hw.c:1157-1291 | Exact condition: if no two use cases competed before, routing a device leaves two competing if and only if one stays in the way by the documented exception and some use case plays on the device. |
| `RoutingConflicts.SwitchedSettledIff` | hardware/audio/pixel3/audio_hw.c:1785-1900 | Exact condition for a move by select_devices: afterwards no two codec or USB use cases compete if and only if the move neither keeps its devices in the way of others, as after a change of its mask, nor meets the documented exception. |
| `RoutingConflicts.DepartedSettledIff` | hardware/audio/pixel3/audio_hw.c:2433-2445 | The same for re-routing after a use case on USB left. |
| `RoutingConflicts.CaptureDisturbsNobody` | hardware/audio/pixel3/audio_hw.c:1671-1930 | Selecting devices for a capture never leaves two use cases competing. |
| `RoutingConflicts.ExceptionOccurs` | hardware/audio/pixel3/audio_hw.c:1095-1203 | An input of select_devices on which the exception occurs: a playback on the speaker stays there when another is put on a combo of the speaker and a device on another backend. |
| `RoutingConflicts.KeptDeviceOccurs` | hardware/audio/pixel3/audio_hw.c:1785-1800 | An input of select_devices on which kept devices are in the way: a playback off the codec whose stream was redirected to it keeps its device beside one on the speaker, as the same device is chosen again. |
| `RoutingCourse.DisablesKeep` | hardware/audio/pixel3/audio_hw.c:1262-1268 | Giving up devices one by one, as the first loop does, keeps the law for what is left, for any number of use cases. |
| `RoutingCourse.EnablesKeep` | hardware/audio/pixel3/audio_hw.c:1270-1281 | Taking devices one by one, as the second loop does, keeps the law for all of them while every device that has to start does. |
| `RoutingCourse.SelectedSettledIff` | hardware/audio/pixel3/audio_hw.c:1671-1930 | Exact condition, for every list in which no two use cases compete: after select_devices none do if and only if it neither keeps devices in the way nor meets the documented exception. |
| `RoutingCourse.SelectCalmIff` | hardware/audio/pixel3/audio_hw.c:1671-1930 | The record of such a routing is exact: it is kept clear if and only if it was clear and the call disturbs nobody, the voice communication input routed ahead included. |
| `RoutingCourse.SelectFollows` | hardware/audio/pixel3/audio_hw.c:1671-1930 | A call in which nothing fails to start leaves the record of failures as it was; no call clears either record. |
| `RoutingCourse.ReroutedRestRoutes` | hardware/audio/pixel3/audio_hw.c:2449-2467 | Re-routing all use cases in order adds and drops none, and leaves two competing only if that is recorded. |
| `RoutingCourse.VoiceMovedRestRoutes` | hardware/audio/pixel3/voice.c:566-583 | So does moving the voice calls. |
| `RoutingSteady.NobodyStaysInTheWay` | hardware/audio/pixel3/audio_hw.c:1095-1203 | Where no combo splits across backends, or no two masks in use overlap in part, the documented exception arises for no list and no routed device. |
| `RoutingSteady.SelectDisturbsNobody` | hardware/audio/pixel3/audio_hw.c:1671-1930 | On such a board select_devices leaves no two use cases competing, if the use case does not come onto codec or USB devices while it is on a device. |
| `RoutingSteady.PerformStaysCalm` | hardware/audio/pixel3/audio_hw.c:1671-2710 | Every request that keeps output streams in their lane, on or off codec and USB devices, and calls on codec or USB streams, leaves a steady state steady. |
| `RoutingSteady.FitRunStaysCalm` | hardware/audio/pixel3/audio_hw.c:1671-2710 | So does every sequence of such requests, whatever the platform answers: no two use cases ever compete for a backend. |
| `RoutingAnswers.VoiceInputIff` | hardware/audio/pixel3/audio_hw.c:1595-1615 | Exactly which input counts as the voice communication input: the first capture for voice communication on the list; in communication mode, if there is none, the last capture. |
| `RoutingAnswers.RanksAreOrdered` | hardware/audio/pixel3/audio_hw.c:1617-1643 | The order of the sources: voice communication, camcorder, voice performance, unprocessed, microphone, echo reference, FM tuner, voice recognition, hotword; no other source has a rank. |
| `RoutingAnswers.InheritedIff` | hardware/audio/pixel3/audio_hw.c:1690-1720 | Exactly which call a playback or capture shares its devices with: in a call the first voice call, if on codec devices or a hearing aid or if the capture records it; else the hands-free call, if on codec devices. |
| `RoutingAnswers.CallIsPlaced` | hardware/audio/pixel3/audio_hw.c:1685-1692 | select_devices puts a found call on the output and the input the platform answers for its stream, with that mask; while A2DP is not ready one that wants A2DP alone stays where it is, and one that wants speaker and A2DP is on the speaker. |
| `RoutingAnswers.PlaybackIsPlaced` | hardware/audio/pixel3/audio_hw.c:1721-1742 | It puts a playback on the output of the call it shares, else on the platform's answer for its stream; in-call music on the transmit device. |
| `RoutingAnswers.CaptureIsPlaced` | hardware/audio/pixel3/audio_hw.c:1743-1791 | It puts a capture on the input of the call it shares, else on the platform's answer for the voice communication input with the output mask that goes with it, else for the input of the highest rank, else for its own; A2DP ready or not. |
| `RoutingAnswers.SelectedIsAnswered` | hardware/audio/pixel3/audio_hw.c:1671-1930 | So every use case select_devices is called for ends where it wants to be. |
| `RoutingAnswers.DerivedIff` | hardware/audio/pixel3/audio_hw.c:1097-1203 | Where a playback goes when a device is routed, by the cases of the table: with equal or disjoint masks to that device if the backends match, with overlapping ones unless the combo splits onto different backends. |
| `RoutingAnswers.RoutedPlaybackIff` | hardware/audio/pixel3/audio_hw.c:1205-1291 | Exactly who is asked to make way: all other playbacks and calls when the backend was reconfigured or an A2DP device must be switched, else those on another device of a backend of it; nobody else moves. |
| `RoutingAnswers.RoutedCaptureIff` | hardware/audio/pixel3/audio_hw.c:1293-1362 | Exactly who follows to an input: every other recording and call on another input of its backend, or recording the voice call that moves, but for speaker calibration. |
| `RoutingAnswers.RoutedAheadIff` | hardware/audio/pixel3/audio_hw.c:1726-1741 | Exactly when a playback routes the voice communication input first: it shares no output with a call, and is the VOIP playback or, without one, on the primary output. |
| `RoutingAnswers.AheadIsPlaced` | hardware/audio/pixel3/audio_hw.c:1739-1741 | That capture ends on the input it wants, too. |
| `RoutingRequests.StartedCallIsPlaced` | hardware/audio/pixel3/voice.c:156-246 | A call that starts is last on the list, on the devices the platform answers for its stream. |
| `RoutingRequests.StartedCaptureIsPlaced` | hardware/audio/pixel3/audio_hw.c:1979-2107 | A capture that starts is last on the list, on the input it wants. |
| `RoutingRequests.StartedPlaybackIsPlaced` | hardware/audio/pixel3/audio_hw.c:2557-2597 | A playback that starts is on the output it wants for its own devices; while it waits for A2DP, for the speaker it is also on, the safe one first, or for the speaker if it is offloaded; a muted one joins without a device. |
| `RoutingRequests.RefusedStaysOut` | hardware/audio/pixel3/audio_hw.c:2537-2549 | A playback on A2DP alone that is not offloaded changes nothing before A2DP is ready, nor does one that is not ready itself. |
| `RoutingRequests.ReroutedMasks` | hardware/audio/pixel3/audio_hw.c:2449-2467 | Re-routing makes every playback and call, and the VOIP capture, ask for what its stream has now; no other capture but one routed ahead does. |
| `RoutingRequests.StoppedOutputReroutes` | hardware/audio/pixel3/audio_hw.c:2432-2467 | What stopping a playback does to the others: after VOIP or the safe speaker all are routed again; after USB whose interval was reset they make way for its device; otherwise nothing. |
| `RoutingRequests.StoppedInputHandsOver` | hardware/audio/pixel3/audio_hw.c:1938-1977 | Stopping the capture of the highest rank puts the one that is now on the input it wants; stopping any other changes nothing for the rest. |
| `RoutingRequests.VoiceMovedMasks` | hardware/audio/pixel3/voice.c:566-583 | Every voice call is on the new stream and asks for its devices; no other use case changes its stream. |
| `RoutingRules.MutedWhileStarting` | hardware/audio/pixel3/audio_hw.c:6600-6625 | Starting changes no stream but the one started, and of it at most the mute flag. |
| `AudioRouting.AudioDevice.constructor` | hardware/audio/pixel3/audio_hw.c:6644-6800 | A new device obeys the law with an empty list. |
| `AudioRouting.AudioDevice.EnableSndDevice` | hardware/audio/pixel3/audio_hw.c:821-892 | Updates the counts in place to those of the specification; succeeds exactly when the device's own count rose by one. |
| `AudioRouting.AudioDevice.DisableSndDevice` | hardware/audio/pixel3/audio_hw.c:894-955 | Updates the counts in place to those of the specification; fails exactly for an invalid or uncounted device, or when the last reference goes and the device does not stop cleanly, the count falling all the same. |
| `AudioRouting.AudioDevice.EnableFor` | hardware/audio/pixel3/audio_hw.c:821-892 | Enabling on behalf of a use case: the new counts, and the law kept exactly as long as nothing that has to start fails. |
| `AudioRouting.AudioDevice.MarkPlayback` | hardware/audio/pixel3/audio_hw.c:1240-1260 | Marks, by use case id, exactly the use cases that stand in the way. |
| `AudioRouting.AudioDevice.DisableSwitched` | hardware/audio/pixel3/audio_hw.c:1262-1268 | First loop: every marked use case gives up its device; the counts it leaves, and the law for what is left. |
| `AudioRouting.AudioDevice.EnableDerived` | hardware/audio/pixel3/audio_hw.c:1270-1281 | Second loop: every marked use case takes its derived device; the counts after all of them, whether a device that had to start failed, and the law while none did. |
| `AudioRouting.AudioDevice.CheckAndRoutePlaybackUsecases` | hardware/audio/pixel3/audio_hw.c:1205-1291 | For any list, whether devices start or not: the new list is the routed one and the new counts are the specified ones; while every device starts the law holds again, the use case being moved holding what the caller says. |
| `AudioRouting.AudioDevice.CheckAndRouteCaptureUsecases` | hardware/audio/pixel3/audio_hw.c:1293-1362 | The same for captures. |
| `AudioRouting.AudioDevice.ReleaseDevices` | hardware/audio/pixel3/audio_hw.c:1856-1866 | The use case gives up both of its devices. |
| `AudioRouting.AudioDevice.TakeOutput` | hardware/audio/pixel3/audio_hw.c:1856-1886 | First half of the move: devices released, others make way, the output taken; list and counts. |
| `AudioRouting.AudioDevice.TakeInput` | hardware/audio/pixel3/audio_hw.c:1888-1899 | Second half: captures follow, the input is taken, both devices are recorded and the law holds; list and counts. |
| `AudioRouting.AudioDevice.SwitchDevices` | hardware/audio/pixel3/audio_hw.c:1785-1930 | Moves a use case to the chosen devices, or leaves all as it is: the list, the counts, whether a device that had to start failed, and whether two use cases are left competing, each exactly. |
| `AudioRouting.AudioDevice.SelectDevices` | hardware/audio/pixel3/audio_hw.c:1671-1936 | For every list, id and answer of the platform: finds the use case exactly when it is on the list and leaves it where it wants to be; yields the specified list and counts; says exactly when a device that had to start failed and when two use cases are left competing; keeps the law while none failed; the recursion terminates. |
| `AudioRouting.AudioDevice.RouteStarted` | hardware/audio/pixel3/audio_hw.c:2581-2597 | A playback that must wait for A2DP is routed to the speaker, offload muted; the stream's own devices come back. |
| `AudioRouting.AudioDevice.StartOutputStream` | hardware/audio/pixel3/audio_hw.c:2509-2710 | Joins and routes a playback, or undoes the joining when its device does not open; the whole new state in every outcome, and the law. |
| `AudioRouting.AudioDevice.StopOutputStream` | hardware/audio/pixel3/audio_hw.c:2395-2472 | Removes the use case, re-routes what it held back (USB, VOIP, speaker-safe): list, counts and both records, exactly, and the law. |
| `AudioRouting.AudioDevice.RerouteAll` | hardware/audio/pixel3/audio_hw.c:2449-2467 | Routes every use case but captures other than VOIP again, in order: the whole new state. |
| `AudioRouting.AudioDevice.StartInputStream` | hardware/audio/pixel3/audio_hw.c:1979-2107 | Joins and routes a capture to the input it wants, or undoes it on failure, handing the input device over: the whole new state. |
| `AudioRouting.AudioDevice.StopInputStream` | hardware/audio/pixel3/audio_hw.c:1938-1977 | Removes the capture; if it set the input device the next in rank does now. |
| `AudioRouting.AudioDevice.GetPriorityInput` | hardware/audio/pixel3/audio_hw.c:1646-1669 | The loop computes the capture with the highest rank. |
| `AudioRouting.AudioDevice.StartCall` | hardware/audio/pixel3/voice.c:156-246 | Joins a call and routes it to the devices the platform answers, or removes it again on failure: the whole new state, and the law. |
| `AudioRouting.AudioDevice.StopCall` | hardware/audio/pixel3/voice.c:102-154 | Gives both devices of the call back and keeps the law. |
| `AudioRouting.AudioDevice.UpdateVoiceUsecases` | hardware/audio/pixel3/voice.c:566-583 | Moves every voice call to another output stream, in list order: the whole new state, and the law. |
| `AudioRouting.AudioDevice.InUseIsCounted` | hardware/audio/pixel3/audio_hw.c:821-954 | The devices of every active use case are counted, if every device started so far. |
| `AudioRouting.AudioDevice.IdleMeansZero` | hardware/audio/pixel3/audio_hw.c:821-954 | With no use case left no device is counted, if every device started so far. |
| `AudioRouting.AudioDevice.Run` | hardware/audio/pixel3/audio_hw.c:1671-2710 | Any sequence of opening, starting, stopping, re-routing and call requests ends in the specified state: list, streams, counts, and exactly whether a device that had to start ever failed and whether a routing ever left two use cases competing. While none failed the law holds, and with an empty list all counts are zero; while none was left competing none compete; requests that keep to a discipline the board fits never leave any competing. |
| `AudioRouting.AudioDevice.Perform` | hardware/audio/pixel3/audio_hw.c:1671-2710 | One request: the whole new state, the law and the absence of competition as long as the records are clear. |
| `OffloadThread.BeginKeeps` | hardware/audio/pixel3/audio_hw.c:3951-4011 | The locked body of write, pause, resume, drain, flush, standby, error, destroy and re-routing keeps the invariant. |
| `OffloadThread.AfterStopKeeps` | hardware/audio/pixel3/audio_hw.c:2137-2148 | What a call does once the worker is off the handle keeps the invariant, closing the handle included. |
| `OffloadThread.StartStreamKeeps` | hardware/audio/pixel3/audio_hw.c:2509-2710 | Leaving standby finds no open handle, and keeps the invariant whether the handle opens or not. |
| `OffloadThread.LockAdevKeeps` | hardware/audio/pixel3/audio_hw.c:2865-2880 | Taking the device lock in standby, write and re-routing keeps the invariant. |
| `OffloadThread.LockOutKeeps` | hardware/audio/pixel3/audio_hw.c:2116-2122 | Taking the stream lock, behind the lock in front of it or after a wait, keeps the invariant. |
| `OffloadThread.ClientStepKeeps` | hardware/audio/pixel3/audio_hw.c:2865-4011 | Every client step keeps the stream's, the worker's, its own and every other thread's conditions. |
| `OffloadThread.WorkerStepKeeps` | hardware/audio/pixel3/audio_hw.c:2150-2246 | Every worker step keeps the stream's and the worker's conditions. |
| `OffloadThread.WorkerStepKeepsThreads` | hardware/audio/pixel3/audio_hw.c:2150-2246 | Every worker step keeps the conditions of every client thread. |
| `OffloadThread.RunKeepsInv` | hardware/audio/pixel3/audio_hw.c:2116-2266 | Every interleaving of the worker with any number of clients keeps the invariant. |
| `OffloadThread.BlockedMeansOpen` | hardware/audio/pixel3/audio_hw.c:2191-2229 | In every run, whenever the worker is marked blocked its handle is the stream's, is open, and is the only one. |
| `OffloadThread.NoStepDisturbsTheWorker` | hardware/audio/pixel3/audio_hw.c:2137-2229 | No step of any run closes or replaces a handle in use, and none opens a handle over an open one. |
| `OffloadThread.CommandsAreAccountedFor` | hardware/audio/pixel3/audio_hw.c:2124-2246 | At every moment of every run the commands sent are those taken plus those queued, in order; the callbacks are the events of the delivered ones, in order; only commands without a handle or drained at exit are dropped. |
| `OffloadThread.LoopPassAccounts` | hardware/audio/pixel3/audio_hw.c:2164-2190 | Taking a command, or all of them at exit, keeps that account. |
| `OffloadThread.DeliverAccounts` | hardware/audio/pixel3/audio_hw.c:2221-2232 | A callback carries the event of its command. |
| `OffloadThread.ClientStepAppends` | hardware/audio/pixel3/audio_hw.c:2124-2134 | Clients only append to the queue what they send. |
| `OffloadCallbacks.SentIsAsked` | hardware/audio/pixel3/audio_hw.c:2124-2134 | In every run the commands sent are exactly those the calls ask for, in order: a drain its kind, a write that did not write all a wait, an error and the destruction theirs once the worker is off the handle. |
| `OffloadCallbacks.EventsFit` | hardware/audio/pixel3/audio_hw.c:2201-2223 | In every run a callback is write-ready for a wait, drain-ready for a drain of either kind, an error for an error, and for nothing else. |
| `OffloadCallbacks.CallbacksAreAskedFor` | hardware/audio/pixel3/audio_hw.c:2201-2232 | In every run write-ready is called back at most as often as writes left data over, drain-ready at most as often as drains were asked for, an error at most as often as errors. |
| `OffloadCallbacks.PlaybackMovesIff` | hardware/audio/pixel3/audio_hw.c:3951-4011 | Exactly which steps start playback (a write that wrote), pause and resume it (those calls), and stop it (a flush, destruction, error or standby). |
| `OffloadCallbacks.PlaysOnOpenHandle` | hardware/audio/pixel3/audio_hw.c:3551-3590 | In every run playback is started exactly while the stream plays or is paused, and then on an open handle. |
| `OffloadCallbacks.MetadataIsDue` | hardware/audio/pixel3/audio_hw.c:3552-3556 | In every run the gapless metadata goes with the next write exactly if no write took it since the stream was opened or stopped or a partial drain ended. |
| `OffloadCallbacks.StandbyMovesIff` | hardware/audio/pixel3/audio_hw.c:2865-2903 | Exactly which steps leave standby (a write) and enter it (a standby with the device lock, or a write that could not start). |
| `OffloadCallbacks.HandleMovesIff` | hardware/audio/pixel3/audio_hw.c:2605-2615 | Exactly which steps change the handle: starting gives a new one or none, a standby that got the worker off it closes it. |
| `OffloadCallbacks.CallGoesOn` | hardware/audio/pixel3/audio_hw.c:3521-3540 | A write that could not start is over, another writes; a stopped call is over, but for a routing change, which goes on to route. |
| `OffloadLiveness.StuckForever` | hardware/audio/pixel3/audio_hw.c:2865-2921 | Once a write or a routing change has overtaken a standby, or is in front of the worker while a standby waits for it, no continuation of the run frees the two, lets the worker go on or delivers a callback. |
| `OffloadLiveness.LockIsReleased` | hardware/audio/pixel3/audio_hw.c:2116-2266 | Otherwise whoever holds the stream lock can release it without the worker, and nothing gets stuck on the way. |
| `OffloadLiveness.WorkerGoesOnIff` | hardware/audio/pixel3/audio_hw.c:2150-2246 | Exact condition, for every run: a worker that has not exited can get the stream lock again in some continuation if and only if no write or routing change has overtaken a standby or holds the lock in front of the stream lock while a standby waits for the worker. |
| `OffloadLiveness.CallbackComesIff` | hardware/audio/pixel3/audio_hw.c:2191-2232 | Exact condition, for every run in which the worker is marked blocked: the callback of its command can still be delivered if and only if nothing is stuck in either of these two ways. |
| `OffloadLiveness.InFrontStays` | hardware/audio/pixel3/audio_hw.c:2116-2148 | A write or routing change that holds the lock the worker needs first, while a standby waits for the worker, is stuck for good. |
| `OffloadLiveness.WorkerGetsInFront` | hardware/audio/pixel3/audio_hw.c:2116-2227 | Unless something is stuck the worker can get the lock in front of the stream lock, behind a call that holds it. |
| `OffloadLiveness.StandbyCanGetStuckBehind` | hardware/audio/pixel3/audio_hw.c:2116-2148 | A run in which a write, or a routing change, gets in front of the worker while a standby is about to wait. |
| `OffloadLiveness.StandbyAndWriteCanGetStuck` | hardware/audio/pixel3/audio_hw.c:2865-2921 | A run in which a write overtakes a standby. |
| `OffloadLiveness.StandbyAndRoutingCanGetStuck` | hardware/audio/pixel3/audio_hw.c:3037-3213 | A run in which a routing change overtakes a standby. |
| `AtLines.SkipsEols` | hardware/ril/reference-ril/atchannel.c:340-345 | Leading terminators change neither the first line nor the rest. |
| `AtLines.PartialLine` | hardware/ril/reference-ril/atchannel.c:302-314 | A part without a terminator is the beginning of the first line, however the text goes on; at the end of input it is no line. |
| `AtLines.CompleteLine` | hardware/ril/reference-ril/atchannel.c:302-411 | Terminators, a non-empty field and its terminator make the first line, and what follows is the rest. |
| `AtLines.LinesAreFields` | hardware/ril/reference-ril/atchannel.c:326-411 | Lines are never empty and contain no terminator. |
| `AtLines.LinesOfJoin` | hardware/ril/reference-ril/atchannel.c:326-411 | Lines written with CR LF behind each are read back unchanged. |
| `AtReader.Reader.FindNextEol` | hardware/ril/reference-ril/atchannel.c:302-314 | The first CR or LF at or behind the cursor, the end of text for the SMS prompt, or none. |
| `AtReader.Reader.MoveUp` | hardware/ril/reference-ril/atchannel.c:347-363 | The partial line moves to the front of the buffer unchanged. |
| `AtReader.Reader.Read` | hardware/ril/reference-ril/atchannel.c:376-391 | One read() appends what it yields; nothing is lost or reordered. |
| `AtReader.Reader.TakeLine` | hardware/ril/reference-ril/atchannel.c:396-410 | Cuts the first line off; what remains is the rest of the text. |
| `AtReader.Reader.Fill` | hardware/ril/reference-ril/atchannel.c:365-394 | Each further read extends the partial line, and the buffer-full branch is never taken for inputs with lines shorter than the buffer. |
| `AtReader.Reader.Prepare` | hardware/ril/reference-ril/atchannel.c:335-363 | Finds a buffered line or prepares the buffer for reading more of one. |
| `AtReader.Reader.Readline` | hardware/ril/reference-ril/atchannel.c:326-411 | Returns the first line of the text exactly when there is one, and leaves the rest. |
| `AtReader.Reader.ReadAll` | hardware/ril/reference-ril/atchannel.c:326-411 | For every input and every split over read() calls the lines returned are the terminated non-empty fields, in order. |
| `AtDispatch.ProcessLineKeeps` | hardware/ril/reference-ril/atchannel.c:235-293 | A line keeps the response consistent with its command type, appends to what arrived exactly when it is an intermediate, and sets the final line exactly when it is final. |
| `AtDispatch.FinalLines` | hardware/ril/reference-ril/atchannel.c:131-210 | Which lines are final responses, and which announce an SMS; no line is a success and an error, nor final and the first of two. |
| `AtDispatch.FinalIff` | hardware/ril/reference-ril/atchannel.c:235-249 | A line ends the pending command if and only if it is a final response, which says whether it succeeded; without a pending command every line is unsolicited. |
| `AtDispatch.IntermediateIff` | hardware/ril/reference-ril/atchannel.c:250-286 | Another line belongs to the pending command if and only if the command expects it: it starts with the prefix (multi-line), is the first that does (single-line), or is the first and starts with a digit (numeric); else it is the prompt an SMS waits for, or unsolicited. |
| `AtDispatch.ReverseOfConcat` | hardware/ril/reference-ril/atchannel.c:651-664 | Reversal turns a concatenation around. |
| `AtResponses.AtResponse.AddIntermediate` | hardware/ril/reference-ril/atchannel.c:122-135 | The new line is at the head of the linked list; the cells behind it stay. |
| `AtResponses.AtResponse.ReverseIntermediates` | hardware/ril/reference-ril/atchannel.c:651-664 | The in-place reversal yields the lines in reverse order over the same cells. |
| `AtResponses.ReverseAt` | hardware/ril/reference-ril/atchannel.c:651-664 | Reversal puts element k at the mirrored place and loses none. |
| `AtResponses.LinesOfReverse` | hardware/ril/reference-ril/atchannel.c:651-664 | Reversing the cells reverses the lines. |
| `AtResponses.StrStartsWith` | hardware/ril/reference-ril/misc.c:21-31 | True exactly when the prefix is a prefix of the line. |
| `AtResponses.MatchesAny` | hardware/ril/reference-ril/atchannel.c:151-215 | True exactly when the line starts with an entry of the table. |
| `AtResponses.PendingCommand.ProcessLine` | hardware/ril/reference-ril/atchannel.c:235-293 | The statics and the linked list change as the specification of a line says, and the line goes where it says. |
| `AtResponses.PendingCommand.Finish` | hardware/ril/reference-ril/atchannel.c:713-721 | The response handed out lists the intermediates in the order of arrival and is pending no more. |
| `AtProtocol.BeginSendKeeps` | hardware/ril/reference-ril/atchannel.c:673-708 | A serialised send finds no pending response, and its beginning keeps the invariant in every outcome. |
| `AtProtocol.EndSendKeeps` | hardware/ril/reference-ril/atchannel.c:713-733 | The end of a send frees its response or hands it out, and keeps the invariant. |
| `AtProtocol.WakeKeeps` | hardware/ril/reference-ril/atchannel.c:693-712 | So does a wake-up, timeouts included. |
| `AtProtocol.WriterStepKeeps` | hardware/ril/reference-ril/atchannel.c:673-771 | Every step of a writer or of at_close keeps the shared, its own and every other writer's conditions. |
| `AtProtocol.ReaderStepKeeps` | hardware/ril/reference-ril/atchannel.c:235-468 | So does every step of the reader. |
| `AtProtocol.RunKeepsInv` | hardware/ril/reference-ril/atchannel.c:431-771 | Every interleaving of serialised callers with the reader keeps the invariant. |
| `AtProtocol.PendingOnlyInsideASend` | hardware/ril/reference-ril/atchannel.c:557-566 | In every run a response is pending exactly while one writer is inside its send; outside nothing of a command is left; every response created is pending, freed once or handed out once; no writer reads a missing response. |
| `AtProtocol.AnswersAreFaithful` | hardware/ril/reference-ril/atchannel.c:713-733 | In every run each answer lists exactly what arrived, in order: nothing for a command without result, at most one line, which starts with a digit, for a numeric one, lines with the prefix for the others, at most one if single-line. Its success flag agrees with its final line; success without one never happens; each response handed out is in one answer, to a caller that wants it. |
| `AtProtocol.SendOutcome` | hardware/ril/reference-ril/atchannel.c:680-733 | Exactly why an attempt ends as it does, in every run: with no error if the final line is there and the reader not closed, with a timeout if the wait timed out, with a closed channel if it was closed before the send or while it waited, with a failed write if writing to an open channel failed; never because another command is pending. |
| `AtProtocol.AnsweredIff` | hardware/ril/reference-ril/atchannel.c:713-733 | Exactly what a caller is handed, in every run: a send that got its final line, or was cut off by the end of the channel, is answered if the caller wants it, with that error, that final line and what arrived; nothing else is. |
| `AtProtocol.OpenMeansOk` | hardware/ril/reference-ril/atchannel.c:723-728 | In every run without at_close and end of file each answer is without error. |
| `AtProtocol.ClosedIff` | hardware/ril/reference-ril/atchannel.c:602-624 | In every run the channel is open to writing until at_close closes the descriptor, and the reader counts as closed exactly from at_close or the end of file on. |
| `AtProtocol.ReaderEnds` | hardware/ril/reference-ril/atchannel.c:417-434 | The reader can find the end of the channel whenever it waits for a line, with the mutex free to report it. |
| `AtProtocol.PromptIffFirst` | hardware/ril/reference-ril/atchannel.c:250-254 | In every run the first prompt that arrives while an SMS is being sent is answered with the message of its command, and no other line is. |
| `AtProtocol.AttemptsAreBounded` | hardware/ril/reference-ril/atchannel.c:900-939 | A call attempts to send at most as often as it was given tries, and at least once before it returns. |
| `AtProtocol.ReturnsIff` | hardware/ril/reference-ril/atchannel.c:900-939 | It returns exactly when an attempt succeeded or the tries are used up. |
| `AtProtocol.SmsLinesArePaired` | hardware/ril/reference-ril/atchannel.c:446-482 | In every run lines are delivered in pairs exactly when the first announces an SMS. |
| `AtProtocol.EveryLineGoesToOnePlace` | hardware/ril/reference-ril/atchannel.c:431-468 | In every run, serialised or not, the lines read are those delivered, each to one place, in order; only half an SMS pair cut off at the end is lost. |
| `AtProtocol.ProcessAccounts` | hardware/ril/reference-ril/atchannel.c:431-468 | Processing a line delivers exactly that line. |
| `AtProtocol.ReadLineAccounts` | hardware/ril/reference-ril/atchannel.c:431-468 | The line behind an SMS header completes the pair. |
| `AtProtocol.UnserialisedCallersCanCrash` | hardware/ril/reference-ril/atchannel.c:680-733 | Two callers that are not serialised: a concrete run in which the first reads the final response of no response. |
| `AtProtocol.SafeIffSerialised` | hardware/ril/reference-ril/atchannel.c:740-771 | Exact condition: all runs are free of such a read if and only if callers are serialised. |
| `AtProtocol.NeverOverlappingIsSerialised` | hardware/ril/reference-ril/atchannel.c:673-771 | An unserialised run in which no send is entered while another is in progress ends in the state of a serialised run. |
| `AtProtocol.NeverOverlappingIsSafe` | hardware/ril/reference-ril/atchannel.c:673-771 | So in every such run no writer reads a missing response, a response is pending exactly while one writer is inside its send, and every answer is faithful. |
| `AtTokens.NextTokShrinks` | hardware/ril/reference-ril/at_tok.c:69-87 | Every call on a non-null cursor yields a token and strictly shrinks the rest, so loops over it end. |
| `AtTokens.ReadsBack` | hardware/ril/reference-ril/at_tok.c:69-87 | Any printed list of quoted and unquoted tokens is read back by as many calls as it has tokens. |
| `AtTokens.HasMoreLoopReadsBack` | hardware/ril/reference-ril/at_tok.c:185-188 | A loop over hasmore reads all of them, except an empty unquoted last token, which it misses; exactly then. |
| `AtTokens.NextTokOfFirst` | hardware/ril/reference-ril/at_tok.c:69-87 | A token followed by others is read back and the cursor is at the next one. |
| `AtTokens.CutBehind` | hardware/ril/reference-ril/at_tok.c:69-87 | strsep skips what does not contain the delimiter. |
| `AtTokens.TokenWithin` | hardware/ril/reference-ril/at_tok.c:69-87 | A token is made of characters of the line. |
| `AtTokens.StringSurvives` | hardware/ril/reference-ril/at_tok.c:69-87 | A token cut off earlier survives later cuts in the buffer. |
| `AtTokens.ToInt` | hardware/ril/reference-ril/at_tok.c:97-126 | The value in 32-bit range; values already in range are unchanged. |
| `AtTokens.StrToLOfDigits` | hardware/ril/reference-ril/at_tok.c:97-126 | Digits are read as a whole, with a sign, kept within the range of long. |
| `AtTokens.StrToLOfDecimal` | hardware/ril/reference-ril/at_tok.c:97-126 | Every 32-bit integer printed in decimal is read back. |
| `AtTokens.SpacesIff` | hardware/ril/reference-ril/at_tok.c:47-55 | The six white-space characters of the C locale are skipped. |
| `AtTokens.ClampedIsNearest` | hardware/ril/reference-ril/at_tok.c:97-126 | A value that is no long becomes the nearest long. |
| `AtTokens.ToIntWraps` | hardware/ril/reference-ril/at_tok.c:97-126 | A long that is no int wraps around. |
| `AtTokens.CmeErrorOfOthers` | hardware/ril/reference-ril/atchannel.c:945-975 | Success reports success; a failure without a CME line, as with a plain ERROR, reports that it is no CME error, and never success. |
| `AtTokens.CmeErrorDecodes` | hardware/ril/reference-ril/atchannel.c:945-975 | A failed "+CME ERROR: n" (3GPP TS 27.007, section 9.2) decodes to n for every 32-bit n. |
| `AtTokenizer.Tokenizer.SkipWhiteSpace` | hardware/ril/reference-ril/at_tok.c:47-55 | The cursor moves over leading blanks only. |
| `AtTokenizer.Tokenizer.SkipNextComma` | hardware/ril/reference-ril/at_tok.c:57-67 | The cursor moves behind the next comma, or to the end. |
| `AtTokenizer.Tokenizer.Strsep` | hardware/ril/reference-ril/at_tok.c:69-87 | The text before the delimiter is cut off in place by one NUL; nothing else of the buffer changes. |
| `AtTokenizer.Tokenizer.NextToken` | hardware/ril/reference-ril/at_tok.c:69-87 | The token cut off in the buffer and the cursor behind it are those of the specification; what was cut off before stays. |
| `AtTokenizer.Tokenizer.Start` | hardware/ril/reference-ril/at_tok.c:28-45 | The cursor moves behind the first colon, or becomes null when there is none. |
| `AtTokenizer.Tokenizer.NextInteger` | hardware/ril/reference-ril/at_tok.c:97-141 | The integer of the next token, if it starts with one. |
| `AtTokenizer.Tokenizer.HasMoreTokens` | hardware/ril/reference-ril/at_tok.c:185-188 | True exactly when something is left. |
| `AtTokenizer.Tokenizer.ReadAll` | hardware/ril/reference-ril/at_tok.c:69-188 | After the loop every token of the line stands, NUL-terminated, in the buffer. |
| `AtTokenizer.GetCmeError` | hardware/ril/reference-ril/atchannel.c:945-975 | Computes the specified error through the destructive tokenizer. |
| `RequestTracking.UsersOfAdded` | hardware/webcam/request_tracker.cpp:57-71 | Adding a request raises the number of users of exactly its streams. |
| `RequestTracking.UsersOfRemoved` | hardware/webcam/request_tracker.cpp:73-101 | Removing one lowers it for exactly its streams. |
| `RequestTracking.AddedTracked` | hardware/webcam/request_tracker.cpp:57-71 | Adding keeps every counter equal to the number of requests in flight that use the stream, and within its limit. |
| `RequestTracking.RemovedTracked` | hardware/webcam/request_tracker.cpp:73-101 | So does removing. |
| `RequestTracking.RemovedValues` | hardware/webcam/request_tracker.cpp:73-101 | Removing a request's own entry removes just that request. |
| `RequestTracking.RequestTracker.SetStreamConfiguration` | hardware/webcam/request_tracker.cpp:30-38 | The configured streams are exactly those given, all unused. |
| `RequestTracking.RequestTracker.Add` | hardware/webcam/request_tracker.cpp:57-71 | Succeeds exactly when the frame number is not in flight and on each stream named, as input or output, fewer requests are in flight than it has buffers; then tracks the request, else changes nothing. |
| `RequestTracking.RequestTracker.HasRoomIff` | hardware/webcam/request_tracker.cpp:122-148 | The check accepts the last free buffer of a stream, and refuses exactly what exceeds a limit or names a stream that is not configured. |
| `RequestTracking.RequestTracker.Remove` | hardware/webcam/request_tracker.cpp:73-101 | Removes exactly this object; another request with its frame number stays. |
| `RequestTracking.RequestTracker.Clear` | hardware/webcam/request_tracker.cpp:103-118 | Reports exactly what was in flight and keeps the configuration, all counters zero. |
| `CameraDevice.OrderExtends` | hardware/webcam/camera.cpp:344-394 | An event in order extends a well-ordered history. |
| `CameraDevice.AnsweredAccounted` | hardware/webcam/camera.cpp:405-447 | Answering a request in flight keeps the accepted requests the disjoint union of those in flight and those answered. |
| `CameraDevice.AcceptedAccounted` | hardware/webcam/camera.cpp:323-403 | So does accepting one. |
| `CameraDevice.CallbacksAt` | hardware/webcam/camera.cpp:405-447 | The framework is told two things per answer: the shutter with its time or the error, with the frame number, and then the result of that request. |
| `CameraDevice.Camera.OpenDevice` | hardware/webcam/camera.cpp:72-92 | Opens a device that is not busy. |
| `CameraDevice.FormatTable.FixFormats` | hardware/webcam/camera.cpp:182-188 | Exactly the listed streams whose format is left to the device get RGBA; all others keep theirs. |
| `CameraDevice.Camera.ConfigureStreams` | hardware/webcam/camera.cpp:173-223 | The formats left to the device are fixed in any case. With requests in flight nothing else changes; otherwise success installs the streams and demands new settings, a fatal error leaves no configuration, any other leaves the old one. |
| `CameraDevice.Camera.ProcessCaptureRequest` | hardware/webcam/camera.cpp:323-403 | Accepts exactly when the frame number is not in flight, every stream named has a free buffer, an output is named, settings are given or were since the configuration, and they and the buffers are in order; then the new object is in flight, else nothing changes; the status tells buffers that are not ready from everything else. |
| `CameraDevice.Camera.CompleteRequest` | hardware/webcam/camera.cpp:405-447 | Answers a request in flight with one notification and one result; a late, repeated or mistaken completion changes nothing, whatever its frame number. |
| `CameraDevice.Camera.Flush` | hardware/webcam/camera.cpp:449-471 | Answers exactly the requests in flight, each with an error, and empties the tracking. |
| `CameraDevice.Camera.FlushOne` | hardware/webcam/camera.cpp:511-545 | One error notification followed by one result. |
| `CameraDevice.Camera.Close` | hardware/webcam/camera.cpp:140-156 | Afterwards every request ever accepted is answered. |
| `CameraDevice.Camera.Run` | hardware/webcam/camera.cpp:173-545 | In every interleaving of framework calls and device completions: accepted requests are the disjoint union of in-flight and answered ones, and those of the event history, in order; each answer is one notify followed by one result; counters match; no request is accepted without a configuration, nor the first one under it without settings. |
| `MetadataBuffers.DataSizeIsLeast` | hardware/webcam/camera_metadata.cpp:292-348 | Values of at most four bytes need no data, others the least multiple of eight bytes that holds them. |
| `MetadataBuffers.DataCountSplit` | hardware/webcam/camera_metadata.cpp:292-348 | Replacing or deleting an entry changes the data in use by that entry's data only. |
| `MetadataBuffers.LookupAdded` | hardware/webcam/camera_metadata.cpp:292-348 | Adding an entry for an absent tag changes the lookup of that tag only. |
| `MetadataBuffers.LookupUpdated` | hardware/webcam/camera_metadata.cpp:292-348 | Updating the first entry of a tag changes the lookup of that tag only. |
| `MetadataBuffers.LookupDeleted` | hardware/webcam/camera_metadata.cpp:382-409 | Deleting the first entry of a tag uncovers the next one and changes no other lookup. |
| `MetadataBuffers.AsMapIsLookup` | hardware/webcam/camera_metadata.cpp:355-380 | A buffer stands for the finite map of its lookups. |
| `CameraMetadata.Resized` | hardware/webcam/camera_metadata.cpp:415-451 | The resized buffer keeps all entries, has the room asked for, and differs exactly when the old one lacked room. |
| `CameraMetadata.ResizedDoubles` | hardware/webcam/camera_metadata.cpp:415-451 | Each kind of capacity stays while it suffices and otherwise becomes twice what is needed. |
| `CameraMetadata.Metadata.Enlarge` | hardware/webcam/camera_metadata.cpp:432-447 | A resize copies the entries and at least doubles each capacity it raises, so that a capacity is raised at most as often as its logarithm. |
| `CameraMetadata.Metadata.ResizeIfNeeded` | hardware/webcam/camera_metadata.cpp:415-451 | The new buffer, the number of entries copied and the error, in every case; without memory the old buffer is gone. |
| `CameraMetadata.Metadata.StoreEntry` | hardware/webcam/camera_metadata.cpp:320-345 | In a buffer with room the tag maps to the values and every other tag as before. |
| `CameraMetadata.Metadata.UpdateImpl` | hardware/webcam/camera_metadata.cpp:292-348 | Refines the update of a finite map; fails only for a locked object, an unknown tag, aliased data or lack of memory, and then changes nothing but for the last. |
| `CameraMetadata.Metadata.Erase` | hardware/webcam/camera_metadata.cpp:382-409 | Removes the first entry of the tag; the tag is gone exactly when it occurred once, and then this refines removal from a finite map; a buffer without repeated tags stays so. |
| `CameraMetadata.OnceMeansNoneBehind` | hardware/webcam/camera_metadata.cpp:382-409 | Behind the first entry of a tag there is another unless the tag occurs once. |
| `CameraMetadata.ErasedLookups` | hardware/webcam/camera_metadata.cpp:382-409 | Erasing changes no other lookup, and removes the tag exactly when it occurred once. |
| `CameraMetadata.AppendedTagSurvivesErase` | hardware/webcam/camera_metadata.cpp:142-157 | A failing input, for every tag and values: a tag that a second buffer also held survives being erased after an append. |
| `CameraMetadata.Metadata.Append` | hardware/webcam/camera_metadata.cpp:142-157 | The other entries follow the own ones. |
| `CameraMetadata.Metadata.Unlock` | hardware/webcam/camera_metadata.cpp:82-94 | Unlocks only a locked object for the buffer it gave out. |
| `CameraMetadata.Metadata.Release` | hardware/webcam/camera_metadata.cpp:96-104 | Gives the buffer away unless locked. |
| `CameraMetadata.Metadata.Clear` | hardware/webcam/camera_metadata.cpp:106-115 | Drops the buffer unless locked. |
| `CameraMetadata.Metadata.Run` | hardware/webcam/camera_metadata.cpp:292-451 | Any updates, erasures, locks and clears, with unknown tags, aliased data and failing allocations: no tag occurs twice; since the object has a buffer each capacity was raised at most as often as its logarithm; while values need no data area, resizes copy at most twice as many entries as are added. |
| `CameraMetadata.Metadata.Perform` | hardware/webcam/camera_metadata.cpp:292-451 | So every erasure in such a run is the removal of a tag from the map. |
| `StaticProperties.ConstructStreamCapabilities` | hardware/webcam/static_properties.cpp:31-61 | Fails exactly for an unknown direction; otherwise the map describes the configurations and last stall durations. |
| `StaticProperties.LastStallIsLast` | hardware/webcam/static_properties.cpp:47-58 | Of several stalls given for a spec the last one counts. |
| `StaticProperties.DescriptionIsUnique` | hardware/webcam/static_properties.cpp:31-61 | There is only one such map. |
| `StaticProperties.ValidateStreamCapabilities` | hardware/webcam/static_properties.cpp:64-82 | Accepts exactly when every output has a stall duration. |
| `StaticProperties.SubsetOfSameSize` | hardware/webcam/static_properties.cpp:84-141 | Equal size and inclusion make two sets equal. |
| `StaticProperties.ValidateReprocessFormats` | hardware/webcam/static_properties.cpp:84-141 | Accepts exactly when there is an input format, the keys are the input formats and all targets are output formats. |
| `StaticProperties.NewStaticProperties` | hardware/webcam/static_properties.cpp:143-190 | Accepted properties satisfy both validations when inputs are allowed; it refuses only what is unreadable or violates one of them. |
| `StaticProperties.InputStreamsSupported` | hardware/webcam/static_properties.cpp:295-369 | For accepted properties the branch for an input format without outputs is never taken, for any configuration; the verdict is right in every case. |
| `StaticProperties.OutputStreamsSupported` | hardware/webcam/static_properties.cpp:371-438 | Accepts exactly when every output stream is a supported output under its lookup format; states the format each stream is left with; an accepted configuration respects the three limits, counted as it was passed, if and only if nothing is reported, and the report names the limit. |
| `StaticProperties.CountOutputs` | hardware/webcam/static_properties.cpp:374-406 | The three counters taken from the rewritten streams are those of the configuration as it was passed. |
| `StaticProperties.CheckOutput` | hardware/webcam/static_properties.cpp:377-406 | An output stream is looked up, left with its final format and classed as raw, stalling or non-stalling. |
| `StaticProperties.AcceptedAboveLimit` | hardware/webcam/static_properties.cpp:408-435 | Any number of streams of a supported output is accepted, whatever limit they count against. |
| `StaticProperties.LimitsEnforcedIff` | hardware/webcam/static_properties.cpp:408-435 | Exact condition: acceptance enforces the limits for all configurations if and only if no limit is negative and nothing is a supported output. |
| `StaticProperties.EachLimitIsExceeded` | hardware/webcam/static_properties.cpp:408-435 | For any limits there are accepted properties with, for each limit, an accepted configuration above it. |
| `StaticProperties.SupportIff` | hardware/webcam/static_properties.cpp:300-396 | Two-way streams are inputs and outputs; an input is supported if its spec is listed as one, an output if its spec is, where RGBA stands for the format left to the device. |
| `StaticProperties.FormatsIff` | hardware/webcam/static_properties.cpp:378-386 | The raw formats are the four; RGBA is looked up as the format left to the device, and that one is left as RGBA. |
| `StaticProperties.ClassIff` | hardware/webcam/static_properties.cpp:387-404 | Which limit a stream counts against, for every stream: the raw one by its format, else the stalling one by the stall of its capability, else the last. |
| `StaticProperties.LookupIsStable` | hardware/webcam/static_properties.cpp:378-386 | Looking a stream up again after its format was rewritten gives the same answer, and rewriting makes no format raw or not raw. |
| `PcmLoops.SlicesAt` | hardware/audio/pixel3/audio_hw.c:3692-3700 | Byte j of frame i of a part stands at i times the part's width plus j. |
| `PcmLoops.InterleaveRestores` | hardware/audio/pixel3/audio_hw.c:3692-3700 | Interleaving the two parts gives the original frames back: nothing is lost. |
| `PcmLoops.CopyWithin` | hardware/audio/pixel3/audio_hw.c:3693-3694 | The overlapping copy down within the buffer moves the original bytes. |
| `PcmLoops.SeparateFrame` | hardware/audio/pixel3/audio_hw.c:3692-3700 | One frame extends both parts and leaves what is behind untouched. |
| `PcmLoops.SeparateHaptics` | hardware/audio/pixel3/audio_hw.c:3692-3700 | For every frame count and split the audio parts stand in order at the front of the buffer and the haptic parts in order in the haptic buffer. |
| `PcmLoops.MeanIsSample` | hardware/audio/pixel3/audio_hw.c:3617-3619 | The mean rounded down is a 16-bit sample; the conversion truncates nothing. |
| `PcmLoops.Mono` | hardware/audio/pixel3/audio_hw.c:3617-3619 | The means of samples are samples. |
| `PcmLoops.MixedStep` | hardware/audio/pixel3/audio_hw.c:3617-3619 | Mixing one more pair finds it unchanged by the earlier ones. |
| `PcmLoops.MixDown` | hardware/audio/pixel3/audio_hw.c:3609-3620 | The in-place loop leaves the floor averages of the original pairs at the front and the rest as it was. |
| `WcamPipeline.BlocksInOrder` | hardware/audio/common/audio_hw.c:1065-1069 | The k-th block handed to the resampler is the k-th stretch of 4096 received bytes. |
| `WcamPipeline.BlockTaken` | hardware/audio/common/audio_hw.c:1065-1069 | A block moves from the front of the buffered bytes to the end of the blocks. |
| `WcamPipeline.Pipeline.Receive` | hardware/audio/common/audio_hw.c:1056-1081 | At the head of every iteration the buffer is at most full minus one block, so the full branch never fires; bytes, blocks and accepted conversions stay in order. |
| `WcamPipeline.Pipeline.TakeBlock` | hardware/audio/common/audio_hw.c:1065-1069 | The oldest block is cut off and the rest moves up. |
| `WcamPipeline.Pipeline.Queue` | hardware/audio/common/audio_hw.c:1071-1078 | A converted block is queued, or dropped exactly when it does not fit. |
| `WcamPipeline.Pipeline.InRead` | hardware/audio/common/audio_hw.c:409-433 | Delivers the full request exactly when enough is queued, otherwise nothing; first in, first out. |
| `WcamPipeline.Pipeline.Reset` | hardware/audio/common/audio_hw.c:391-415 | Both buffers are empty afterwards. |
| `WcamPipeline.Pipeline.Run` | hardware/audio/common/audio_hw.c:1056-1081 | Any interleaving of whole receive iterations, reads and resets keeps both orders. |
| `WcamRaces.HeadIsBounded` | hardware/audio/common/audio_hw.c:1056-1081 | In every run, however resets fall into an iteration, the size at the head of the loop leaves room for a block and the branch for a full buffer is never taken. |
| `WcamRaces.NegativeIff` | hardware/audio/common/audio_hw.c:1065-1068 | Exact condition, for every run: the buffered size becomes negative if and only if a block is subtracted from a size that was loaded although a reset fell in since the test for it. |
| `WcamRaces.MisplacedIff` | hardware/audio/common/audio_hw.c:1057-1064 | Exact condition, for every run: bytes are stored elsewhere than they are counted if and only if they are counted although a reset fell in since the offset behind others was read. |
| `WcamRaces.ResetCanBreakTheLoop` | hardware/audio/common/audio_hw.c:1065-1068 | A failing run: the size becomes -4096 and memmove is asked to move that many bytes. |
| `WcamRaces.OverrunIff` | hardware/audio/common/audio_hw.c:1057-1057 | Exact condition, for every run: recv() stores bytes behind the end of the buffer if and only if a reset fell in between its reads of the offset and of the length, in this order, and it yields more bytes than there is room for. |
| `WcamRaces.LengthFirstIsSafe` | hardware/audio/common/audio_hw.c:1057-1057 | No run that reads the length before the offset stores bytes behind the end of the buffer. |
| `WcamRaces.LostIff` | hardware/audio/common/audio_hw.c:1062-1067 | Exact condition, for every run: a reset is overwritten if and only if it fell in between a load of the size and its store. |
| `WcamRaces.RecvAndMoveIff` | hardware/audio/common/audio_hw.c:1057-1068 | In every run recv() can yield any number of bytes up to its length, and memmove is asked for a negative size exactly when the size is negative. |
| `WcamRaces.ResetCanOverrunTheBuffer` | hardware/audio/common/audio_hw.c:1057-1057 | A failing run: with one byte buffered, recv() stores a whole buffer's length behind it. |
| `WcamRaces.ResetCanBeLost` | hardware/audio/common/audio_hw.c:1065-1068 | A failing run: a reset between the load and the store of the subtraction is overwritten, and what was received before it is still counted. |
| `StreamFormats.FindFormatByResolution` | hardware/webcam/stream_format.cpp:184-196 | The first entry of that resolution, exactly when there is one. |
| `StreamFormats.GetQualifiedFormats` | hardware/webcam/stream_format.cpp:198-219 | One entry per resolution available in a preferred format, each of the most preferred format available and the first such in the input. |
| `StreamFormats.AddQualifies` | hardware/webcam/stream_format.cpp:198-219 | An entry whose resolution is not covered yet is the best choice for it. |
| `StreamFormats.ChosenIsPreferred` | hardware/webcam/stream_format.cpp:198-219 | Of each resolution YUYV is chosen if it is supported, else MJPEG, and of several entries the first. |
| `StreamFormats.QualifiedResolutions` | hardware/webcam/stream_format.cpp:198-219 | A resolution is in the qualified list exactly when some preferred format has it. |
| `StreamFormats.FindBestFitFormat` | hardware/webcam/stream_format.cpp:147-181 | Succeeds exactly when there is an exact match, or the conversion is allowed and the resolution qualified; the exact match wins. |
| `StreamFormats.ServeRequest` | hardware/webcam/stream_format.cpp:147-219 | Both together: a request is served exactly when its format is supported as is, or can be converted to and some preferred format has the resolution. |

## Left out

- AudioRouting.AudioDevice.Run: supposes that ids of active use cases are distinct and that a stream is started only while none of its use cases is active. That counts obey the law is not claimed once a device failed to start; what they are is.
- AudioRouting.AudioDevice.SelectDevices: the answers of the platform are arbitrary but stay the same during one call. A hands-free call is active exactly when its use case is on the list, as in `hardware/audio/pixel3/audio_extn/hfp.c:414-423`.
- AudioRouting.AudioDevice.StartOutputStream: the renaming of in-call music use cases happens before the call; a stream that A2DP mutes counts as out of standby, as it is whenever a write starts it.
- AtReader.Reader.ReadAll: for inputs without NUL, without a line that begins like the SMS prompt, and with each terminator run plus the line behind it shorter than the buffer; the cursor after a prompt and the dropping of an over-long line are not modelled.
- AtProtocol.RunKeepsInv: for callers serialised by the write mutex; of others, AtProtocol.SafeIffSerialised and AtProtocol.NeverOverlappingIsSafe speak. The memory of the strings, the reader's callbacks and the wrappers that free a response without intermediate lines are not modelled.
- OffloadThread.RunKeepsInv: condition variables may wake at any time, as POSIX allows; which of several waiting threads a signal wakes is not modelled. OffloadLiveness says what can still happen in some continuation, not what a fair scheduler brings about.
- CameraMetadata.Metadata.Run: the bound on entries copied is for values that need no data area; the behaviour of the metadata library, which is not part of this model, is taken from its use.
- CameraMetadata.Metadata.UpdateImpl: whether the data lies inside the own buffer is a parameter, as addresses are not modelled.
- CameraMetadata.Metadata.Unlock: whether the caller passes the buffer it was given is a parameter.
- CameraDevice.Camera.ConfigureStreams: what validating and setting the streams up answers is a parameter; a null configuration is left out.
- CameraDevice.Camera.ProcessCaptureRequest: a null request, fences, descriptors and the content of settings are parameters or left out.
- WcamPipeline.Pipeline.Run: a reset falls between two iterations of the receive loop; WcamRaces models resets inside an iteration, with the size but not the content of the buffers, and with each read and each write of the size as one step.
- StaticProperties.NewStaticProperties: parsing of the raw metadata is a parameter; null checks and the operation mode are left out.
- PcmLoops.SeparateHaptics: the allocation of the haptic buffer is a precondition on its size.
- Mixer paths, echo references, effects, sidetone, HDMI channels, calibration, speaker protection and logging in the audio routing: foreign calls without effect on the list or the counts.
- Volume, gain and zoom: floating point.
- Hexadecimal, unsigned and boolean variants of the integer tokens: the same tokenizer with another base.
- Sorting and parcelling of metadata: foreign calls and transport.
- V4L2 threads and ioctls, FlySocket, frame conversion, EXIF and JPEG: foreign calls and ad hoc framing.
- Factory tables of formats and metadata defaults, stub audio policy, XML handling of platform info: tables and plumbing.
