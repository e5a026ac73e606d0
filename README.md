# Live violence-detection session, modelled in Dafny

This project models the session controller behind the live detection panel
of a browser front end for a violence-detection service, and the two small
views that read what the panel leaves behind. The source entities are:

- the panel (`LiveDetectionPanel`): an operator picks a camera, a stream
  address or a video file as the source, starts detection, and watches
  boxes and a capped history of detection events build up;
- the navigation bar (`TopNav`): it shows the connection status the panel
  writes;
- the results page (`ResultsView`, in two identical copies): it summarises
  the handed-off event history.

The panel's React state is the set of fields of one class,
`Session.DetectionSession`. Each handler is a method of that class. Whatever
the browser decides is a parameter of the method:

- camera permission;
- whether the inference socket could be created;
- the random numbers of the simulated generator;
- clocks and captured frames;
- object URLs.

The pure derivations are functions in their own modules:

| module | what it models |
|---|---|
| `Detection` | box conversion, threshold test, event construction |
| `History` | the 50-event cap |
| `PreferenceStore` | load, save and reset of preferences |
| `Sources` | camera list, device constraint, video-file test |
| `EventLog` | the filtered event list and the CSV export |
| `Handoff` | the record passed to the results page |
| `TopNav` | the bar's status check and colour mapping |
| `ResultsView` | loading and summarising the handed-off record |
| `Text` | JavaScript string operations: `trim`, `includes`, `join`, `split`, decimal rendering |

Confidences, thresholds and coordinates are `real`, so the ×100 and ÷100 of
the threshold tests are exact.

The model follows the code in these points:

- The socket's handlers and both loops are closures made when
  `startDetection` ran. They use the threshold, the model and the detection
  state of that moment, which the session keeps as `startedThreshold`,
  `startedModel` and `startedState` (`StartDetection`,
  `HandleDetectionResult`, `SendFrameTick`, `SimulatedTick`). Changing the
  threshold while detecting does not change which detections become events.
- The loops test `startedState`, which is always `streaming`, so as written
  each runs a single tick (`SendFrameTick`, `SimulatedTick`).
- Preferences are loaded as written, with `||`, so a saved threshold of 0
  reloads as 70 (`LoadStoredPreferences`). The corrected load is kept as
  the reference `PreferenceStore.Load`.
- The `<video>` element is rendered only while the panel is connected or
  not idle, and every handler that would connect needs it first. The
  session takes the layout as a constructor argument: `MountedWhenActive`
  is the code as written, under which the panel never connects
  (`DetectionSession.Valid`, `AsWrittenPanelNeverConnects`);
  `AlwaysMounted` is the layout the handlers assume
  (`AlwaysMountedPanelConnects`). Every handler finds the element that the
  state committed before it runs renders (`VideoPresent`).
- Without a rendered element `viewResults` removes the stored video address
  and captures no frame, so the stored snapshot stays (`ViewResults`). With
  the element always rendered, a disconnect sets its `src` to the empty
  string, and the reflected property reads that back as the page's own
  address (`Handoff.ReflectedSrc`).
- A result message is handled only from the open socket, and a simulated
  or frame tick only when one is due (`HandleDetectionResult`,
  `SimulatedTick`, `SendFrameTick`). `stopDetection` closes the socket and
  cancels the pending animation frame, so after it no result and no
  simulated tick can add events (`StopDetection`).
- Only a WebSocket constructor that throws falls back to the simulated
  generator. A socket that later reports an error (`onerror`) only raises a
  notice: the detection state stays as it was and no fallback starts
  (`LinkFailed`).
- Switching the input mode neither stops the previous source nor
  disconnects (`SelectInputMode`).
- A successful camera start does not close an existing socket.
- A file upload sets `src` but leaves a camera stream's `srcObject`
  attached.

## Model

| member | source | states |
|---|---|---|
| History.Prepend | src/components/LiveDetectionPanel.tsx:358 | the new event is first, the history never exceeds 50, and the earlier events follow in order with only the oldest beyond 49 dropped |
| History.PrependAllIsNewest | src/components/LiveDetectionPanel.tsx:425-437 | prepending a run of events one by one leaves the newest 50 of (the run reversed, then the old history) |
| History.ManyDetectionsKeepNewestFifty | src/components/LiveDetectionPanel.tsx:358 | at least fifty events in a row leave exactly fifty, the newest first |
| History.PrependAllBounded | src/components/LiveDetectionPanel.tsx:435 | a run of prepends keeps the history within 50 and puts the last event of the run at index 0 |
| Detection.StatusString | src/components/LiveDetectionPanel.tsx:161-169 | connected is written as Connected, connecting as Reconnecting, and disconnected and error both as Disconnected |
| Detection.ToBox | src/components/LiveDetectionPanel.tsx:412-419 | the box starts at the first corner, reaches the second, has 100 times the confidence, and is labelled with the class or Violence when there is none |
| Detection.Qualifies | src/components/LiveDetectionPanel.tsx:412 | a detection qualifies exactly when its box, at 100 times the confidence, reaches the threshold |
| Detection.ConvertDetections | src/components/LiveDetectionPanel.tsx:410-420 | every box kept reaches the threshold; no more boxes than detections; all qualifying keeps all of them and none qualifying keeps none |
| Detection.ConvertDetectionsAppend | src/components/LiveDetectionPanel.tsx:410-420 | conversion distributes over concatenation, so the boxes keep the detections' order |
| Detection.ConvertDetectionsSingle | src/components/LiveDetectionPanel.tsx:411-412 | a detection is kept and converted exactly when its confidence reaches threshold/100 |
| Detection.NewEvent | src/components/LiveDetectionPanel.tsx:427-433 | the event takes the box's confidence, the selected model and the supplied id and time; its thumbnail is empty without a video element |
| Detection.EventsFor | src/components/LiveDetectionPanel.tsx:425-437 | no more events than boxes, each at or above the threshold and naming the given model |
| Detection.EventsForEveryBox | src/components/LiveDetectionPanel.tsx:425-437 | when every box reaches the threshold, each box gives exactly one event, in box order |
| Detection.IngestedBoxesAllBecomeEvents | src/components/LiveDetectionPanel.tsx:409-437 | every box a result yields reaches the threshold again after the ×100, so each gives one event with its confidence and the selected model |
| Detection.SimulatedBox | src/components/LiveDetectionPanel.tsx:336-343 | a simulated box lies inside the frame, its size is between 0.1 and 0.3, its confidence is in [60, 100) and its label is Violence |
| PreferenceStore.OrText | src/components/LiveDetectionPanel.tsx:129-132 | the stored text is used unless it is missing or empty, in which case the default is |
| PreferenceStore.OrNumber | src/components/LiveDetectionPanel.tsx:130 | the stored number when present and non-zero, the default when missing or zero |
| PreferenceStore.OrInt | src/components/LiveDetectionPanel.tsx:134-135 | the stored count when present and non-zero, the default when missing or zero |
| PreferenceStore.Save | src/components/LiveDetectionPanel.tsx:143-154 | every preference is written |
| PreferenceStore.LoadAsWritten | src/components/LiveDetectionPanel.tsx:124-140 | without a readable record nothing changes; with one, the GPU flag is read with `??` and a stored threshold of 0 becomes 70 |
| PreferenceStore.SaveLoadAsWrittenRoundTrip | src/components/LiveDetectionPanel.tsx:124-154 | save then the load as written gives back exactly the saved preferences iff the model and sensitivity are non-empty and the threshold, sampling rate and clip length non-zero |
| PreferenceStore.LoadAsWrittenDiffersOnlyAtZero | src/components/LiveDetectionPanel.tsx:130 | the loads as written and corrected agree except on a record whose threshold is 0, where the corrected one keeps 0 and the one as written gives 70 |
| PreferenceStore.ZeroThresholdReloadsAsSeventy | src/components/LiveDetectionPanel.tsx:130 | for any preferences with a threshold of 0, which the slider allows, save then the load as written gives 70 and not the saved preferences |
| PreferenceStore.Load | src/components/LiveDetectionPanel.tsx:124-140 | (corrected) without a readable record nothing changes; with one, the GPU flag and the threshold are read with `??` semantics |
| PreferenceStore.SaveLoadRoundTrip | src/components/LiveDetectionPanel.tsx:124-154 | (corrected) save then load gives back exactly the saved preferences iff the model and sensitivity are non-empty and the sampling rate and clip length non-zero |
| PreferenceStore.SaveLoadInRange | src/components/LiveDetectionPanel.tsx:124-154 | every value the controls can produce, a threshold of 0 and a GPU flag of false included, survives save and load |
| PreferenceStore.EmptyRecordGivesDefaults | src/components/LiveDetectionPanel.tsx:83-85 | an empty record loads as the defaults movinet-a1, 70, camera, medium, GPU on, 3, 10; so does no record at start-up |
| PreferenceStore.LoadKeepsRange | src/components/LiveDetectionPanel.tsx:124-140 | loading in-range stored values keeps every preference in the controls' ranges |
| PreferenceStore.Reset | src/components/LiveDetectionPanel.tsx:512-522 | reset restores every default except the input mode, which is kept |
| Sources.UsableCameras | src/components/LiveDetectionPanel.tsx:178-179 | the kept devices are exactly the video inputs with a non-blank device id |
| Sources.UsableCamerasAppend | src/components/LiveDetectionPanel.tsx:178-179 | the filter distributes over concatenation, so the kept devices keep the enumeration's order |
| Sources.UsableCamerasSingle | src/components/LiveDetectionPanel.tsx:178-179 | one device is kept, once, exactly when it is a video input with a non-blank id |
| Sources.LabelCameras | src/components/LiveDetectionPanel.tsx:180-187 | each camera keeps its id and label, or gets the fallback id and `Camera <n>` counting from 1 |
| Sources.CameraOptions | src/components/LiveDetectionPanel.tsx:178-187 | one option per usable camera, in order, each with that camera's id and a non-empty label |
| Sources.CameraOptionsFaithful | src/components/LiveDetectionPanel.tsx:174-201 | every offered camera is a usable input that keeps its id and has a non-empty label |
| Sources.InitialSelection | src/components/LiveDetectionPanel.tsx:192-194 | the first camera is selected only when the user is still on the default camera |
| Sources.DeviceConstraint | src/components/LiveDetectionPanel.tsx:208-213 | the request names a device exactly when one other than the default is selected |
| Sources.FirstVideoFile | src/components/LiveDetectionPanel.tsx:571-572 | the first dropped file whose type starts with video/, or none when there is none |
| EventLog.Shown | src/components/LiveDetectionPanel.tsx:526-532 | an event shown is no false positive, reaches the threshold when the switch is on and matches the filter when there is one; with neither, exactly the non-false-positives are shown |
| EventLog.FilteredEvents | src/components/LiveDetectionPanel.tsx:525-533 | the list is an order-preserving subsequence of the history holding exactly the events the controls let through |
| EventLog.FilteredEventsSingle | src/components/LiveDetectionPanel.tsx:525-533 | a single event is listed once when it is shown and not at all otherwise, so with the append lemma each event appears as often as in the history |
| EventLog.FilteredEventsAppend | src/components/LiveDetectionPanel.tsx:525-533 | filtering distributes over concatenation |
| EventLog.FilteredEventsRespectView | src/components/LiveDetectionPanel.tsx:526-532 | no false positive is listed, and with the switch on no event below the threshold |
| EventLog.CsvLines | src/components/LiveDetectionPanel.tsx:537-545 | the export has a header line and one line per listed event |
| EventLog.ExportCsv | src/components/LiveDetectionPanel.tsx:536-545 | the exported text starts with the header `Timestamp,Confidence,Model,Note` |
| EventLog.HeaderLine | src/components/LiveDetectionPanel.tsx:538 | the header line is `Timestamp,Confidence,Model,Note` |
| EventLog.CsvShape | src/components/LiveDetectionPanel.tsx:536-545 | when no field holds a line break the text splits into exactly 1 + n lines, the header first, with no trailing line break |
| EventLog.CsvColumns | src/components/LiveDetectionPanel.tsx:539-545 | when no field holds a comma each event line splits back into its four fields |
| EventLog.CommaInNoteAddsColumn | src/components/LiveDetectionPanel.tsx:543-545 | fields are not quoted, so a note holding one comma gives a line of five columns: the first three fields and the two halves of the note |
| Handoff.ToStored | src/components/LiveDetectionPanel.tsx:473-476 | a stored event has its time as the ISO string and every other field copied |
| Handoff.Serialise | src/components/LiveDetectionPanel.tsx:473-477 | the stored history has the same length and order as the panel's |
| Handoff.ReflectedSrc | src/components/LiveDetectionPanel.tsx:478 | an unset `src` reads as "", an empty one as the page's address, any other as itself |
| Handoff.RecordedVideoSource | src/components/LiveDetectionPanel.tsx:478-479 | a video address is recorded exactly when the element exists, plays no stream of its own and has a non-empty source |
| ResultsView.Normalise | src/components/ResultsView.tsx:32-35 | a loaded event has a string time, is unchanged when it had one, and differs from the stored one in the time only |
| ResultsView.LoadEvents | client/src/components/ResultsView.tsx:28-36 | loading keeps the number and order of the events |
| ResultsView.OrEmpty | src/components/ResultsView.tsx:38-39 | a missing key reads as the empty string |
| ResultsView.Load | src/components/ResultsView.tsx:26-45 | events keep count and order and string times; unreadable events leave everything empty; otherwise missing keys read as "" |
| ResultsView.LoadAfterViewResults | src/components/ResultsView.tsx:28-36 | what the panel hands off loads back unchanged |
| ResultsView.HighCount | src/components/ResultsView.tsx:47 | the count is at most the number of events, equals it iff all reach 90, and is zero iff none does |
| ResultsView.HighCountAppend | src/components/ResultsView.tsx:47 | the count of a concatenation is the sum of the counts |
| ResultsView.HighCountSingle | src/components/ResultsView.tsx:47 | one event counts 1 when it reaches 90 and 0 otherwise, so the count is the number of events reaching 90 |
| ResultsView.MinConfidence | client/src/components/ResultsView.tsx:48-51 | the smallest confidence of a non-empty history |
| ResultsView.MaxConfidence | client/src/components/ResultsView.tsx:48-51 | the largest confidence of a non-empty history |
| ResultsView.SumBounds | src/components/ResultsView.tsx:49 | confidences between lo and hi sum to between n·lo and n·hi |
| ResultsView.MeanWithin | src/components/ResultsView.tsx:48-51 | confidences between lo and hi have a mean between lo and hi |
| ResultsView.MeanBetweenMinAndMax | src/components/ResultsView.tsx:48-51 | the mean lies between the smallest and the largest confidence |
| ResultsView.AverageText | client/src/components/ResultsView.tsx:48-51 | the average is "0.0" without events and the rendered mean otherwise |
| ResultsView.PreviewFor | src/components/ResultsView.tsx:75-105 | the video when there is a source, else the snapshot when there is one, else the placeholder, each iff its condition |
| ResultsView.ModelShown | client/src/components/ResultsView.tsx:161 | the newest event's model, or "-" when there is none or it is empty; never empty |
| ResultsView.NewestModelShown | src/components/ResultsView.tsx:161 | after a hand-off the page names the model of the panel's newest event |
| TopNav.StatusName | src/components/TopNav.tsx:20 | each status is written as its own name: Connected, Disconnected, Reconnecting |
| TopNav.StatusOfPanel | src/components/LiveDetectionPanel.tsx:161-169 | the status the bar reads is the one whose name the panel wrote |
| TopNav.ParseStatus | src/components/TopNav.tsx:34-35 | a stored string is accepted exactly when it is one of the three status names |
| TopNav.InitialStatus | src/components/TopNav.tsx:23-37 | the status is the stored name when valid and Disconnected otherwise |
| TopNav.ParseStatusName | src/components/TopNav.tsx:20-35 | every status name passes the stored-status check as itself |
| TopNav.StatusColor | src/components/TopNav.tsx:57-67 | green iff connected, amber iff reconnecting, red iff disconnected |
| TopNav.PanelStatusAccepted | src/components/TopNav.tsx:34-37 | every string the panel writes is accepted, and the panel's error state shows as Disconnected in red |
| TopNav.NavBar.constructor | src/components/TopNav.tsx:23-27 | the bar starts disconnected with every menu closed |
| TopNav.NavBar.Mount | src/components/TopNav.tsx:29-39 | mounting marks the client side and adopts a valid stored status, else keeps the current one |
| TopNav.NavBar.HandleUserAction | src/components/TopNav.tsx:41-47 | both menus close; the help popover and the status are unchanged |
| TopNav.NavBar.HandleOpenDemo | src/components/TopNav.tsx:49-55 | the help popover and the mobile menu close; the user menu and the status are unchanged |
| Session.TicksRun | src/components/LiveDetectionPanel.tsx:400-402 | a loop runs at most one tick per state it sees, and at least the first |
| Session.AsWrittenLoopRunsOnce | src/components/LiveDetectionPanel.tsx:373-375 | as written, a loop testing the state captured at a start outside detecting runs exactly one tick, whatever the later states |
| Session.CorrectedLoopRunsWhileDetecting | src/components/LiveDetectionPanel.tsx:400-402 | (corrected) a loop testing the current state runs every tick while detecting and stops at the first tick that sees another state |
| Detection.PrependEvents | src/components/LiveDetectionPanel.tsx:425-437 | the loop leaves the history as prepending, in order, one event per box reaching the threshold, and within 50 |
| Session.DetectionSession.constructor | src/components/LiveDetectionPanel.tsx:73-119 | the initial state: camera, disconnected, idle, the default preferences, nothing loaded, no link and no tick due; the video element is rendered only in the always-mounted layout, and has no source |
| Session.DetectionSession.LoadStoredPreferences | src/components/LiveDetectionPanel.tsx:124-140 | the preferences become the load as written of the stored record over the current ones |
| Session.DetectionSession.SavePreferences | src/components/LiveDetectionPanel.tsx:143-154 | every preference is written, and the record loads back as written as the current preferences iff model and sensitivity are non-empty and threshold, sampling rate and clip length non-zero |
| Session.DetectionSession.ResetToDefaults | src/components/LiveDetectionPanel.tsx:512-522 | the preferences are reset except the input mode, and high contrast is off |
| Session.DetectionSession.SelectInputMode | src/components/LiveDetectionPanel.tsx:619 | only the input mode changes |
| Session.DetectionSession.EnterStreamUrl | src/components/LiveDetectionPanel.tsx:674 | only the stream address changes |
| Session.DetectionSession.RefreshCameras | src/components/LiveDetectionPanel.tsx:174-201 | a failed enumeration empties the list; otherwise the list is the usable cameras and the first is selected if the user is on the default |
| Session.DetectionSession.StartCamera | src/components/LiveDetectionPanel.tsx:204-228 | refusal gives error with the detection state kept; on success the stream is attached, connected and streaming exactly when the committed connecting state renders the element, else the state stays connecting |
| Session.DetectionSession.BeginConnectStream | src/components/LiveDetectionPanel.tsx:231-241 | a blank address changes nothing; otherwise connecting, with the address for the delayed completion |
| Session.DetectionSession.CompleteConnectStream | src/components/LiveDetectionPanel.tsx:242-250 | when the committed state renders the element, its source is the address and the state connected and streaming; otherwise nothing changes |
| Session.DetectionSession.HandleFileUpload | src/components/LiveDetectionPanel.tsx:260-273 | a non-video file, or a state that renders no element, changes nothing; otherwise the source is the file's URL and the state connected and streaming |
| Session.DetectionSession.HandleDrop | src/components/LiveDetectionPanel.tsx:567-579 | the highlight goes; the first video file is uploaded as by a file upload, and without one, or without a rendered element, nothing else changes |
| Session.DetectionSession.StartDetection | src/components/LiveDetectionPanel.tsx:276-314 | outside streaming nothing changes; otherwise the state, threshold and model of this moment are captured, a created socket is opening, and a constructor failure is detecting at once with the first simulated tick due |
| Session.DetectionSession.LinkOpened | src/components/LiveDetectionPanel.tsx:286-290 | an opened socket makes the session detecting, where the intended test would continue the loops, and the frame loop's first tick due |
| Session.DetectionSession.LinkFailed | src/components/LiveDetectionPanel.tsx:301-304 | a socket error changes no session state |
| Session.DetectionSession.SendFrameTick | src/components/LiveDetectionPanel.tsx:383-403 | a due tick sends a frame iff the element is rendered and the socket is open; as written no further tick becomes due |
| Session.DetectionSession.HandleDetectionResult | src/components/LiveDetectionPanel.tsx:409-439 | only from the open socket; no detections array changes nothing; otherwise the boxes are the detections converted with the threshold captured at start, and one event per box, with the model captured at start, is prepended within 50; the connection and detection states are unchanged |
| Session.DetectionSession.SimulatedTick | src/components/LiveDetectionPanel.tsx:333-379 | only when due; a box appears when the roll is below 0.1 and is then the only box; an event and new metrics follow only at or above the threshold captured at start; as written no further tick becomes due |
| Session.DetectionSession.StopDetection | src/components/LiveDetectionPanel.tsx:317-330 | from detecting: no socket, no simulated tick due, streaming, no boxes, a state where the loops stop; the connection state unchanged |
| Session.DetectionSession.Disconnect | src/components/LiveDetectionPanel.tsx:489-509 | from any state: no socket, no stream, disconnected, idle, no boxes; as written the element is no longer rendered, and an always-rendered one keeps no stream and an empty `src` |
| Session.DetectionSession.ExportCsv | src/components/LiveDetectionPanel.tsx:536-545 | the export of the listed events, with one line more than there are events when no field holds a line break |
| Session.DetectionSession.ViewResults | src/components/LiveDetectionPanel.tsx:471-486 | the history is stored serialised, the reflected video address written or removed, and the snapshot replaced only by a non-empty capture; without a rendered element, and so always as written, the address is removed and the snapshot kept |
| Session.AsWrittenPanelNeverConnects | src/components/LiveDetectionPanel.tsx:760 | as written, a fresh panel whose camera request is granted and which then receives a video file is still connecting and idle |
| Session.AlwaysMountedPanelConnects | src/components/LiveDetectionPanel.tsx:204-222 | with the element always rendered, a granted camera request connects and streams and detection then starts |

## Left out

- Browser and device APIs are not modelled: `getUserMedia`, `enumerateDevices`,
  `WebSocket`, canvas capture, `URL.createObjectURL`, `localStorage`, notices
  (`toast`) and navigation (`router.push`). Their outcomes are method
  parameters or parsed values.
- Stopping a camera stream's tracks and closing a socket appear only as the
  handles being cleared.
- JSON text is not modelled; a stored entry is the value it parses to.
  Stored fields of the wrong type (a string input mode, a number model) are
  not modelled, and neither are storage exceptions.
- Clocks and randomness are inputs: `Date.now`, `new Date`, `Math.random`.
  Rendering functions are also inputs: `toISOString`, `toLocaleString`,
  `toFixed`.
- Timers are not modelled: `requestAnimationFrame`/`setTimeout` scheduling,
  the 2 s delay before a stream connects, and the 2 s clearing of simulated
  boxes. A tick is one method call, and whether it schedules another is its
  result.
- StartDetection, LinkOpened: the first simulated tick and the first frame
  tick run synchronously inside these handlers. The model makes them due
  instead, so it also admits a stop or a disconnect between a start and its
  first tick.
- StartDetection: a second start while the first socket is still opening
  replaces `wsRef` and leaves the first socket's handlers live. The model
  holds one link, so it does not capture that orphaned socket.
- The unreachable `catch` of `connectStream` is not modelled: scheduling a
  timer does not throw.
- The order in which React applies the batched state updates of one handler
  is not modelled; a method's new state is the one after all its updates.
- IEEE floating point is not modelled. In reals, a box that passes
  `confidence >= threshold/100` always passes `100·confidence >= threshold`.
  In doubles there are boundary values (0.29·100 < 29) where a box is shown
  but no event is made.
- Malformed `bbox` arrays and non-numeric confidences are not modelled.
- The results view's `currentSrc` is taken to be the element's `src`, and a
  non-empty relative `src` is not resolved against the page's address.
- Frames sent over the socket are not modelled; `SendFrameTick` says only
  whether one is sent.
- ResultsView.MeanConfidence states no contract of its own; its properties
  are the lemmas MeanWithin and MeanBetweenMinAndMax.
- Markup, styling and animation are not part of this model, and neither are
  the page files that compose the components.
- The server's user views are not part of this model. They are a thin
  wrapper over a web framework's authentication.

## Findings

| source | as written | input that shows it | evidently intended | confidence | as-written member | corrected member |
|---|---|---|---|---|---|---|
| src/components/LiveDetectionPanel.tsx:373-375, 400-402 | the simulated and frame loops test the `detectionState` captured when `startDetection` ran, which is always `streaming` | with the element always rendered (the code as written never reaches `streaming`, see the next row), start detection from `streaming`; the socket opens and the state becomes `detecting`; the first tick does not schedule a second | ticks continue while the current state is `detecting` | not executed | Session.AsWrittenLoopRunsOnce | Session.CorrectedLoopRunsWhileDetecting |
| src/components/LiveDetectionPanel.tsx:760, 216, 243, 267 | the `<video>` element is rendered only while connected or not idle, but the camera, stream and file handlers move there only when they find it | grant the camera from a freshly mounted panel: it stays `connecting`, and a dropped video file changes nothing | render the element in every state, so a source can be attached | not executed | Session.AsWrittenPanelNeverConnects | Session.AlwaysMountedPanelConnects |
| src/components/LiveDetectionPanel.tsx:130 | `prefs.threshold \|\| 70` treats a saved threshold of 0 (the slider's minimum, line 930) as missing | save with the threshold at 0, then reload | read the threshold with `??`, as the GPU flag is | not executed | PreferenceStore.ZeroThresholdReloadsAsSeventy | PreferenceStore.SaveLoadInRange |
