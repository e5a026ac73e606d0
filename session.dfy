/**
 * The detection session controller: the panel's React state as the fields of
 * one object, and each handler as a method. What the browser decides (camera
 * permission, whether the link could be created, random numbers, clocks,
 * captured frames, object URLs) arrives as a parameter. The `videoRef`,
 * `wsRef` and `streamRef` handles are modelled by `VideoPresent()`, `link`
 * and `hasStream`.
 */
module Session {
  import opened Wrappers
  import opened Text
  import opened History
  import opened Detection
  import opened PreferenceStore
  import opened Sources
  import opened EventLog
  import opened Handoff

  /** The inference link `wsRef` holds: none, a socket still opening, open, or one that reported an error. */
  datatype LinkState = NoLink | Opening | Open | Failed

  /**
   * Where the `<video>` element is rendered. As written it is rendered only
   * while the panel is connected or not idle; the layout the handlers
   * evidently assume renders it always.
   */
  datatype VideoLayout = MountedWhenActive | AlwaysMounted

  /** Whether the committed state `(cs, ds)` renders the video element. */
  predicate ElementMounted(layout: VideoLayout, cs: ConnectionState, ds: DetectionState) {
    layout == AlwaysMounted || cs == Connected || ds != Idle
  }

  /**
   * The loops' continuation test: `detectionState === 'detecting'`. The loops
   * as written apply it to the state captured by `startDetection`; the
   * evident intent is to apply it to the state current at each tick.
   */
  predicate Continues(state: DetectionState) {
    state == Detecting
  }

  /**
   * How many ticks a self-rescheduling loop runs when tick `i` tests
   * `continues` on `states[i]`, the state it sees when it ends: the first tick
   * always runs, and each further one only if the previous tick's test passed.
   */
  function TicksRun(states: seq<DetectionState>, continues: DetectionState -> bool): (n: nat)
    ensures n <= |states|
    ensures |states| > 0 ==> n >= 1
  {
    if states == [] then 0
    else 1 + (if continues(states[0]) then TicksRun(states[1..], continues) else 0)
  }

  /**
   * As written, a loop tests the state captured when it was started, never
   * `detecting` (it is always started from `streaming`), so it runs one tick
   * whatever the states it then sees, even when the session is detecting
   * throughout.
   */
  lemma {:induction false} AsWrittenLoopRunsOnce(states: seq<DetectionState>, stateWhenStarted: DetectionState)
    requires |states| > 0 && stateWhenStarted != Detecting
    ensures TicksRun(states, (s: DetectionState) => Continues(stateWhenStarted)) == 1
  {
  }

  /**
   * With the intended test a loop runs through every tick while the session
   * stays detecting, and stops at the first tick that sees another state.
   */
  lemma {:induction false} CorrectedLoopRunsWhileDetecting(states: seq<DetectionState>)
    ensures (forall i :: 0 <= i < |states| - 1 ==> states[i] == Detecting) ==> TicksRun(states, Continues) == |states|
    ensures forall k :: 0 <= k < |states| && states[k] != Detecting ==> TicksRun(states, Continues) <= k + 1
  {
    if states != [] {
      CorrectedLoopRunsWhileDetecting(states[1..]);
      if states[0] == Detecting {
        forall k | 0 < k < |states| && states[k] != Detecting
          ensures TicksRun(states, Continues) <= k + 1
        {
          assert states[1..][k - 1] == states[k];
        }
        if forall i :: 0 <= i < |states| - 1 ==> states[i] == Detecting {
          assert forall i :: 0 <= i < |states[1..]| - 1 ==> states[1..][i] == states[i + 1];
        }
      }
    }
  }

  class DetectionSession {
    // Core state
    var inputMode: InputMode
    var connectionState: ConnectionState
    var detectionState: DetectionState

    // Configuration
    var selectedModel: string
    var confidenceThreshold: real
    var sensitivity: string
    var useGpuAcceleration: bool
    var frameSamplingRate: int
    var clipLength: int
    var highContrastMode: bool

    // Sources
    var streamUrl: string
    var availableCameras: seq<CameraOption>
    var selectedCamera: string

    // Detection data
    var detectionBoxes: seq<DetectionBox>
    var events: seq<DetectionEvent>
    var liveMetrics: LiveMetrics

    // Event list controls
    var dragOver: bool
    var eventFilter: string
    var showHighConfidenceOnly: bool

    // Handles: the video element and its two sources, the inference link,
    // the camera stream
    var layout: VideoLayout
    var videoHasSrcObject: bool
    var videoSrcAttribute: Option<string>
    var documentUrl: string
    var link: LinkState
    var hasStream: bool

    // What the handlers installed by the last `startDetection` captured from
    // that render: the socket's message handler and the loops see these
    var startedState: DetectionState
    var startedThreshold: real
    var startedModel: string

    // Whether a tick of the simulated generator, or of the frame loop, is due
    var simulationDue: bool
    var frameDue: bool

    /** `videoRef.current` is set: the committed state renders the element. */
    predicate VideoPresent()
      reads this`layout, this`connectionState, this`detectionState
    {
      ElementMounted(layout, connectionState, detectionState)
    }

    /**
     * Its read frame names the fields it depends on, so the methods whose
     * frames leave those fields out (the preferences, the tabs, the camera
     * list, the event list controls) keep it without saying so.
     *
     * The history cap holds; detection is only ever started from a state
     * other than `detecting`; an element that is not rendered has no
     * sources. As written, the panel never becomes connected nor leaves
     * `idle`: every move there needs the element, which only those states
     * render; so no link is ever made and no tick is ever due.
     */
    ghost predicate Valid()
      reads this`events, this`startedState, this`layout, this`connectionState, this`detectionState,
            this`videoHasSrcObject, this`videoSrcAttribute, this`link, this`simulationDue, this`frameDue
    {
      && |events| <= Capacity
      && startedState != Detecting
      && (!VideoPresent() ==> !videoHasSrcObject && videoSrcAttribute.None?)
      && (layout == MountedWhenActive ==>
            connectionState != Connected && detectionState == Idle && link == NoLink && !simulationDue && !frameDue)
    }

    /** The preference fields as one record. */
    function Prefs(): Preferences
      reads this
    {
      Preferences(selectedModel, confidenceThreshold, inputMode, sensitivity,
                  useGpuAcceleration, frameSamplingRate, clipLength)
    }

    /** The event list controls as one record. */
    function View(): EventView
      reads this
    {
      EventView(showHighConfidenceOnly, confidenceThreshold, eventFilter)
    }

    /**
     * The initial state of a mounted panel under the given layout;
     * `documentUrl` is the page's own address.
     */
    constructor (layout: VideoLayout, documentUrl: string)
      ensures Valid()
      ensures inputMode == Camera && connectionState == Disconnected && detectionState == Idle
      ensures Prefs() == Defaults && !highContrastMode
      ensures streamUrl == "" && availableCameras == [] && selectedCamera == DefaultCamera
      ensures detectionBoxes == [] && events == [] && liveMetrics == LiveMetrics(0.0, 0.0, 0.0, 0.0)
      ensures !dragOver && eventFilter == "" && !showHighConfidenceOnly
      ensures this.layout == layout && (VideoPresent() <==> layout == AlwaysMounted)
      ensures !videoHasSrcObject && videoSrcAttribute.None? && this.documentUrl == documentUrl
      ensures link == NoLink && !hasStream && startedState == Idle && !simulationDue && !frameDue
    {
      inputMode, connectionState, detectionState := Camera, Disconnected, Idle;
      selectedModel, confidenceThreshold, sensitivity := "movinet-a1", 70.0, "medium";
      useGpuAcceleration, frameSamplingRate, clipLength, highContrastMode := true, 3, 10, false;
      streamUrl, availableCameras, selectedCamera := "", [], DefaultCamera;
      detectionBoxes, events, liveMetrics := [], [], LiveMetrics(0.0, 0.0, 0.0, 0.0);
      dragOver, eventFilter, showHighConfidenceOnly := false, "", false;
      this.layout, videoHasSrcObject, videoSrcAttribute := layout, false, None;
      this.documentUrl := documentUrl;
      link, hasStream := NoLink, false;
      startedState, startedThreshold, startedModel := Idle, 70.0, "movinet-a1";
      simulationDue, frameDue := false, false;
    }

    /** The mount effect that reads the stored preferences. */
    method LoadStoredPreferences(saved: SavedRecord)
      modifies this`selectedModel, this`confidenceThreshold, this`inputMode, this`sensitivity,
               this`useGpuAcceleration, this`frameSamplingRate, this`clipLength
      ensures Prefs() == LoadAsWritten(old(Prefs()), saved)
    {
      var p := LoadAsWritten(Prefs(), saved);
      selectedModel, confidenceThreshold, inputMode, sensitivity := p.model, p.threshold, p.inputMode, p.sensitivity;
      useGpuAcceleration, frameSamplingRate, clipLength := p.useGpu, p.frameSampling, p.clipLength;
    }

    /** What `savePreferences` writes, and whether the next start-up load gives it back. */
    method SavePreferences() returns (record: StoredFields)
      ensures record == Save(Prefs())
      ensures LoadAsWritten(Defaults, Record(record)) == Prefs()
        <==> selectedModel != "" && sensitivity != "" && confidenceThreshold != 0.0
             && frameSamplingRate != 0 && clipLength != 0
    {
      record := Save(Prefs());
      SaveLoadAsWrittenRoundTrip(Defaults, Prefs());
    }

    /** `resetToDefaults`: every preference but the input mode goes back to its default. */
    method ResetToDefaults()
      modifies this`selectedModel, this`confidenceThreshold, this`sensitivity,
               this`useGpuAcceleration, this`frameSamplingRate, this`clipLength, this`highContrastMode
      ensures Prefs() == Reset(old(Prefs())) && !highContrastMode
    {
      selectedModel, confidenceThreshold, sensitivity := "movinet-a1", 70.0, "medium";
      useGpuAcceleration, frameSamplingRate, clipLength := true, 3, 10;
      highContrastMode := false;
    }

    /** Choosing a tab changes the mode only; it never disconnects. */
    method SelectInputMode(m: InputMode)
      modifies this`inputMode
      ensures inputMode == m
    {
      inputMode := m;
    }

    /** The stream address field. */
    method EnterStreamUrl(url: string)
      modifies this`streamUrl
      ensures streamUrl == url
    {
      streamUrl := url;
    }

    /** The camera enumeration at mount; `None` when enumeration failed. */
    method RefreshCameras(enumerated: Option<seq<MediaDevice>>)
      modifies this`availableCameras, this`selectedCamera
      ensures enumerated.None? ==> availableCameras == [] && selectedCamera == old(selectedCamera)
      ensures enumerated.Some? ==> (availableCameras == CameraOptions(enumerated.value)
        && selectedCamera == InitialSelection(availableCameras, old(selectedCamera)))
    {
      if enumerated.None? {
        availableCameras := [];
      } else {
        var options := CameraOptions(enumerated.value);
        availableCameras, selectedCamera := options, InitialSelection(options, selectedCamera);
      }
    }

    /**
     * `startCamera`, with the outcome of the camera request. Returns the
     * device constraint of the request. `connecting` is committed before the
     * request completes, so the element the handler then finds is the one
     * that state renders. A granted request attaches the stream only when
     * that element exists; otherwise the state stays `connecting`. A refused
     * one sets `error` and leaves the detection state.
     */
    method StartCamera(granted: bool) returns (requested: Option<string>)
      requires Valid()
      modifies this`connectionState, this`detectionState, this`videoHasSrcObject, this`hasStream
      ensures Valid()
      ensures requested == DeviceConstraint(selectedCamera)
      ensures !granted ==> (connectionState == Error && detectionState == old(detectionState)
        && videoHasSrcObject == old(videoHasSrcObject) && hasStream == old(hasStream))
      ensures granted && ElementMounted(layout, Connecting, old(detectionState)) ==>
        (connectionState == Connected && detectionState == Streaming && videoHasSrcObject && hasStream)
      ensures granted && !ElementMounted(layout, Connecting, old(detectionState)) ==>
        (connectionState == Connecting && detectionState == old(detectionState)
         && videoHasSrcObject == old(videoHasSrcObject) && hasStream == old(hasStream))
    {
      connectionState := Connecting;
      requested := DeviceConstraint(selectedCamera);
      if !granted {
        connectionState := Error;
        return;
      }
      if VideoPresent() {
        videoHasSrcObject := true;
        hasStream := true;
        connectionState := Connected;
        detectionState := Streaming;
      }
    }

    /**
     * The first half of `connectStream`: a blank address is refused with no
     * change; otherwise the state becomes `connecting` and the address the
     * delayed completion will use is returned.
     */
    method BeginConnectStream() returns (pending: Option<string>)
      requires Valid()
      modifies this`connectionState
      ensures Valid()
      ensures IsBlank(streamUrl) ==> pending.None? && connectionState == old(connectionState)
      ensures !IsBlank(streamUrl) ==> pending == Some(streamUrl) && connectionState == Connecting
    {
      TrimEmptyIffBlank(streamUrl);
      if Trim(streamUrl) == "" {
        return None;
      }
      connectionState := Connecting;
      pending := Some(streamUrl);
    }

    /**
     * The delayed half of `connectStream`, with the address captured when it
     * was scheduled; it finds the element the state committed by then renders.
     */
    method CompleteConnectStream(url: string)
      requires Valid()
      modifies this`connectionState, this`detectionState, this`videoSrcAttribute
      ensures Valid()
      ensures old(VideoPresent()) ==> (videoSrcAttribute == Some(url)
        && connectionState == Connected && detectionState == Streaming)
      ensures !old(VideoPresent()) ==> (connectionState == old(connectionState)
        && detectionState == old(detectionState) && videoSrcAttribute == old(videoSrcAttribute))
    {
      if VideoPresent() {
        videoSrcAttribute := Some(url);
        connectionState := Connected;
        detectionState := Streaming;
      }
    }

    /**
     * `handleFileUpload`, with the object URL the browser makes for the file.
     * A file that is not video, or a missing video element, changes nothing.
     */
    method HandleFileUpload(file: MediaFile, objectUrl: string)
      requires Valid()
      modifies this`connectionState, this`detectionState, this`videoSrcAttribute
      ensures Valid()
      ensures !IsVideoFile(file) || !old(VideoPresent()) ==> (connectionState == old(connectionState)
        && detectionState == old(detectionState) && videoSrcAttribute == old(videoSrcAttribute))
      ensures IsVideoFile(file) && old(VideoPresent()) ==> (videoSrcAttribute == Some(objectUrl)
        && connectionState == Connected && detectionState == Streaming)
    {
      if !IsVideoFile(file) {
        return;
      }
      if VideoPresent() {
        videoSrcAttribute := Some(objectUrl);
        connectionState := Connected;
        detectionState := Streaming;
      }
    }

    /** `handleDrop`: the first video file among those dropped is uploaded; without one only the highlight goes. */
    method HandleDrop(files: seq<MediaFile>, objectUrl: string)
      requires Valid()
      modifies this`dragOver, this`connectionState, this`detectionState, this`videoSrcAttribute
      ensures Valid()
      ensures !dragOver
      ensures FirstVideoFile(files).None? || !old(VideoPresent()) ==> (connectionState == old(connectionState)
        && detectionState == old(detectionState) && videoSrcAttribute == old(videoSrcAttribute))
      ensures FirstVideoFile(files).Some? && old(VideoPresent()) ==> (videoSrcAttribute == Some(objectUrl)
        && connectionState == Connected && detectionState == Streaming)
    {
      dragOver := false;
      var found := FirstVideoFile(files);
      if found.Some? {
        HandleFileUpload(files[found.value], objectUrl);
      }
    }

    /**
     * `startDetection`, with whether the link object could be created. Only
     * from `streaming`; a created link leaves the state until it opens, a
     * failed creation falls back to the simulated generator at once, whose
     * first tick is then due. Either way the handlers it installs capture
     * this render's state, threshold and model.
     */
    method StartDetection(created: bool) returns (started: bool)
      requires Valid()
      modifies this`detectionState, this`link, this`startedState, this`startedThreshold, this`startedModel,
               this`simulationDue
      ensures Valid()
      ensures started <==> old(detectionState) == Streaming
      ensures !started ==> (detectionState == old(detectionState) && link == old(link)
        && startedState == old(startedState) && startedThreshold == old(startedThreshold)
        && startedModel == old(startedModel) && simulationDue == old(simulationDue))
      ensures started ==> (startedState == Streaming && startedThreshold == confidenceThreshold
        && startedModel == selectedModel)
      ensures started && created ==> (link == Opening && detectionState == Streaming
        && simulationDue == old(simulationDue))
      ensures started && !created ==> (link == old(link) && detectionState == Detecting
        && Continues(detectionState) && simulationDue)
    {
      if detectionState != Streaming {
        return false;
      }
      started := true;
      startedState, startedThreshold, startedModel := detectionState, confidenceThreshold, selectedModel;
      if created {
        link := Opening;
      } else {
        detectionState := Detecting;
        simulationDue := true;
      }
    }

    /** The link's `onopen`: detecting, and the frame loop's first tick is due. */
    method LinkOpened()
      requires Valid()
      requires link == Opening
      modifies this`detectionState, this`link, this`frameDue
      ensures Valid()
      ensures link == Open && detectionState == Detecting && Continues(detectionState) && frameDue
    {
      link := Open;
      detectionState := Detecting;
      frameDue := true;
    }

    /** The link's `onerror`: only a notice; the state is left as it is and no fallback starts. */
    method LinkFailed()
      requires Valid()
      requires link == Opening || link == Open
      modifies this`link
      ensures Valid()
      ensures link == Failed
    {
      link := Failed;
    }

    /**
     * A due tick of the frame loop: a frame is sent when the element exists
     * and the link is open. The next tick is scheduled by the test on the
     * state captured at `startDetection`, so it never is.
     */
    method SendFrameTick() returns (sent: bool, reschedule: bool)
      requires Valid()
      requires frameDue
      modifies this`frameDue
      ensures Valid()
      ensures sent <==> VideoPresent() && link == Open
      ensures reschedule == Continues(startedState) && !reschedule
      ensures frameDue == reschedule
    {
      sent := VideoPresent() && link == Open;
      reschedule := Continues(startedState);
      frameDue := reschedule;
    }

    /**
     * `handleDetectionResult`, as the message handler of the open socket
     * runs it: with the threshold and model of the render that installed it.
     * A message without a detections array changes nothing. Otherwise the
     * boxes become the qualifying detections, and events for them are
     * prepended one after the other.
     */
    method HandleDetectionResult(msg: ResultMessage, stampAt: nat -> EventStamp)
      requires Valid()
      requires link == Open
      modifies this`detectionBoxes, this`events
      ensures Valid()
      ensures connectionState == old(connectionState) && detectionState == old(detectionState)
      ensures msg.detections.None? ==> detectionBoxes == old(detectionBoxes) && events == old(events)
      ensures msg.detections.Some? ==>
        var boxes := ConvertDetections(msg.detections.value, startedThreshold);
        && detectionBoxes == boxes
        && events == PrependAll(old(events),
                                EventsFor(boxes, |boxes|, startedThreshold, startedModel, stampAt, VideoPresent()))
    {
      if msg.detections.None? {
        return;
      }
      var boxes := ConvertDetections(msg.detections.value, startedThreshold);
      var history := PrependEvents(events, boxes, startedThreshold, startedModel, stampAt, VideoPresent());
      detectionBoxes, events := boxes, history;
    }

    /**
     * A due tick of the simulated generator, with its random numbers: `roll`
     * decides whether a box appears (10%), five more place, size and score
     * it, two more give the metrics. The box is shown whatever its score;
     * an event and the metrics follow only at or above the threshold. The
     * threshold, the model and the continuation test are those captured by
     * the `startDetection` that started the generator, so no further tick
     * becomes due.
     */
    method SimulatedTick(roll: real, rx: real, ry: real, rw: real, rh: real, rc: real,
                         rFps: real, rLatency: real, stamp: EventStamp) returns (reschedule: bool)
      requires Valid()
      requires simulationDue
      requires 0.0 <= roll < 1.0
      requires 0.0 <= rx < 1.0 && 0.0 <= ry < 1.0 && 0.0 <= rw < 1.0 && 0.0 <= rh < 1.0 && 0.0 <= rc < 1.0
      modifies this`detectionBoxes, this`events, this`liveMetrics, this`simulationDue
      ensures Valid()
      ensures reschedule == Continues(startedState) && !reschedule
      ensures simulationDue == reschedule
      ensures roll >= 0.1 ==> (detectionBoxes == old(detectionBoxes) && events == old(events)
        && liveMetrics == old(liveMetrics))
      ensures roll < 0.1 ==> detectionBoxes == [SimulatedBox(rx, ry, rw, rh, rc)]
      ensures roll < 0.1 && SimulatedBox(rx, ry, rw, rh, rc).confidence >= startedThreshold ==>
        && events == Prepend(NewEvent(SimulatedBox(rx, ry, rw, rh, rc), stamp, startedModel, VideoPresent()), old(events))
        && liveMetrics == old(liveMetrics).(lastConfidence := SimulatedBox(rx, ry, rw, rh, rc).confidence,
                                            fps := rFps * 5.0 + 25.0, latency := rLatency * 50.0 + 50.0)
      ensures roll < 0.1 && SimulatedBox(rx, ry, rw, rh, rc).confidence < startedThreshold ==>
        events == old(events) && liveMetrics == old(liveMetrics)
    {
      if roll < 0.1 {
        var box := SimulatedBox(rx, ry, rw, rh, rc);
        detectionBoxes := [box];
        if box.confidence >= startedThreshold {
          events := Prepend(NewEvent(box, stamp, startedModel, VideoPresent()), events);
          liveMetrics := liveMetrics.(lastConfidence := box.confidence,
                                      fps := rFps * 5.0 + 25.0, latency := rLatency * 50.0 + 50.0);
        }
      }
      reschedule := Continues(startedState);
      simulationDue := reschedule;
    }

    /**
     * `stopDetection`: the link is closed and forgotten, the pending animation
     * frame cancelled, the boxes cleared, the state back to `streaming`. No
     * result can arrive and no simulated tick is due until detection starts
     * again. The frame loop's timer is not cancelled; a frame tick sends
     * nothing without an open link. Its button is shown only while detecting.
     */
    method StopDetection()
      requires Valid()
      requires detectionState == Detecting
      modifies this`link, this`detectionState, this`detectionBoxes, this`simulationDue
      ensures Valid()
      ensures link == NoLink && detectionState == Streaming && detectionBoxes == []
      ensures !simulationDue && !Continues(detectionState)
    {
      link := NoLink;
      detectionState := Streaming;
      detectionBoxes := [];
      simulationDue := false;
    }

    /**
     * `disconnect`, from any state. The element, while rendered, loses both
     * its sources; as written the (disconnected, idle) state that follows no
     * longer renders it at all.
     */
    method Disconnect()
      requires Valid()
      modifies this`link, this`hasStream, this`videoHasSrcObject, this`videoSrcAttribute,
               this`connectionState, this`detectionState, this`detectionBoxes
      ensures Valid()
      ensures link == NoLink && !hasStream
      ensures connectionState == Disconnected && detectionState == Idle && detectionBoxes == []
      ensures !Continues(detectionState)
      ensures layout == AlwaysMounted ==> VideoPresent() && !videoHasSrcObject && videoSrcAttribute == Some("")
      ensures layout == MountedWhenActive ==> !VideoPresent() && !videoHasSrcObject && videoSrcAttribute.None?
    {
      link := NoLink;
      hasStream := false;
      if VideoPresent() {
        videoHasSrcObject := false;
        videoSrcAttribute := Some("");
      }
      connectionState := Disconnected;
      detectionState := Idle;
      detectionBoxes := [];
      if !VideoPresent() {
        videoHasSrcObject, videoSrcAttribute := false, None;
      }
    }

    /** `filteredEvents`, for the current controls. */
    function FilteredEvents(locale: Instant -> string): seq<DetectionEvent>
      reads this
    {
      EventLog.FilteredEvents(events, View(), locale)
    }

    /** The text of `exportCSV`: the header and one line per listed event. */
    method ExportCsv(iso: Instant -> string, fixed1: real -> string, locale: Instant -> string) returns (csv: string)
      ensures csv == EventLog.ExportCsv(FilteredEvents(locale), iso, fixed1)
      ensures FieldsAvoid(FilteredEvents(locale), iso, fixed1, '\n') ==>
        |Split(csv, '\n')| == 1 + |FilteredEvents(locale)|
    {
      csv := EventLog.ExportCsv(FilteredEvents(locale), iso, fixed1);
      if FieldsAvoid(FilteredEvents(locale), iso, fixed1, '\n') {
        CsvShape(FilteredEvents(locale), iso, fixed1);
      }
    }

    /**
     * `viewResults`: the store after it, given the one before and the frame
     * the canvas would capture now. Without a rendered element no address is
     * recorded (a stale one is removed) and no frame is captured, so the
     * snapshot stays; as written that is always the case.
     */
    method ViewResults(store: HandoffStore, iso: Instant -> string, shot: string) returns (after: HandoffStore)
      requires Valid()
      ensures after.events == Parsed(Serialise(events, iso))
      ensures var src := RecordedVideoSource(VideoPresent(), videoHasSrcObject, ReflectedSrc(videoSrcAttribute, documentUrl));
        after.lastVideoSrc == (if src != "" then Some(src) else None)
      ensures after.lastSnapshot == (if VideoPresent() && shot != "" then Some(shot) else store.lastSnapshot)
      ensures !VideoPresent() || layout == MountedWhenActive ==>
        after.lastVideoSrc.None? && after.lastSnapshot == store.lastSnapshot
    {
      var safeEvents := Serialise(events, iso);
      after := store.(events := Parsed(safeEvents));
      var src := RecordedVideoSource(VideoPresent(), videoHasSrcObject, ReflectedSrc(videoSrcAttribute, documentUrl));
      if src != "" {
        after := after.(lastVideoSrc := Some(src));
      } else {
        after := after.(lastVideoSrc := None);
      }
      var captured := if VideoPresent() then shot else "";
      if captured != "" {
        after := after.(lastSnapshot := Some(captured));
      }
    }
  }

  /**
   * As written, a freshly mounted panel whose camera request is granted
   * stays `connecting`, and a video file then dropped on it changes nothing:
   * neither handler finds a video element.
   */
  method AsWrittenPanelNeverConnects(documentUrl: string, file: MediaFile, objectUrl: string)
    returns (connection: ConnectionState, detection: DetectionState)
    requires IsVideoFile(file)
    ensures connection == Connecting && detection == Idle
  {
    var session := new DetectionSession(MountedWhenActive, documentUrl);
    var _ := session.StartCamera(true);
    session.HandleFileUpload(file, objectUrl);
    connection, detection := session.connectionState, session.detectionState;
  }

  /**
   * With the element always rendered, a granted camera request connects and
   * streams, and detection can then start.
   */
  method AlwaysMountedPanelConnects(documentUrl: string)
    returns (connection: ConnectionState, detection: DetectionState)
    ensures connection == Connected && detection == Detecting
  {
    var session := new DetectionSession(AlwaysMounted, documentUrl);
    var _ := session.StartCamera(true);
    var started := session.StartDetection(false);
    connection, detection := session.connectionState, session.detectionState;
  }
}
