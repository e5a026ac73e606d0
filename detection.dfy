/**
 * The session's value types and the detection aggregator: raw inference
 * results become detection boxes (confidence rescaled from [0, 1] to
 * [0, 100], corners turned into width and height) and qualifying boxes
 * become detection events (a box's `label` is `labelText` here: `label` is a Dafny keyword). Confidences and coordinates are `real`, so ×100
 * and ÷100 are exact.
 */
module Detection {
  import opened Wrappers
  import opened History

  datatype InputMode = Camera | Stream | File
  datatype DetectionState = Idle | Streaming | Detecting
  datatype ConnectionState = Disconnected | Connecting | Connected | Error

  /** A `Date`, as milliseconds since the epoch; its renderings are parameters. */
  type Instant = int

  datatype DetectionBox = DetectionBox(x: real, y: real, width: real, height: real, confidence: real, labelText: string)

  datatype DetectionEvent = DetectionEvent(
    id: string,
    timestamp: Instant,
    confidence: real,
    model: string,
    thumbnail: string,
    note: Option<string>,
    isFalsePositive: Option<bool>)

  datatype LiveMetrics = LiveMetrics(fps: real, latency: real, lastConfidence: real, bufferFullness: real)

  /** One inbound detection: `bbox: [x0, y0, x1, y1]`, a confidence in [0, 1], an optional `class`. */
  datatype RawDetection = RawDetection(x0: real, y0: real, x1: real, y1: real, confidence: real, className: Option<string>)

  /**
   * One inbound message; `detections` is `None` when the field is missing or
   * is not an array (and when the message was not JSON at all: that one is
   * dropped before it reaches the handler, with the same effect).
   */
  datatype ResultMessage = ResultMessage(detections: Option<seq<RawDetection>>)

  /** What the environment supplies for each new event: `event-…` id, `new Date()`, `captureFrame()`. */
  datatype EventStamp = EventStamp(id: string, timestamp: Instant, thumbnail: string)

  /** The label used when a detection has no (or an empty) class, and by the simulated generator. */
  const DefaultLabel: string := "Violence"

  /** The status text the panel writes for the navigation bar. */
  function StatusString(cs: ConnectionState): (s: string)
    ensures s == "Connected" <==> cs.Connected?
    ensures s == "Reconnecting" <==> cs.Connecting?
    ensures s == "Disconnected" <==> cs.Disconnected? || cs.Error?
  {
    if cs == Connected then "Connected"
    else if cs == Connecting then "Reconnecting"
    else "Disconnected"
  }

  /** The box a raw detection becomes. */
  function ToBox(d: RawDetection): (b: DetectionBox)
    ensures b.x == d.x0 && b.y == d.y0
    ensures b.x + b.width == d.x1 && b.y + b.height == d.y1
    ensures b.confidence == 100.0 * d.confidence
    ensures d.className.Some? && d.className.value != "" ==> b.labelText == d.className.value
    ensures d.className.None? || d.className.value == "" ==> b.labelText == DefaultLabel
  {
    DetectionBox(
      d.x0, d.y0, d.x1 - d.x0, d.y1 - d.y0, d.confidence * 100.0,
      if d.className.Some? && d.className.value != "" then d.className.value else DefaultLabel)
  }

  /** `det.confidence >= confidenceThreshold / 100` */
  function Qualifies(d: RawDetection, threshold: real): (q: bool)
    ensures q <==> ToBox(d).confidence >= threshold
  {
    d.confidence >= threshold / 100.0
  }

  /** The source's `filter` then `map`: the qualifying detections, converted, in order. */
  function ConvertDetections(dets: seq<RawDetection>, threshold: real): (boxes: seq<DetectionBox>)
    ensures |boxes| <= |dets|
    ensures forall i :: 0 <= i < |boxes| ==> boxes[i].confidence >= threshold
    ensures (forall i :: 0 <= i < |dets| ==> Qualifies(dets[i], threshold)) ==> |boxes| == |dets|
    ensures (forall i :: 0 <= i < |dets| ==> !Qualifies(dets[i], threshold)) ==> boxes == []
  {
    if dets == [] then []
    else (if Qualifies(dets[0], threshold) then [ToBox(dets[0])] else []) + ConvertDetections(dets[1..], threshold)
  }

  /** Conversion distributes over concatenation: it keeps the order of the detections. */
  lemma {:induction false} ConvertDetectionsAppend(a: seq<RawDetection>, b: seq<RawDetection>, threshold: real)
    ensures ConvertDetections(a + b, threshold) == ConvertDetections(a, threshold) + ConvertDetections(b, threshold)
  {
    if a != [] {
      var head := if Qualifies(a[0], threshold) then [ToBox(a[0])] else [];
      assert (a + b)[0] == a[0] && (a + b)[1..] == a[1..] + b;
      assert ConvertDetections(a + b, threshold) == head + ConvertDetections(a[1..] + b, threshold);
      ConvertDetectionsAppend(a[1..], b, threshold);
      assert ConvertDetections(a, threshold) == head + ConvertDetections(a[1..], threshold);
    } else {
      assert a + b == b;
    }
  }

  /** One detection is kept, converted, exactly when it qualifies. */
  lemma ConvertDetectionsSingle(d: RawDetection, threshold: real)
    ensures ConvertDetections([d], threshold) == if Qualifies(d, threshold) then [ToBox(d)] else []
  {
    assert [d][1..] == [];
  }

  /** The event a box becomes; `captureFrame()` yields "" when there is no video element. */
  function NewEvent(b: DetectionBox, s: EventStamp, model: string, videoPresent: bool): (e: DetectionEvent)
    ensures e.confidence == b.confidence && e.model == model
    ensures e.id == s.id && e.timestamp == s.timestamp
    ensures e.thumbnail == (if videoPresent then s.thumbnail else "")
    ensures e.note.None? && e.isFalsePositive.None?
  {
    DetectionEvent(s.id, s.timestamp, b.confidence, model, if videoPresent then s.thumbnail else "", None, None)
  }

  /**
   * The events the first `n` boxes give, in box order: one for each box whose
   * confidence reaches the threshold, stamped with that box's position.
   */
  function EventsFor(boxes: seq<DetectionBox>, n: nat, threshold: real, model: string,
                     stampAt: nat -> EventStamp, videoPresent: bool): (es: seq<DetectionEvent>)
    requires n <= |boxes|
    ensures |es| <= n
    ensures forall i :: 0 <= i < |es| ==> es[i].confidence >= threshold && es[i].model == model
  {
    if n == 0 then []
    else
      EventsFor(boxes, n - 1, threshold, model, stampAt, videoPresent)
      + (if boxes[n - 1].confidence >= threshold
         then [NewEvent(boxes[n - 1], stampAt(n - 1), model, videoPresent)] else [])
  }

  /** When every box reaches the threshold, every box gives exactly one event, in order. */
  lemma {:induction false} EventsForEveryBox(boxes: seq<DetectionBox>, n: nat, threshold: real, model: string,
                                             stampAt: nat -> EventStamp, videoPresent: bool)
    requires n <= |boxes|
    requires forall i :: 0 <= i < |boxes| ==> boxes[i].confidence >= threshold
    ensures |EventsFor(boxes, n, threshold, model, stampAt, videoPresent)| == n
    ensures forall k :: 0 <= k < n ==>
      EventsFor(boxes, n, threshold, model, stampAt, videoPresent)[k]
        == NewEvent(boxes[k], stampAt(k), model, videoPresent)
  {
    if n > 0 {
      EventsForEveryBox(boxes, n - 1, threshold, model, stampAt, videoPresent);
    }
  }

  /**
   * Ingesting a result: every converted box reaches the threshold again after
   * the ×100, so each box gives one event with its confidence and the model.
   */
  lemma IngestedBoxesAllBecomeEvents(dets: seq<RawDetection>, threshold: real, model: string,
                                     stampAt: nat -> EventStamp, videoPresent: bool)
    ensures var boxes := ConvertDetections(dets, threshold);
      var es := EventsFor(boxes, |boxes|, threshold, model, stampAt, videoPresent);
      |es| == |boxes| &&
      forall k :: 0 <= k < |boxes| ==> es[k].confidence == boxes[k].confidence && es[k].model == model
  {
    var boxes := ConvertDetections(dets, threshold);
    EventsForEveryBox(boxes, |boxes|, threshold, model, stampAt, videoPresent);
  }

  /**
   * The box the simulated generator draws from five uniform numbers in [0, 1):
   * placed and sized inside the frame, confidence in [60, 100).
   */
  function SimulatedBox(rx: real, ry: real, rw: real, rh: real, rc: real): (b: DetectionBox)
    requires 0.0 <= rx < 1.0 && 0.0 <= ry < 1.0 && 0.0 <= rw < 1.0 && 0.0 <= rh < 1.0 && 0.0 <= rc < 1.0
    ensures 0.1 <= b.x < 0.7 && 0.1 <= b.y < 0.7
    ensures 0.1 <= b.width < 0.3 && 0.1 <= b.height < 0.3
    ensures b.x + b.width < 1.0 && b.y + b.height < 1.0
    ensures 60.0 <= b.confidence < 100.0
    ensures b.labelText == DefaultLabel
  {
    DetectionBox(rx * 0.6 + 0.1, ry * 0.6 + 0.1, rw * 0.2 + 0.1, rh * 0.2 + 0.1, rc * 40.0 + 60.0, DefaultLabel)
  }

  /** Box `i` adds its event at the front of the history, or nothing, within the cap. */
  function Ingest(history: seq<DetectionEvent>, b: DetectionBox, i: nat, threshold: real, model: string,
                  stampAt: nat -> EventStamp, video: bool): seq<DetectionEvent>
  {
    if b.confidence >= threshold then Prepend(NewEvent(b, stampAt(i), model, video), history) else history
  }

  /** One step of the `forEach`. */
  lemma PrependEventsStep(start: seq<DetectionEvent>, boxes: seq<DetectionBox>, i: nat, threshold: real,
                          model: string, stampAt: nat -> EventStamp, video: bool, history: seq<DetectionEvent>)
    requires i < |boxes| && |start| <= Capacity
    requires history == PrependAll(start, EventsFor(boxes, i, threshold, model, stampAt, video))
    ensures Ingest(history, boxes[i], i, threshold, model, stampAt, video)
      == PrependAll(start, EventsFor(boxes, i + 1, threshold, model, stampAt, video))
  {
    var done := EventsFor(boxes, i, threshold, model, stampAt, video);
    if boxes[i].confidence >= threshold {
      var event := NewEvent(boxes[i], stampAt(i), model, video);
      assert EventsFor(boxes, i + 1, threshold, model, stampAt, video) == done + [event];
      PrependAllSnoc(start, done, event);
    } else {
      assert EventsFor(boxes, i + 1, threshold, model, stampAt, video) == done;
    }
  }

  /**
   * The `forEach` of `handleDetectionResult`: each box reaching the threshold
   * is made an event and prepended to the history, in box order.
   */
  method PrependEvents(start: seq<DetectionEvent>, boxes: seq<DetectionBox>, threshold: real, model: string,
                       stampAt: nat -> EventStamp, video: bool) returns (history: seq<DetectionEvent>)
    requires |start| <= Capacity
    ensures history == PrependAll(start, EventsFor(boxes, |boxes|, threshold, model, stampAt, video))
    ensures |history| <= Capacity
  {
    history := start;
    var i := 0;
    while i < |boxes|
      invariant 0 <= i <= |boxes|
      invariant history == PrependAll(start, EventsFor(boxes, i, threshold, model, stampAt, video))
    {
      PrependEventsStep(start, boxes, i, threshold, model, stampAt, video, history);
      history := Ingest(history, boxes[i], i, threshold, model, stampAt, video);
      i := i + 1;
    }
    PrependAllBounded(start, EventsFor(boxes, i, threshold, model, stampAt, video));
  }
}
