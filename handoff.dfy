/**
 * The record the detection panel leaves in storage for the results view:
 * the event history under `detection-events` (JSON, so every `Date` becomes
 * a string first), the last video source under `lastVideoSrc` and the last
 * snapshot under `lastSnapshot`. JSON text itself is not modelled: a stored
 * entry is the value it parses to.
 */
module Handoff {
  import opened Wrappers
  import opened Detection

  /** A stored timestamp: a string, or a number of milliseconds some other writer left. */
  datatype Stamp = Text(text: string) | Millis(ms: int)

  datatype StoredEvent = StoredEvent(
    id: string,
    timestamp: Stamp,
    confidence: real,
    model: string,
    thumbnail: Option<string>,
    note: Option<string>,
    isFalsePositive: Option<bool>)

  /** The `detection-events` entry: missing (or ""), not a JSON array of events, or the events. */
  datatype EventsEntry = Absent | Malformed | Parsed(events: seq<StoredEvent>)

  datatype HandoffStore = HandoffStore(events: EventsEntry, lastVideoSrc: Option<string>, lastSnapshot: Option<string>)

  /** One event as `viewResults` stores it: the `Date` as its ISO string, every other field copied. */
  function ToStored(e: DetectionEvent, iso: Instant -> string): (s: StoredEvent)
    ensures s.timestamp == Text(iso(e.timestamp))
    ensures s.id == e.id && s.confidence == e.confidence && s.model == e.model
    ensures s.thumbnail == Some(e.thumbnail) && s.note == e.note && s.isFalsePositive == e.isFalsePositive
  {
    StoredEvent(e.id, Text(iso(e.timestamp)), e.confidence, e.model, Some(e.thumbnail), e.note, e.isFalsePositive)
  }

  /** `events.map(...)` in `viewResults`: same length, same order, each event stored. */
  function Serialise(events: seq<DetectionEvent>, iso: Instant -> string): (r: seq<StoredEvent>)
    ensures |r| == |events|
    ensures forall i :: 0 <= i < |r| ==> r[i] == ToStored(events[i], iso)
  {
    seq(|events|, i requires 0 <= i < |events| => ToStored(events[i], iso))
  }

  /**
   * What a video element's `src` reads back as: "" while the attribute was
   * never set, the document's own address when it was set to "" (an empty
   * URL resolves to the document), and otherwise the value set.
   */
  function ReflectedSrc(attribute: Option<string>, documentUrl: string): (r: string)
    ensures attribute.None? ==> r == ""
    ensures attribute == Some("") ==> r == documentUrl
    ensures attribute.Some? && attribute.value != "" ==> r == attribute.value
  {
    match attribute
    case None => ""
    case Some(v) => if v == "" then documentUrl else v
  }

  /**
   * The video address `viewResults` records: none for a live camera (the
   * element plays a `srcObject`), otherwise the element's `src`, `currentSrc`
   * being taken to be `src`.
   */
  function RecordedVideoSource(videoPresent: bool, hasSrcObject: bool, src: string): (r: string)
    ensures r != "" <==> videoPresent && !hasSrcObject && src != ""
    ensures r != "" ==> r == src
  {
    if videoPresent && !hasSrcObject then src else ""
  }
}
