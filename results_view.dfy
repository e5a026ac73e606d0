/**
 * The results view: what it loads from the handoff record at mount, and the
 * summary it shows (high-confidence count, mean confidence, newest model,
 * which preview). Both copies of the view in the repository share this logic.
 */
module ResultsView {
  import opened Wrappers
  import opened Detection
  import opened Handoff

  /** The view's state after its mount effect. */
  datatype ResultsState = ResultsState(events: seq<StoredEvent>, videoSrc: string, snapshot: string)

  /** What the preview card shows. */
  datatype Preview = VideoPreview(src: string) | SnapshotPreview(image: string) | Placeholder

  /** One loaded event: a string timestamp stays, anything else is converted to its ISO string. */
  function Normalise(e: StoredEvent, iso: Instant -> string): (r: StoredEvent)
    ensures r.timestamp.Text?
    ensures e.timestamp.Text? ==> r == e
    ensures r.(timestamp := e.timestamp) == e
  {
    match e.timestamp
    case Text(_) => e
    case Millis(ms) => e.(timestamp := Text(iso(ms)))
  }

  /** `parsed.map(...)` */
  function LoadEvents(parsed: seq<StoredEvent>, iso: Instant -> string): (r: seq<StoredEvent>)
    ensures |r| == |parsed|
    ensures forall i :: 0 <= i < |r| ==> r[i] == Normalise(parsed[i], iso)
  {
    seq(|parsed|, i requires 0 <= i < |parsed| => Normalise(parsed[i], iso))
  }

  /** `getItem(key) || ""` */
  function OrEmpty(v: Option<string>): (r: string)
    ensures v.None? ==> r == ""
    ensures v.Some? ==> r == v.value
  {
    v.GetOr("")
  }

  /**
   * The mount effect. Unreadable events abort it before anything is set, so
   * everything stays empty; otherwise the events are loaded in order and the
   * two other keys read, a missing one as "".
   */
  function Load(store: HandoffStore, iso: Instant -> string): (r: ResultsState)
    ensures store.events.Parsed? ==> |r.events| == |store.events.events|
    ensures !store.events.Parsed? ==> r.events == []
    ensures forall i :: 0 <= i < |r.events| ==> r.events[i].timestamp.Text?
    ensures store.events.Parsed? ==> forall i :: 0 <= i < |r.events| ==>
      r.events[i].(timestamp := store.events.events[i].timestamp) == store.events.events[i]
    ensures store.events.Parsed? ==> forall i :: 0 <= i < |r.events| ==>
      store.events.events[i].timestamp.Text? ==> r.events[i] == store.events.events[i]
    ensures store.events.Malformed? ==> r.videoSrc == "" && r.snapshot == ""
    ensures !store.events.Malformed? ==> r.videoSrc == OrEmpty(store.lastVideoSrc)
    ensures !store.events.Malformed? ==> r.snapshot == OrEmpty(store.lastSnapshot)
  {
    match store.events
    case Malformed => ResultsState([], "", "")
    case Absent => ResultsState([], OrEmpty(store.lastVideoSrc), OrEmpty(store.lastSnapshot))
    case Parsed(es) => ResultsState(LoadEvents(es, iso), OrEmpty(store.lastVideoSrc), OrEmpty(store.lastSnapshot))
  }

  /** What the panel stores comes back unchanged: every timestamp is already a string. */
  lemma LoadAfterViewResults(store: HandoffStore, history: seq<DetectionEvent>, iso: Instant -> string)
    requires store.events == Parsed(Serialise(history, iso))
    ensures Load(store, iso).events == Serialise(history, iso)
  {
  }

  /** `events.filter((e) => e.confidence >= 90).length` */
  function HighCount(events: seq<StoredEvent>): (n: nat)
    ensures n <= |events|
    ensures n == |events| <==> forall i :: 0 <= i < |events| ==> events[i].confidence >= 90.0
    ensures n == 0 <==> forall i :: 0 <= i < |events| ==> events[i].confidence < 90.0
  {
    if events == [] then 0
    else (if events[0].confidence >= 90.0 then 1 else 0) + HighCount(events[1..])
  }

  /** The count distributes over concatenation. */
  lemma {:induction false} HighCountAppend(a: seq<StoredEvent>, b: seq<StoredEvent>)
    ensures HighCount(a + b) == HighCount(a) + HighCount(b)
  {
    if a == [] {
      assert a + b == b;
    } else {
      assert (a + b)[1..] == a[1..] + b;
      HighCountAppend(a[1..], b);
    }
  }

  /** One event counts exactly when its confidence is at least 90. */
  lemma HighCountSingle(e: StoredEvent)
    ensures HighCount([e]) == if e.confidence >= 90.0 then 1 else 0
  {
    assert [e][1..] == [];
  }

  /** `events.reduce((s, e) => s + e.confidence, 0)` */
  function SumConfidence(events: seq<StoredEvent>): real {
    if events == [] then 0.0 else events[0].confidence + SumConfidence(events[1..])
  }

  /** The arithmetic mean of the confidences. */
  function MeanConfidence(events: seq<StoredEvent>): (m: real)
    requires |events| > 0
  {
    SumConfidence(events) / (|events| as real)
  }

  /** The smallest confidence. */
  function MinConfidence(events: seq<StoredEvent>): (m: real)
    requires |events| > 0
    ensures forall i :: 0 <= i < |events| ==> m <= events[i].confidence
    ensures exists i :: 0 <= i < |events| && m == events[i].confidence
  {
    if |events| == 1 then events[0].confidence
    else
      var rest := MinConfidence(events[1..]);
      if events[0].confidence <= rest then events[0].confidence else rest
  }

  /** The largest confidence. */
  function MaxConfidence(events: seq<StoredEvent>): (m: real)
    requires |events| > 0
    ensures forall i :: 0 <= i < |events| ==> events[i].confidence <= m
    ensures exists i :: 0 <= i < |events| && m == events[i].confidence
  {
    if |events| == 1 then events[0].confidence
    else
      var rest := MaxConfidence(events[1..]);
      if events[0].confidence >= rest then events[0].confidence else rest
  }

  /** Confidences between `lo` and `hi` sum to between `n·lo` and `n·hi`. */
  lemma {:induction false} SumBounds(events: seq<StoredEvent>, lo: real, hi: real)
    requires forall i :: 0 <= i < |events| ==> lo <= events[i].confidence <= hi
    ensures (|events| as real) * lo <= SumConfidence(events) <= (|events| as real) * hi
  {
    if events != [] {
      SumBounds(events[1..], lo, hi);
      assert (|events| as real) * lo == lo + (|events[1..]| as real) * lo;
      assert (|events| as real) * hi == hi + (|events[1..]| as real) * hi;
    }
  }

  lemma QuotientBounds(s: real, n: real, lo: real, hi: real)
    requires n > 0.0 && n * lo <= s <= n * hi
    ensures lo <= s / n <= hi
  {
    assert s / n - lo == (s - n * lo) / n;
    assert hi - s / n == (n * hi - s) / n;
  }

  /** Confidences between `lo` and `hi` have a mean between `lo` and `hi`. */
  lemma MeanWithin(events: seq<StoredEvent>, lo: real, hi: real)
    requires |events| > 0
    requires forall i :: 0 <= i < |events| ==> lo <= events[i].confidence <= hi
    ensures lo <= MeanConfidence(events) <= hi
  {
    SumBounds(events, lo, hi);
    QuotientBounds(SumConfidence(events), |events| as real, lo, hi);
  }

  /** The mean lies between the smallest and the largest confidence. */
  lemma MeanBetweenMinAndMax(events: seq<StoredEvent>)
    requires |events| > 0
    ensures MinConfidence(events) <= MeanConfidence(events) <= MaxConfidence(events)
  {
    MeanWithin(events, MinConfidence(events), MaxConfidence(events));
  }

  /** The "Avg Confidence" text: "0.0" without events, else the mean as `toFixed(1)` renders it. */
  function AverageText(events: seq<StoredEvent>, fixed1: real -> string): (t: string)
    ensures events == [] ==> t == "0.0"
    ensures events != [] ==> t == fixed1(MeanConfidence(events))
  {
    if |events| > 0 then fixed1(MeanConfidence(events)) else "0.0"
  }

  /** The preview card: the video if there is a source, else the snapshot if there is one, else the placeholder. */
  function PreviewFor(videoSrc: string, snapshot: string): (p: Preview)
    ensures p.VideoPreview? <==> videoSrc != ""
    ensures p.VideoPreview? ==> p.src == videoSrc
    ensures p.SnapshotPreview? <==> videoSrc == "" && snapshot != ""
    ensures p.SnapshotPreview? ==> p.image == snapshot
    ensures p.Placeholder? <==> videoSrc == "" && snapshot == ""
  {
    if videoSrc != "" then VideoPreview(videoSrc)
    else if snapshot != "" then SnapshotPreview(snapshot)
    else Placeholder
  }

  /** `events[0]?.model || "-"`: the newest event's model, or "-" when there is none or it is empty. */
  function ModelShown(events: seq<StoredEvent>): (s: string)
    ensures s != ""
    ensures |events| > 0 && events[0].model != "" ==> s == events[0].model
    ensures events == [] || events[0].model == "" ==> s == "-"
  {
    if |events| > 0 && events[0].model != "" then events[0].model else "-"
  }

  /** After handing off a history, the view names the model of the newest event. */
  lemma NewestModelShown(store: HandoffStore, history: seq<DetectionEvent>, iso: Instant -> string)
    requires store.events == Parsed(Serialise(history, iso))
    requires |history| > 0 && history[0].model != ""
    ensures ModelShown(Load(store, iso).events) == history[0].model
  {
    LoadAfterViewResults(store, history, iso);
  }
}
