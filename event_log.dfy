/**
 * The event list the operator sees (`filteredEvents`) and the CSV export of
 * it. Timestamps are rendered by `toLocaleString` for the text filter and by
 * `toISOString` in the CSV, confidences by `toFixed(1)`: all three are
 * parameters.
 */
module EventLog {
  import opened Wrappers
  import opened Text
  import opened Detection

  /** The list controls: high-confidence-only switch, current threshold, filter text. */
  datatype EventView = EventView(highConfidenceOnly: bool, threshold: real, filter: string)

  /** The `filter` callback of `filteredEvents`. */
  function Shown(e: DetectionEvent, view: EventView, locale: Instant -> string): (q: bool)
    ensures q ==> e.isFalsePositive != Some(true)
    ensures q && view.highConfidenceOnly ==> e.confidence >= view.threshold
    ensures q && view.filter != "" ==> Contains(locale(e.timestamp), view.filter)
    ensures !view.highConfidenceOnly && view.filter == "" ==> (q <==> e.isFalsePositive != Some(true))
  {
    && !(view.highConfidenceOnly && e.confidence < view.threshold)
    && !(view.filter != "" && !Contains(locale(e.timestamp), view.filter))
    && e.isFalsePositive != Some(true)
  }

  /** `b` contains the elements of `a` in the same order, possibly with others between. */
  predicate IsSubsequence<T(==)>(a: seq<T>, b: seq<T>)
    decreases |b|
  {
    a == [] || (b != [] && ((a[0] == b[0] && IsSubsequence(a[1..], b[1..])) || IsSubsequence(a, b[1..])))
  }

  /** `filteredEvents` */
  function FilteredEvents(events: seq<DetectionEvent>, view: EventView, locale: Instant -> string): (r: seq<DetectionEvent>)
    ensures IsSubsequence(r, events)
    ensures forall i :: 0 <= i < |r| ==> Shown(r[i], view, locale)
    ensures forall i :: 0 <= i < |events| && Shown(events[i], view, locale) ==> events[i] in r
  {
    if events == [] then []
    else if Shown(events[0], view, locale) then [events[0]] + FilteredEvents(events[1..], view, locale)
    else FilteredEvents(events[1..], view, locale)
  }

  /** Filtering distributes over concatenation, so it keeps every shown event in its place. */
  lemma {:induction false} FilteredEventsAppend(a: seq<DetectionEvent>, b: seq<DetectionEvent>,
                                                view: EventView, locale: Instant -> string)
    ensures FilteredEvents(a + b, view, locale) == FilteredEvents(a, view, locale) + FilteredEvents(b, view, locale)
  {
    if a == [] {
      assert a + b == b;
    } else {
      assert (a + b)[1..] == a[1..] + b;
      FilteredEventsAppend(a[1..], b, view, locale);
    }
  }

  /** One event is listed exactly when the controls let it through. */
  lemma FilteredEventsSingle(e: DetectionEvent, view: EventView, locale: Instant -> string)
    ensures FilteredEvents([e], view, locale) == if Shown(e, view, locale) then [e] else []
  {
    assert [e][1..] == [];
  }

  /** The list never shows a false positive, nor, with the switch on, an event below the threshold. */
  lemma FilteredEventsRespectView(events: seq<DetectionEvent>, view: EventView, locale: Instant -> string)
    ensures forall e :: e in FilteredEvents(events, view, locale) ==> e.isFalsePositive != Some(true)
    ensures view.highConfidenceOnly ==>
      forall e :: e in FilteredEvents(events, view, locale) ==> e.confidence >= view.threshold
  {
  }

  /** The CSV header line's fields. */
  const HeaderFields: seq<string> := ["Timestamp", "Confidence", "Model", "Note"]

  /** One event's CSV fields, verbatim: no quoting or escaping. */
  function RowFields(e: DetectionEvent, iso: Instant -> string, fixed1: real -> string): (fs: seq<string>)
    ensures |fs| == |HeaderFields|
  {
    [iso(e.timestamp), fixed1(e.confidence), e.model, e.note.GetOr("")]
  }

  /** The lines of the export: the header, then one line per event, fields joined by commas. */
  function CsvLines(events: seq<DetectionEvent>, iso: Instant -> string, fixed1: real -> string): (ls: seq<string>)
    ensures |ls| == 1 + |events|
  {
    [Join(HeaderFields, ',')] + seq(|events|, i requires 0 <= i < |events| => Join(RowFields(events[i], iso, fixed1), ','))
  }

  /** The text `exportCSV` puts in the file. */
  function ExportCsv(events: seq<DetectionEvent>, iso: Instant -> string, fixed1: real -> string): (csv: string)
    ensures StartsWith(csv, "Timestamp,Confidence,Model,Note")
  {
    HeaderLine();
    Join(CsvLines(events, iso, fixed1), '\n')
  }

  /** No field of any row holds character `c`. */
  predicate FieldsAvoid(events: seq<DetectionEvent>, iso: Instant -> string, fixed1: real -> string, c: char) {
    forall i, j :: 0 <= i < |events| && 0 <= j < |HeaderFields| ==> c !in RowFields(events[i], iso, fixed1)[j]
  }

  /** The header line. */
  lemma HeaderLine()
    ensures Join(HeaderFields, ',') == "Timestamp,Confidence,Model,Note"
  {
    JoinCons("Model", ["Note"], ',');
    JoinCons("Confidence", ["Model", "Note"], ',');
    JoinCons("Timestamp", ["Confidence", "Model", "Note"], ',');
  }

  lemma RowLineAvoids(e: DetectionEvent, iso: Instant -> string, fixed1: real -> string, c: char)
    requires c != ','
    requires forall j :: 0 <= j < |HeaderFields| ==> c !in RowFields(e, iso, fixed1)[j]
    ensures c !in Join(RowFields(e, iso, fixed1), ',')
  {
    JoinAvoids(RowFields(e, iso, fixed1), ',', c);
  }

  lemma CsvLinesAvoid(events: seq<DetectionEvent>, iso: Instant -> string, fixed1: real -> string, c: char)
    requires c != ','
    requires FieldsAvoid(events, iso, fixed1, c)
    requires c !in Join(HeaderFields, ',')
    ensures forall k :: 0 <= k < |CsvLines(events, iso, fixed1)| ==> c !in CsvLines(events, iso, fixed1)[k]
  {
    var ls := CsvLines(events, iso, fixed1);
    forall k | 0 <= k < |ls| ensures c !in ls[k] {
      if k > 0 {
        var e := events[k - 1];
        assert forall j :: 0 <= j < |HeaderFields| ==> c !in RowFields(e, iso, fixed1)[j];
        RowLineAvoids(e, iso, fixed1, c);
        assert ls[k] == Join(RowFields(e, iso, fixed1), ',');
      }
    }
  }

  /**
   * When no field holds a line break, the export has exactly one line more than
   * there are events, the first being the header, and it ends without a line break.
   */
  lemma CsvShape(events: seq<DetectionEvent>, iso: Instant -> string, fixed1: real -> string)
    requires FieldsAvoid(events, iso, fixed1, '\n')
    ensures var csv := ExportCsv(events, iso, fixed1);
      && Split(csv, '\n') == CsvLines(events, iso, fixed1)
      && |Split(csv, '\n')| == 1 + |events|
      && Split(csv, '\n')[0] == "Timestamp,Confidence,Model,Note"
      && |csv| > 0 && csv[|csv| - 1] != '\n'
  {
    var ls := CsvLines(events, iso, fixed1);
    HeaderLine();
    assert '\n' !in Join(HeaderFields, ',') by {
      HeaderAvoidsLineBreak();
    }
    CsvLinesAvoid(events, iso, fixed1, '\n');
    SplitJoin(ls, '\n');
    LastCharacter(ls, '\n');
  }

  lemma HeaderAvoidsLineBreak()
    ensures '\n' !in "Timestamp,Confidence,Model,Note"
  {
    var h := "Timestamp,Confidence,Model,Note";
    forall i | 0 <= i < |h| ensures h[i] != '\n' {
    }
  }

  /** A join of non-empty lines free of the separator does not end with it. */
  lemma LastCharacter(ls: seq<string>, sep: char)
    requires |ls| > 0 && |ls[|ls| - 1]| > 0
    requires forall k :: 0 <= k < |ls| ==> sep !in ls[k]
    ensures |Join(ls, sep)| > 0 && Join(ls, sep)[|Join(ls, sep)| - 1] != sep
  {
    var csv, last := Join(ls, sep), ls[|ls| - 1];
    assert EndsWith(csv, last);
    assert csv[|csv| - 1] == last[|last| - 1];
    assert last[|last| - 1] in last;
  }

  /** When no field holds a comma, each event line splits back into its four fields. */
  lemma CsvColumns(events: seq<DetectionEvent>, iso: Instant -> string, fixed1: real -> string, i: nat)
    requires i < |events|
    requires FieldsAvoid(events, iso, fixed1, ',')
    ensures Split(CsvLines(events, iso, fixed1)[i + 1], ',') == RowFields(events[i], iso, fixed1)
  {
    SplitJoin(RowFields(events[i], iso, fixed1), ',');
  }

  /** The line of a one-event export. */
  lemma SingleCsvLine(e: DetectionEvent, iso: Instant -> string, fixed1: real -> string)
    ensures CsvLines([e], iso, fixed1)[1] == Join(RowFields(e, iso, fixed1), ',')
  {
  }

  lemma JoinFour(x: string, y: string, m: string, n: string, sep: char)
    ensures Join([x, y, m, n], sep) == x + [sep] + (y + [sep] + (m + [sep] + n))
  {
    JoinCons(m, [n], sep);
    JoinCons(y, [m, n], sep);
    JoinCons(x, [y, m, n], sep);
  }

  lemma SplitFive(x: string, y: string, m: string, a: string, b: string, sep: char)
    requires sep !in x && sep !in y && sep !in m && sep !in a && sep !in b
    ensures Split(x + [sep] + (y + [sep] + (m + [sep] + (a + [sep] + b))), sep) == [x, y, m, a, b]
  {
    var n := a + [sep] + b;
    assert Split(n, sep) == [a, b] by {
      SplitWithoutSeparator(b, sep);
      SplitAfterPart(a, sep, b);
    }
    var tail3 := m + [sep] + n;
    assert Split(tail3, sep) == [m, a, b] by {
      SplitAfterPart(m, sep, n);
    }
    var tail2 := y + [sep] + tail3;
    assert Split(tail2, sep) == [y, m, a, b] by {
      SplitAfterPart(y, sep, tail3);
    }
    SplitAfterPart(x, sep, tail2);
  }

  /**
   * Because nothing is quoted, a note holding a comma spills into a fifth
   * column: the line splits into the first three fields and the note's two halves.
   */
  lemma CommaInNoteAddsColumn(e: DetectionEvent, iso: Instant -> string, fixed1: real -> string, a: string, b: string)
    requires e.note == Some(a + [','] + b)
    requires ',' !in iso(e.timestamp) && ',' !in fixed1(e.confidence) && ',' !in e.model
    requires ',' !in a && ',' !in b
    ensures Split(CsvLines([e], iso, fixed1)[1], ',') == [iso(e.timestamp), fixed1(e.confidence), e.model, a, b]
  {
    var x, y, m := iso(e.timestamp), fixed1(e.confidence), e.model;
    SingleCsvLine(e, iso, fixed1);
    assert RowFields(e, iso, fixed1) == [x, y, m, a + [','] + b];
    JoinFour(x, y, m, a + [','] + b, ',');
    SplitFive(x, y, m, a, b, ',');
  }
}
