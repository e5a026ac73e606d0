/**
 * The preference store: the configuration record the panel keeps under the
 * `detection-preferences` key, how it is read back at start-up, and the reset
 * to defaults. A stored record is the parsed JSON object; each field is
 * `None` when the key is missing or `null`.
 */
module PreferenceStore {
  import opened Wrappers
  import opened Detection

  datatype Preferences = Preferences(
    model: string,
    threshold: real,
    inputMode: InputMode,
    sensitivity: string,
    useGpu: bool,
    frameSampling: int,
    clipLength: int)

  /** The values the panel starts with. */
  const Defaults: Preferences := Preferences("movinet-a1", 70.0, Camera, "medium", true, 3, 10)

  datatype StoredFields = StoredFields(
    model: Option<string>,
    threshold: Option<real>,
    inputMode: Option<InputMode>,
    sensitivity: Option<string>,
    useGpu: Option<bool>,
    frameSampling: Option<int>,
    clipLength: Option<int>)

  /** What `localStorage.getItem('detection-preferences')` holds: nothing (or ""), text that is not JSON, or a record. */
  datatype SavedRecord = NoRecord | Unreadable | Record(fields: StoredFields)

  /** The values the controls can produce: a chosen model and tier, the sliders' ranges. */
  predicate InRange(p: Preferences) {
    && p.model != "" && p.sensitivity != ""
    && 0.0 <= p.threshold <= 100.0
    && 1 <= p.frameSampling <= 10
    && 5 <= p.clipLength <= 60
  }

  /** `v || d` on a string: the empty string is falsy. */
  function OrText(v: Option<string>, d: string): (r: string)
    ensures r == d || (v.Some? && r == v.value)
    ensures r == d <==> v.None? || v.value == "" || v.value == d
  {
    if v.Some? && v.value != "" then v.value else d
  }

  /** `v || d` on a number: zero is falsy. */
  function OrNumber(v: Option<real>, d: real): (r: real)
    ensures r == d <==> v.None? || v.value == 0.0 || v.value == d
    ensures v.Some? && v.value != 0.0 ==> r == v.value
  {
    if v.Some? && v.value != 0.0 then v.value else d
  }

  /** `v || d` on an integer. */
  function OrInt(v: Option<int>, d: int): (r: int)
    ensures r == d <==> v.None? || v.value == 0 || v.value == d
    ensures v.Some? && v.value != 0 ==> r == v.value
  {
    if v.Some? && v.value != 0 then v.value else d
  }

  /** What `savePreferences` writes. */
  function Save(p: Preferences): (f: StoredFields)
    ensures f.model.Some? && f.threshold.Some? && f.inputMode.Some? && f.sensitivity.Some?
    ensures f.useGpu.Some? && f.frameSampling.Some? && f.clipLength.Some?
  {
    StoredFields(Some(p.model), Some(p.threshold), Some(p.inputMode), Some(p.sensitivity),
                 Some(p.useGpu), Some(p.frameSampling), Some(p.clipLength))
  }

  /**
   * The start-up load as the source writes it: `||` on every field but the
   * GPU flag, which uses `??`. Without a readable record nothing changes.
   */
  function LoadAsWritten(current: Preferences, saved: SavedRecord): (r: Preferences)
    ensures !saved.Record? ==> r == current
    ensures saved.Record? ==> r.useGpu == saved.fields.useGpu.GetOr(true)
    ensures saved.Record? && saved.fields.threshold == Some(0.0) ==> r.threshold == 70.0
  {
    match saved
    case NoRecord => current
    case Unreadable => current
    case Record(f) =>
      Preferences(
        OrText(f.model, Defaults.model),
        OrNumber(f.threshold, Defaults.threshold),
        f.inputMode.GetOr(Defaults.inputMode),
        OrText(f.sensitivity, Defaults.sensitivity),
        f.useGpu.GetOr(Defaults.useGpu),
        OrInt(f.frameSampling, Defaults.frameSampling),
        OrInt(f.clipLength, Defaults.clipLength))
  }

  /**
   * Whatever else was saved, a threshold of 0, which the slider allows, comes
   * back as 70, so those preferences never survive a save and reload.
   */
  lemma ZeroThresholdReloadsAsSeventy(current: Preferences, p: Preferences)
    requires p.threshold == 0.0
    ensures LoadAsWritten(current, Record(Save(p))).threshold == 70.0
    ensures LoadAsWritten(current, Record(Save(p))) != p
  {
  }

  /**
   * Save then load as written gives back exactly the saved values when no
   * text field is empty and no number, the threshold included, is zero.
   */
  lemma SaveLoadAsWrittenRoundTrip(current: Preferences, p: Preferences)
    ensures LoadAsWritten(current, Record(Save(p))) == p
        <==> p.model != "" && p.sensitivity != "" && p.threshold != 0.0 && p.frameSampling != 0 && p.clipLength != 0
  {
  }

  /**
   * The start-up load with the threshold read by `??` as the GPU flag is, so
   * that every value the slider can save comes back.
   */
  function Load(current: Preferences, saved: SavedRecord): (r: Preferences)
    ensures saved.Record? ==> r.useGpu == saved.fields.useGpu.GetOr(true)
    ensures saved.Record? ==> r.threshold == saved.fields.threshold.GetOr(70.0)
    ensures !saved.Record? ==> r == current
  {
    match saved
    case NoRecord => current
    case Unreadable => current
    case Record(f) =>
      Preferences(
        OrText(f.model, Defaults.model),
        f.threshold.GetOr(Defaults.threshold),
        f.inputMode.GetOr(Defaults.inputMode),
        OrText(f.sensitivity, Defaults.sensitivity),
        f.useGpu.GetOr(Defaults.useGpu),
        OrInt(f.frameSampling, Defaults.frameSampling),
        OrInt(f.clipLength, Defaults.clipLength))
  }

  /**
   * Save then load gives back exactly the saved values when no text field
   * is empty and no count is zero, and differ otherwise.
   */
  lemma SaveLoadRoundTrip(current: Preferences, p: Preferences)
    ensures Load(current, Record(Save(p))) == p
        <==> p.model != "" && p.sensitivity != "" && p.frameSampling != 0 && p.clipLength != 0
  {
  }

  /** In particular every value the controls can produce survives, a GPU flag of `false` too. */
  lemma SaveLoadInRange(current: Preferences, p: Preferences)
    requires InRange(p)
    ensures Load(current, Record(Save(p))) == p
  {
    SaveLoadRoundTrip(current, p);
  }

  /** An empty record gives the defaults; so does a missing key at start-up. */
  lemma EmptyRecordGivesDefaults(current: Preferences)
    ensures Load(current, Record(StoredFields(None, None, None, None, None, None, None))) == Defaults
    ensures Load(Defaults, NoRecord) == Defaults && Load(Defaults, Unreadable) == Defaults
  {
  }

  /** Loading in-range stored values over in-range current values stays in range. */
  lemma LoadKeepsRange(current: Preferences, f: StoredFields)
    requires InRange(current)
    requires f.model.Some? ==> f.model.value != ""
    requires f.sensitivity.Some? ==> f.sensitivity.value != ""
    requires f.threshold.Some? ==> 0.0 <= f.threshold.value <= 100.0
    requires f.frameSampling.Some? ==> 1 <= f.frameSampling.value <= 10
    requires f.clipLength.Some? ==> 5 <= f.clipLength.value <= 60
    ensures InRange(Load(current, Record(f)))
  {
  }

  /**
   * The load as written and the corrected load agree on every record except
   * one holding a threshold of 0, and there they differ in the threshold only.
   */
  lemma LoadAsWrittenDiffersOnlyAtZero(current: Preferences, saved: SavedRecord)
    ensures !(saved.Record? && saved.fields.threshold == Some(0.0)) ==> LoadAsWritten(current, saved) == Load(current, saved)
    ensures saved.Record? && saved.fields.threshold == Some(0.0) ==>
      && LoadAsWritten(current, saved) == Load(current, saved).(threshold := 70.0)
      && Load(current, saved).threshold == 0.0
  {
  }

  /** `resetToDefaults`: every preference back to its default except the input mode. */
  function Reset(p: Preferences): (r: Preferences)
    ensures r.inputMode == p.inputMode
    ensures r.(inputMode := Defaults.inputMode) == Defaults
    ensures InRange(r)
  {
    Defaults.(inputMode := p.inputMode)
  }
}
