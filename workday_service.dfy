/** The workday-length preference: one number of hours, read from storage at
    construction (validated against an allow-list) and written back on every
    change (not validated). */
module Workdays {
  import opened Wrappers
  import opened Storage

  /** The storage key of the preference. */
  const HOURS_KEY: string := "preferredWorkdayHours"

  /** `DEFAULT_HOURS`. */
  const DEFAULT_HOURS: real := 7.5

  /** `VALID_WORKDAY_HOURS`, the allow-list applied when loading. */
  const VALID_WORKDAY_HOURS: seq<real> := [7.5, 8.0]

  /** `isValidHours`: membership in the allow-list. */
  predicate IsValidHours(hours: real): (b: bool)
    ensures b <==> hours == 7.5 || hours == 8.0
  {
    hours in VALID_WORKDAY_HOURS
  }

  /** `hours.toString()` as stored: the number's own text. */
  function HoursEntry(hours: real): (entry: Json)
    ensures entry.JNum? && entry.n == hours
  {
    JNum(hours)
  }

  /** `parseFloat(stored ?? '')`: a number for stored number text; no number
      (NaN) for a missing entry or any other stored text. */
  function ParseFloat(stored: Option<Json>): (parsed: Option<real>)
    ensures stored.None? ==> parsed.None?
    ensures forall h :: stored == Some(HoursEntry(h)) ==> parsed == Some(h)
  {
    if stored.Some? && stored.value.JNum? then Some(stored.value.n) else None
  }

  /** `loadHours`: the stored value when it parses to an allowed number,
      `DEFAULT_HOURS` otherwise. */
  function LoadHours(stored: Option<Json>): (hours: real)
    ensures IsValidHours(hours)
    ensures ParseFloat(stored).Some? && IsValidHours(ParseFloat(stored).value) ==> hours == ParseFloat(stored).value
    ensures !(ParseFloat(stored).Some? && IsValidHours(ParseFloat(stored).value)) ==> hours == DEFAULT_HOURS
  {
    var parsed := ParseFloat(stored);
    if parsed.Some? && IsValidHours(parsed.value) then parsed.value else DEFAULT_HOURS
  }

  /** A value written by the setter loads back as itself when it is allowed,
      and as the default otherwise. */
  lemma WrittenHoursReload(hours: real)
    ensures LoadHours(Some(HoursEntry(hours))) == (if IsValidHours(hours) then hours else DEFAULT_HOURS)
  {
  }

  /** Loading with nothing stored, with an out-of-list "999", or with a
      non-number gives 7.5; a stored "8" gives 8. */
  lemma LoadExamples()
    ensures LoadHours(None) == 7.5
    ensures LoadHours(Some(JNum(999.0))) == 7.5
    ensures LoadHours(Some(JStr("8"))) == 7.5
    ensures LoadHours(Some(JNum(8.0))) == 8.0
  {
  }

  /** `WorkdayService`: the shared store and the current preference (the value
      the hours stream replays). */
  class WorkdayService {
    const storage: KeyValueStore
    var hours: real

    /** The field initialiser: the current value is what `loadHours` reads. */
    constructor (storage: KeyValueStore)
      ensures this.storage == storage
      ensures hours == LoadHours(if HOURS_KEY in storage.entries then Some(storage.entries[HOURS_KEY]) else None)
      ensures IsValidHours(hours)
    {
      this.storage := storage;
      var stored := storage.GetItem(HOURS_KEY);
      hours := LoadHours(stored);
    }

    /** `getWorkdayHours`: the current value; nothing changes. */
    method GetWorkdayHours() returns (h: real)
      ensures h == hours
    {
      h := hours;
    }

    /** `setWorkdayHours`: accepts any value, allowed or not, makes it current
        and stores its text. */
    method SetWorkdayHours(h: real)
      modifies this, storage
      ensures hours == h
      ensures storage.entries == old(storage.entries)[HOURS_KEY := HoursEntry(h)]
    {
      hours := h;
      storage.SetItem(HOURS_KEY, HoursEntry(h));
    }

    /** `resetToDefault`: the setter applied to 7.5. */
    method ResetToDefault()
      modifies this, storage
      ensures hours == DEFAULT_HOURS && IsValidHours(hours)
      ensures storage.entries == old(storage.entries)[HOURS_KEY := HoursEntry(DEFAULT_HOURS)]
    {
      SetWorkdayHours(DEFAULT_HOURS);
    }
  }
}
