/** The week store: the current list of days, validated against the language's
    day-name table and persisted under the key "week". */
module Weeks {
  import opened Wrappers
  import opened DayTable
  import opened DayErrors
  import opened Schedules
  import opened Days
  import opened Storage

  /** The storage key of the persisted week. */
  const WEEK_KEY: string := "week"

  /** The error revival raises when the stored week is not an array. */
  const NOT_AN_ARRAY: string := "Invalid data format for days. Expected an array."

  /** Every day of `ds` has a canonical name for `lang`. */
  ghost predicate AllValid(lang: Lang, ds: seq<Day>) {
    forall i :: 0 <= i < |ds| ==> IsValidDay(lang, ds[i].name)
  }

  // ---------------------------------------------------------------------------
  // Searches over a week

  /** The position of the first day whose name is not canonical (the `find`
      in `setDays`), or `|ds|` when every name is canonical. */
  function FirstInvalidIndex(lang: Lang, ds: seq<Day>): (k: nat)
    ensures k <= |ds|
    ensures forall j :: 0 <= j < k ==> IsValidDay(lang, ds[j].name)
    ensures k < |ds| ==> !IsValidDay(lang, ds[k].name)
  {
    if ds == [] || !IsValidDay(lang, ds[0].name) then 0
    else 1 + FirstInvalidIndex(lang, ds[1..])
  }

  /** `findIndex(d => d.name === name)`: the first position holding `name`, or -1. */
  function IndexOfName(ds: seq<Day>, name: string): (k: int)
    ensures -1 <= k < |ds|
    ensures k >= 0 ==> ds[k].name == name
    ensures forall j :: 0 <= j < |ds| && (k == -1 || j < k) ==> ds[j].name != name
  {
    if ds == [] then -1
    else if ds[0].name == name then 0
    else
      var k := IndexOfName(ds[1..], name);
      if k == -1 then -1 else k + 1
  }

  /** The search for an invalid name runs off the end exactly when every name is valid. */
  lemma AllValidIff(lang: Lang, ds: seq<Day>)
    ensures FirstInvalidIndex(lang, ds) == |ds| <==> AllValid(lang, ds)
  {
  }

  // ---------------------------------------------------------------------------
  // The default week

  /** `generateDefaultWeek`: one day per canonical name, in table order, each
      with an empty schedule and neither holiday nor licence. */
  function DefaultWeek(lang: Lang): (w: seq<Day>)
    ensures |w| == |ValidDays(lang)|
    ensures forall i :: 0 <= i < |w| ==>
              w[i].name == ValidDays(lang)[i] && w[i].schedule == EMPTY_SCHEDULE
              && !w[i].holiday && !w[i].license && w[i].trackable == Some(DefaultTrackable(w[i].name))
  {
    var names := ValidDays(lang);
    seq(|names|, i requires 0 <= i < |names| => MakeDay(names[i], EMPTY_SCHEDULE))
  }

  /** The default week passes validation and names no day twice. */
  lemma DefaultWeekValid(lang: Lang)
    ensures AllValid(lang, DefaultWeek(lang))
    ensures forall i, j :: 0 <= i < j < |DefaultWeek(lang)| ==> DefaultWeek(lang)[i].name != DefaultWeek(lang)[j].name
  {
    NamesDistinct(lang);
  }

  // ---------------------------------------------------------------------------
  // Serialisation: what `JSON.stringify(days)` writes

  /** A schedule's own properties; an absent instant is left out. */
  function ScheduleJson(s: Schedule): (j: Json)
    ensures j.JObj? && j.fields.Keys <= {"clockInTime", "clockOutTime"}
    ensures s.clockInTime.Some? <==> "clockInTime" in j.fields
    ensures s.clockInTime.Some? ==> j.fields["clockInTime"] == JDate(s.clockInTime.value)
    ensures s.clockOutTime.Some? <==> "clockOutTime" in j.fields
    ensures s.clockOutTime.Some? ==> j.fields["clockOutTime"] == JDate(s.clockOutTime.value)
  {
    JObj((if s.clockInTime.Some? then map["clockInTime" := JDate(s.clockInTime.value)] else map[])
       + (if s.clockOutTime.Some? then map["clockOutTime" := JDate(s.clockOutTime.value)] else map[]))
  }

  /** A day's own properties, `trackable` included when it is set. */
  function DayJson(d: Day): (j: Json)
    ensures j.JObj? && j.fields.Keys <= {"name", "schedule", "holiday", "license", "trackable"}
    ensures "name" in j.fields && j.fields["name"] == JStr(d.name)
    ensures "schedule" in j.fields && j.fields["schedule"] == ScheduleJson(d.schedule)
    ensures "holiday" in j.fields && j.fields["holiday"] == JBool(d.holiday)
    ensures "license" in j.fields && j.fields["license"] == JBool(d.license)
    ensures d.trackable.Some? <==> "trackable" in j.fields
    ensures d.trackable.Some? ==> j.fields["trackable"] == JBool(d.trackable.value)
  {
    JObj(map["name" := JStr(d.name), "schedule" := ScheduleJson(d.schedule),
             "holiday" := JBool(d.holiday), "license" := JBool(d.license)]
       + (if d.trackable.Some? then map["trackable" := JBool(d.trackable.value)] else map[]))
  }

  /** The array of written days, in week order. */
  function SerializeDays(ds: seq<Day>): (items: seq<Json>)
    ensures |items| == |ds|
    ensures forall i :: 0 <= i < |ds| ==> items[i] == DayJson(ds[i])
  {
    if ds == [] then [] else [DayJson(ds[0])] + SerializeDays(ds[1..])
  }

  /** `JSON.stringify(days)`: the written days as one array. */
  function SerializeWeek(ds: seq<Day>): Json {
    JArr(SerializeDays(ds))
  }

  // ---------------------------------------------------------------------------
  // Revival: `reviveDaysFromStorage`

  /** `v.key` on a parsed value: present only on an object holding that key. */
  function Member(v: Option<Json>, key: string): Option<Json> {
    if v.Some? && v.value.JObj? && key in v.value.fields then Some(v.value.fields[key]) else None
  }

  /** An instant read back from storage. */
  function InstantOf(v: Option<Json>): (t: Option<int>)
    ensures t.Some? <==> v.Some? && v.value.JDate?
    ensures t.Some? ==> v.value == JDate(t.value)
  {
    if v.Some? && v.value.JDate? then Some(v.value.ms) else None
  }

  /** A flag read back from storage; a missing one takes the default `false`. */
  function FlagOf(v: Option<Json>): (flag: bool)
    ensures flag <==> v == Some(JBool(true))
  {
    v.Some? && v.value.JBool? && v.value.b
  }

  /** `d && d.name && isValidDay(d.name)`: the element is an object whose name
      is a canonical day name. */
  predicate IsRevivable(lang: Lang, j: Json): (b: bool)
    ensures b ==> j.JObj? && "name" in j.fields && j.fields["name"].JStr?
    ensures b <==> exists n :: Member(Some(j), "name") == Some(JStr(n)) && IsValidDay(lang, n)
  {
    var name := Member(Some(j), "name");
    name.Some? && name.value.JStr? && IsValidDay(lang, name.value.s)
  }

  /** `new Day(d.name, new Schedule(d.schedule?.entry, d.schedule?.exit), d.holiday, d.license)`. */
  function ReviveDay(lang: Lang, j: Json): (d: Day)
    requires IsRevivable(lang, j)
    ensures IsValidDay(lang, d.name) && Some(JStr(d.name)) == Member(Some(j), "name")
    ensures d.holiday == FlagOf(Member(Some(j), "holiday")) && d.license == FlagOf(Member(Some(j), "license"))
    ensures d.schedule.clockInTime == InstantOf(Member(Member(Some(j), "schedule"), "entry"))
    ensures d.schedule.clockOutTime == InstantOf(Member(Member(Some(j), "schedule"), "exit"))
    ensures d.trackable == Some(DefaultTrackable(d.name))
  {
    var schedule := Member(Some(j), "schedule");
    MakeDay(j.fields["name"].s,
            Schedule(InstantOf(Member(schedule, "entry")), InstantOf(Member(schedule, "exit"))),
            FlagOf(Member(Some(j), "holiday")), FlagOf(Member(Some(j), "license")))
  }

  /** The `filter` then `map` over the stored elements: the revivable ones,
      revived, in their stored order. */
  function ReviveItems(lang: Lang, items: seq<Json>): (ds: seq<Day>)
    ensures |ds| <= |items|
    ensures AllValid(lang, ds)
    ensures forall i :: 0 <= i < |ds| ==> ds[i].trackable.Some?
  {
    if items == [] then []
    else (if IsRevivable(lang, items[0]) then [ReviveDay(lang, items[0])] else []) + ReviveItems(lang, items[1..])
  }

  /** `reviveDaysFromStorage(raw)`: fails unless the stored value is an array. */
  function ReviveDaysFromStorage(lang: Lang, raw: Json): (r: Result<seq<Day>, string>)
    ensures r.Failure? <==> !raw.JArr?
    ensures r.Failure? ==> r.error == NOT_AN_ARRAY
    ensures r.Success? ==> |r.value| <= |raw.items| && AllValid(lang, r.value)
  {
    if raw.JArr? then Success(ReviveItems(lang, raw.items)) else Failure(NOT_AN_ARRAY)
  }

  /** The week `loadFromStorage` arrives at: the revived stored week when there
      is one, the default week otherwise. */
  function LoadedWeek(lang: Lang, stored: Option<Json>): (r: Result<seq<Day>, string>)
    ensures stored.None? ==> r == Success(DefaultWeek(lang))
    ensures stored.Some? ==> r == ReviveDaysFromStorage(lang, stored.value)
    ensures r.Success? ==> AllValid(lang, r.value)
  {
    DefaultWeekValid(lang);
    if stored.Some? then ReviveDaysFromStorage(lang, stored.value) else Success(DefaultWeek(lang))
  }

  /** Revival distributes over concatenation: it keeps order and treats each
      element on its own. */
  lemma {:induction false} ReviveAppend(lang: Lang, xs: seq<Json>, ys: seq<Json>)
    ensures ReviveItems(lang, xs + ys) == ReviveItems(lang, xs) + ReviveItems(lang, ys)
  {
    if xs == [] {
      assert xs + ys == ys;
    } else {
      assert (xs + ys)[0] == xs[0];
      assert (xs + ys)[1..] == xs[1..] + ys;
      ReviveAppend(lang, xs[1..], ys);
    }
  }

  /** Nothing is dropped exactly when every element is revivable. */
  lemma {:induction false} ReviveKeepsAllIff(lang: Lang, items: seq<Json>)
    ensures |ReviveItems(lang, items)| == |items| <==> forall i :: 0 <= i < |items| ==> IsRevivable(lang, items[i])
  {
    if items != [] {
      ReviveKeepsAllIff(lang, items[1..]);
      assert forall i :: 1 <= i < |items| ==> items[i] == items[1..][i - 1];
    }
  }

  /** The week as a fresh load revives it after `SetDays(ds)`: names and flags
      kept, schedules empty, trackable recomputed. */
  ghost function Reloaded(ds: seq<Day>): seq<Day> {
    if ds == [] then [] else [MakeDay(ds[0].name, EMPTY_SCHEDULE, ds[0].holiday, ds[0].license)] + Reloaded(ds[1..])
  }

  /** One written day revives to its name and flags with an empty schedule:
      the writer stores `clockInTime`/`clockOutTime`, the reader looks for
      `entry`/`exit`. */
  lemma ReviveDayJson(lang: Lang, d: Day)
    ensures IsRevivable(lang, DayJson(d)) <==> IsValidDay(lang, d.name)
    ensures IsValidDay(lang, d.name) ==> ReviveDay(lang, DayJson(d)) == MakeDay(d.name, EMPTY_SCHEDULE, d.holiday, d.license)
  {
    var j := DayJson(d);
    var s := ScheduleJson(d.schedule);
    assert Member(Some(j), "name") == Some(JStr(d.name));
    assert Member(Some(j), "schedule") == Some(s);
    assert Member(Some(j), "holiday") == Some(JBool(d.holiday));
    assert Member(Some(j), "license") == Some(JBool(d.license));
    assert Member(Some(s), "entry") == None && Member(Some(s), "exit") == None;
  }

  /** Reviving a written day in front of other elements. */
  lemma ReviveWrittenHead(lang: Lang, d: Day, tail: seq<Json>)
    requires IsValidDay(lang, d.name)
    ensures ReviveItems(lang, [DayJson(d)] + tail)
         == [MakeDay(d.name, EMPTY_SCHEDULE, d.holiday, d.license)] + ReviveItems(lang, tail)
  {
    ReviveDayJson(lang, d);
    assert ([DayJson(d)] + tail)[1..] == tail;
  }

  /** A week that `setDays` accepted and wrote revives, on the next load, to
      the same names and flags with every schedule empty. */
  lemma {:induction false} WrittenWeekRevives(lang: Lang, ds: seq<Day>)
    requires AllValid(lang, ds)
    ensures ReviveDaysFromStorage(lang, SerializeWeek(ds)) == Success(Reloaded(ds))
  {
    if ds != [] {
      ReviveWrittenHead(lang, ds[0], SerializeDays(ds[1..]));
      WrittenWeekRevives(lang, ds[1..]);
    }
  }

  /** So the stored copy round-trips exactly when the week had no clock-in or
      clock-out times and its trackable flags were the defaults. */
  lemma RoundTripIff(lang: Lang, ds: seq<Day>)
    requires AllValid(lang, ds)
    ensures ReviveDaysFromStorage(lang, SerializeWeek(ds)) == Success(ds) <==>
              forall i :: 0 <= i < |ds| ==> ds[i].schedule == EMPTY_SCHEDULE && ds[i].trackable == Some(DefaultTrackable(ds[i].name))
  {
    WrittenWeekRevives(lang, ds);
    ReloadedIff(ds);
  }

  /** Reloading changes nothing exactly when there were no times and only
      default trackable flags. */
  lemma {:induction false} ReloadedIff(ds: seq<Day>)
    ensures Reloaded(ds) == ds <==>
              forall i :: 0 <= i < |ds| ==> ds[i].schedule == EMPTY_SCHEDULE && ds[i].trackable == Some(DefaultTrackable(ds[i].name))
  {
    if ds != [] {
      ReloadedIff(ds[1..]);
      assert ds == [ds[0]] + ds[1..];
      assert forall i :: 1 <= i < |ds| ==> ds[i] == ds[1..][i - 1];
    }
  }

  // ---------------------------------------------------------------------------
  // The trackable projection

  /** `days.filter(day => day.trackable !== false)`. */
  function TrackableDays(ds: seq<Day>): (r: seq<Day>)
    ensures |r| <= |ds|
    ensures forall i :: 0 <= i < |r| ==> r[i].trackable != Some(false)
  {
    if ds == [] then []
    else (if ds[0].trackable != Some(false) then [ds[0]] else []) + TrackableDays(ds[1..])
  }

  /** A day is kept exactly when it was in the week and is not marked
      untrackable; a day without the flag is kept. */
  lemma {:induction false} TrackableMembership(ds: seq<Day>, d: Day)
    ensures d in TrackableDays(ds) <==> d in ds && d.trackable != Some(false)
  {
    if ds != [] {
      TrackableMembership(ds[1..], d);
      assert ds == [ds[0]] + ds[1..];
    }
  }

  /** The projection keeps the relative order of the days it keeps. */
  lemma {:induction false} TrackableAppend(xs: seq<Day>, ys: seq<Day>)
    ensures TrackableDays(xs + ys) == TrackableDays(xs) + TrackableDays(ys)
  {
    if xs == [] {
      assert xs + ys == ys;
    } else {
      assert (xs + ys)[0] == xs[0];
      assert (xs + ys)[1..] == xs[1..] + ys;
      TrackableAppend(xs[1..], ys);
    }
  }

  /** Nothing is dropped when no day is marked untrackable. */
  lemma {:induction false} TrackableAllKept(ds: seq<Day>)
    requires forall i :: 0 <= i < |ds| ==> ds[i].trackable != Some(false)
    ensures TrackableDays(ds) == ds
  {
    if ds != [] {
      TrackableAllKept(ds[1..]);
    }
  }

  /** The English default week is trackable throughout, "Saturday" and
      "Sunday" included. */
  lemma EnglishWeekTrackable()
    ensures TrackableDays(DefaultWeek(En)) == DefaultWeek(En)
  {
    TableTrackable();
    TrackableAllKept(DefaultWeek(En));
  }

  /** The Spanish default week loses only "Domingo"; its "Sábado" stays. */
  lemma SpanishWeekTrackable()
    ensures TrackableDays(DefaultWeek(Es)) == DefaultWeek(Es)[..6]
  {
    var w := DefaultWeek(Es);
    assert w == w[..6] + [w[6]];
    TrackableAppend(w[..6], [w[6]]);
    SpanishWorkdaysKept();
    SpanishSundayDropped();
  }

  /** The first six Spanish days, "Sábado" included, are all kept. */
  lemma SpanishWorkdaysKept()
    ensures TrackableDays(DefaultWeek(Es)[..6]) == DefaultWeek(Es)[..6]
  {
    TableTrackable();
    TrackableAllKept(DefaultWeek(Es)[..6]);
  }

  /** "Domingo" alone is dropped. */
  lemma SpanishSundayDropped()
    ensures TrackableDays([DefaultWeek(Es)[6]]) == []
  {
    TableTrackable();
    assert DefaultWeek(Es)[6].trackable == Some(false);
  }

  // ---------------------------------------------------------------------------
  // Replacing one day

  /** After replacing the first day named `day.name` by `day`, that position is
      still the first one with the name: a second identical update changes
      nothing more, and the lookup by name now finds `day`. */
  lemma ReplacedIndexStable(ds: seq<Day>, day: Day)
    requires IndexOfName(ds, day.name) >= 0
    ensures IndexOfName(ds[IndexOfName(ds, day.name) := day], day.name) == IndexOfName(ds, day.name)
  {
    var k := IndexOfName(ds, day.name);
    var ds' := ds[k := day];
    var k' := IndexOfName(ds', day.name);
    assert ds'[k].name == day.name;
    assert forall j :: 0 <= j < k ==> ds'[j] == ds[j];
  }

  /** Replacing a day with a canonical name keeps the week valid. */
  lemma ReplacePreservesValid(lang: Lang, ds: seq<Day>, k: nat, day: Day)
    requires AllValid(lang, ds) && k < |ds| && IsValidDay(lang, day.name)
    ensures AllValid(lang, ds[k := day])
  {
  }

  // ---------------------------------------------------------------------------
  // The service

  /** `WeekService`: the language fixed at construction, the shared store and
      the current week (the value the days stream replays). */
  class WeekService {
    const lang: Lang
    const storage: KeyValueStore
    var days: seq<Day>

    /** Every day the service holds has a canonical name. */
    ghost predicate Valid()
      reads this
    {
      AllValid(lang, days)
    }

    /** The field initialisers: the language and an empty current week. */
    constructor (lang: Lang, storage: KeyValueStore)
      ensures this.lang == lang && this.storage == storage && days == [] && Valid()
    {
      this.lang := lang;
      this.storage := storage;
      days := [];
    }

    /** `loadFromStorage`: revive the stored week, or start from the default
        week when nothing is stored; a stored value that is not an array fails
        and leaves the current week as it was. Storage is not written. */
    method LoadFromStorage() returns (r: Outcome<string>)
      requires Valid()
      modifies this
      ensures Valid()
      ensures var loaded := LoadedWeek(lang, if WEEK_KEY in storage.entries then Some(storage.entries[WEEK_KEY]) else None);
              if loaded.Success? then r == Pass && days == loaded.value
              else r == Fail(loaded.error) && days == old(days)
    {
      var data := storage.GetItem(WEEK_KEY);
      var loaded := LoadedWeek(lang, data);
      if loaded.Failure? {
        return Fail(loaded.error);
      }
      days := loaded.value;
      r := Pass;
    }

    /** `getDays`: a copy of the current week; nothing changes. */
    method GetDays() returns (ds: seq<Day>)
      ensures ds == days
    {
      ds := days;
    }

    /** `setDays`: with a non-canonical name anywhere, fail with an `invalid`
        error naming the first such day and change nothing; otherwise make the
        argument the current week and write it under "week". Duplicate names
        are accepted. */
    method SetDays(newDays: seq<Day>) returns (r: Outcome<DayError>)
      requires Valid()
      modifies this, storage
      ensures Valid()
      ensures r.Fail? <==> !AllValid(lang, newDays)
      ensures r.Fail? ==>
                var k := FirstInvalidIndex(lang, newDays);
                k < |newDays| && r.error == DayError.Invalid(newDays[k].name, lang)
                && days == old(days) && storage.entries == old(storage.entries)
      ensures r.Pass? ==> days == newDays && storage.entries == old(storage.entries)[WEEK_KEY := SerializeWeek(newDays)]
    {
      var k := FirstInvalidIndex(lang, newDays);
      if k < |newDays| {
        return Fail(DayError.Invalid(newDays[k].name, lang));
      }
      AllValidIff(lang, newDays);
      days := newDays;
      storage.SetItem(WEEK_KEY, SerializeWeek(newDays));
      r := Pass;
    }

    /** `clearDays`: remove the stored week; the current week is untouched. */
    method ClearDays()
      modifies storage
      ensures storage.entries == old(storage.entries) - {WEEK_KEY}
      ensures days == old(days)
    {
      storage.RemoveItem(WEEK_KEY);
    }

    /** `getDayById`: an `invalid` error for a non-canonical name; otherwise the
        first day with that name, or a fresh day with an empty schedule that
        is not added to the week. */
    method GetDayById(id: string) returns (r: Result<Day, DayError>)
      ensures !IsValidDay(lang, id) <==> r.Failure?
      ensures r.Failure? ==> r.error == DayError.Invalid(id, lang)
      ensures r.Success? ==> r.value.name == id
      ensures r.Success? && IndexOfName(days, id) >= 0 ==> r.value == days[IndexOfName(days, id)]
      ensures r.Success? && IndexOfName(days, id) == -1 ==> r.value == MakeDay(id, EMPTY_SCHEDULE)
    {
      if !IsValidDay(lang, id) {
        return Failure(DayError.Invalid(id, lang));
      }
      var k := IndexOfName(days, id);
      r := Success(if k >= 0 then days[k] else MakeDay(id, EMPTY_SCHEDULE));
    }

    /** `updateDay`: an `invalid` error for a non-canonical name, a `not_found`
        error for a canonical name the week lacks (nothing changes in either
        case); otherwise only the first day with that name is replaced, the
        week is stored again, and the given day is returned. */
    method UpdateDay(day: Day) returns (r: Result<Day, DayError>)
      requires Valid()
      modifies this, storage
      ensures Valid()
      ensures !IsValidDay(lang, day.name) ==>
                r == Failure(DayError.Invalid(day.name, lang))
                && days == old(days) && storage.entries == old(storage.entries)
      ensures IsValidDay(lang, day.name) && IndexOfName(old(days), day.name) == -1 ==>
                r == Failure(DayError.NotFound(day.name, lang))
                && days == old(days) && storage.entries == old(storage.entries)
      ensures IsValidDay(lang, day.name) && IndexOfName(old(days), day.name) >= 0 ==>
                var k := IndexOfName(old(days), day.name);
                r == Success(day) && days == old(days)[k := day]
                && storage.entries == old(storage.entries)[WEEK_KEY := SerializeWeek(days)]
    {
      if !IsValidDay(lang, day.name) {
        return Failure(DayError.Invalid(day.name, lang));
      }
      var idx := IndexOfName(days, day.name);
      if idx == -1 {
        return Failure(DayError.NotFound(day.name, lang));
      }
      var updated := days[idx := day];
      ReplacePreservesValid(lang, days, idx, day);
      var o := SetDays(updated);
      r := Success(day);
    }

    /** `getTrackableDays`: the current week without the days marked
        untrackable; nothing changes. */
    method GetTrackableDays() returns (ds: seq<Day>)
      ensures ds == TrackableDays(days)
    {
      ds := TrackableDays(days);
    }

    /** `resetToDefaultWeek`: make the default week current, store it, and
        return it. */
    method ResetToDefaultWeek() returns (w: seq<Day>)
      requires Valid()
      modifies this, storage
      ensures Valid()
      ensures w == DefaultWeek(lang) && days == w
      ensures storage.entries == old(storage.entries)[WEEK_KEY := SerializeWeek(w)]
    {
      w := DefaultWeek(lang);
      DefaultWeekValid(lang);
      var o := SetDays(w);
    }
  }

  /** `new WeekService()`: fix the language, then load. Construction fails when
      the stored week is not an array. */
  method NewWeekService(lang: Lang, storage: KeyValueStore) returns (r: Result<WeekService, string>)
    ensures var loaded := LoadedWeek(lang, if WEEK_KEY in storage.entries then Some(storage.entries[WEEK_KEY]) else None);
            (r.Success? <==> loaded.Success?)
            && (r.Failure? ==> r.error == loaded.error)
            && (r.Success? ==> fresh(r.value) && r.value.lang == lang && r.value.storage == storage
                               && r.value.days == loaded.value && r.value.Valid())
  {
    var service := new WeekService(lang, storage);
    var o := service.LoadFromStorage();
    if o.Fail? {
      return Failure(o.error);
    }
    r := Success(service);
  }
}
