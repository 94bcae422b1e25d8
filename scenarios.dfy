/** Clients that drive the two services through the sequences described by
    their unit tests, using nothing but the services' contracts. */
module Scenarios {
  import opened Wrappers
  import opened DayTable
  import opened Schedules
  import opened Days
  import opened Storage
  import opened Weeks
  import opened Workdays

  /** Empty store, new week service, record 08:00 to 17:00 on the first day:
      the week then shows 540 minutes for it, while a service loaded afresh
      from the same store shows 0, the times not being read back. */
  method ClockedDayScenario(lang: Lang, start: int) returns (minutes: real, reloadedMinutes: real)
    ensures minutes == 540.0
    ensures reloadedMinutes == 0.0
  {
    var store := new KeyValueStore(map[]);
    var created := NewWeekService(lang, store);
    var service := created.value;
    var ds := service.GetDays();
    assert |ds| == 7;
    var clocked := MakeDay(ds[0].name, Schedule(Some(start), Some(start + 9 * 60 * MS_PER_MINUTE)));
    var r := service.UpdateDay(clocked);
    assert r == Success(clocked);
    var after := service.GetDays();
    minutes := CalculateDifference(after[0].schedule);
    NineHourDay(start);

    WrittenWeekRevives(lang, after);
    var reloaded := NewWeekService(lang, store);
    var again := reloaded.value.GetDays();
    assert again == Reloaded(after);
    reloadedMinutes := CalculateDifference(again[0].schedule);
  }

  /** An allowed value set on one service is loaded by the next; a value off
      the allow-list is accepted by the setter but not by the next load. */
  method HoursScenario() returns (loaded: real, setOffList: real, reloaded: real)
    ensures loaded == 8.0 && setOffList == 9.0 && reloaded == DEFAULT_HOURS
  {
    var store := new KeyValueStore(map[]);
    var first := new WorkdayService(store);
    first.SetWorkdayHours(8.0);
    var second := new WorkdayService(store);
    loaded := second.GetWorkdayHours();
    second.SetWorkdayHours(9.0);
    setOffList := second.GetWorkdayHours();
    var third := new WorkdayService(store);
    reloaded := third.GetWorkdayHours();
  }
}
