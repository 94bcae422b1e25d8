/** A named day of the week with its schedule, holiday and licence flags and
    a `trackable` flag computed once, from the name, when the day is built. */
module Days {
  import opened Wrappers
  import opened DayTable
  import opened Schedules
  import opened Text

  /** The two characters U+0E23 U+0E01 (Thai "ร", "ก") that the trackable rule
      replaces by "a"; they are not "á", so "sábado" keeps its accent. */
  const REPLACED: string := "\U{0E23}\U{0E01}"

  /** A day as the week holds it. `trackable` is optional, as in the `IDay`
      shape: a day built by `MakeDay` always has it, a day handed in by a
      caller need not. */
  datatype Day = Day(name: string, schedule: Schedule, holiday: bool, license: bool, trackable: Option<bool>)

  /** The default trackable flag for a name: false for "domingo" in any case,
      and for a lower-cased name that reads "sabado" once its first "ร" "ก"
      pair is replaced by "a". */
  predicate DefaultTrackable(name: string): (t: bool)
    ensures ToLower(name) == "domingo" ==> !t
    ensures ToLower(name) == "sabado" ==> !t
  {
    var lower := ToLower(name);
    assert lower == "sabado" ==> IndexOf(lower, REPLACED) == -1 by {
      if lower == "sabado" {
        assert REPLACED[0] !in lower;
      }
    }
    lower != "domingo" && ReplaceFirst(lower, REPLACED, "a") != "sabado"
  }

  /** `new Day(name, schedule, holiday = false, license = false)`. */
  function MakeDay(name: string, schedule: Schedule, holiday: bool := false, license: bool := false): (d: Day)
    ensures d.name == name && d.schedule == schedule && d.holiday == holiday && d.license == license
    ensures d.trackable == Some(DefaultTrackable(name))
  {
    Day(name, schedule, holiday, license, Some(DefaultTrackable(name)))
  }

  /** "sabado" with its first "a" written as the replaced pair. */
  const SABADO_1: string := "s" + REPLACED + "bado"

  /** "sabado" with its second "a" written as the replaced pair. */
  const SABADO_3: string := "sab" + REPLACED + "do"

  /** The replacement turns both spellings into "sabado". */
  lemma ReplacedSpellingsGiveSabado()
    ensures ReplaceFirst(SABADO_1, REPLACED, "a") == "sabado"
    ensures ReplaceFirst(SABADO_3, REPLACED, "a") == "sabado"
  {
    assert OccursAt(SABADO_1, REPLACED, 1) && SABADO_1[0] != REPLACED[0];
    assert IndexOf(SABADO_1, REPLACED) == 1;
    assert OccursAt(SABADO_3, REPLACED, 3);
    assert SABADO_3[0] != REPLACED[0] && SABADO_3[1] != REPLACED[0] && SABADO_3[2] != REPLACED[0];
    assert IndexOf(SABADO_3, REPLACED) == 3;
  }

  /** When the pair does occur, only those two spellings become "sabado". */
  lemma {:induction false} OnlyReplacedSpellings(x: string)
    requires IndexOf(x, REPLACED) != -1 && ReplaceFirst(x, REPLACED, "a") == "sabado"
    ensures x == SABADO_1 || x == SABADO_3
  {
    var k := IndexOf(x, REPLACED);
    var r := ReplaceFirst(x, REPLACED, "a");
    assert r == x[..k] + "a" + x[k + 2..];
    assert |x| == 7;
    assert r[k] == 'a';
    assert k == 1 || k == 3;
    assert x == x[..k] + REPLACED + x[k + 2..];
    assert x[..k] == r[..k] && x[k + 2..] == r[k + 1..];
  }

  /** The replacement yields "sabado" exactly for "sabado" and the two
      spellings with the replaced pair. */
  lemma {:induction false} ReplacedIsSabadoIff(x: string)
    ensures ReplaceFirst(x, REPLACED, "a") == "sabado" <==> x == "sabado" || x == SABADO_1 || x == SABADO_3
  {
    ReplacedSpellingsGiveSabado();
    if IndexOf(x, REPLACED) == -1 {
      assert OccursAt(SABADO_1, REPLACED, 1) && OccursAt(SABADO_3, REPLACED, 3);
    } else {
      assert x[IndexOf(x, REPLACED)] == REPLACED[0];
      assert forall i :: 0 <= i < 6 ==> "sabado"[i] != REPLACED[0];
      if ReplaceFirst(x, REPLACED, "a") == "sabado" {
        OnlyReplacedSpellings(x);
      }
    }
  }

  /** Exactly four lower-cased spellings make a day not trackable by default:
      "domingo", "sabado", and "sabado" with one of its two a's written as the
      replaced pair. */
  lemma {:induction false} NotTrackableIff(name: string)
    ensures !DefaultTrackable(name) <==>
              var lower := ToLower(name);
              lower == "domingo" || lower == "sabado" || lower == SABADO_1 || lower == SABADO_3
  {
    ReplacedIsSabadoIff(ToLower(name));
  }

  /** A name whose lower-case form has "á" second reads neither "domingo" nor,
      after the replacement, "sabado": it is trackable. */
  lemma AccentedTrackable(name: string)
    requires |name| == 6 && ToLower(name)[1] == 'á'
    ensures DefaultTrackable(name)
  {
  }

  /** "Sábado", with its accent, is trackable. */
  lemma AccentedSabadoTrackable()
    ensures DefaultTrackable("Sábado") && DefaultTrackable("sábado") && DefaultTrackable("SÁBADO")
  {
    AccentedTrackable("Sábado");
    AccentedTrackable("sábado");
    AccentedTrackable("SÁBADO");
  }

  /** "Domingo", in any case, is not trackable. */
  lemma DomingoNotTrackable()
    ensures !DefaultTrackable("Domingo") && !DefaultTrackable("DOMINGO") && !DefaultTrackable("domingo")
  {
    assert ToLower("Domingo") == "domingo";
    assert ToLower("DOMINGO") == "domingo";
    assert ToLower("domingo") == "domingo";
  }

  /** "Sabado" without its accent, in any case, is not trackable. */
  lemma UnaccentedSabadoNotTrackable(name: string)
    requires ToLower(name) == "sabado"
    ensures !DefaultTrackable(name)
  {
    NotTrackableIff(name);
  }

  /** A name whose lower-case form does not end in "o" is trackable. */
  lemma NotEndingInOTrackable(name: string)
    requires |name| > 0 && ToLower(name)[|name| - 1] != 'o'
    ensures DefaultTrackable(name)
  {
    NotTrackableIff(name);
  }

  /** Every canonical name is trackable except "Domingo"; in English that
      includes "Saturday" and "Sunday". */
  lemma TableTrackable()
    ensures forall i :: 0 <= i < 7 ==> DefaultTrackable(ValidDays(En)[i])
    ensures forall i :: 0 <= i < 6 ==> DefaultTrackable(ValidDays(Es)[i])
    ensures !DefaultTrackable(ValidDays(Es)[6])
  {
    forall i | 0 <= i < 7
      ensures DefaultTrackable(ValidDays(En)[i])
    {
      var n := ValidDays(En)[i];
      assert n[|n| - 1] == 'y';
      NotEndingInOTrackable(n);
    }
    forall i | 0 <= i < 5
      ensures DefaultTrackable(ValidDays(Es)[i])
    {
      var n := ValidDays(Es)[i];
      assert n[|n| - 1] == 's';
      NotEndingInOTrackable(n);
    }
    AccentedSabadoTrackable();
    DomingoNotTrackable();
  }
}
