/** The supported languages and, per language, the ordered table of canonical
    day names (Monday first) that every day-name validation relies on. */
module DayTable {
  import opened Text

  /** The two supported languages, `'en'` and `'es'`. */
  datatype Lang = En | Es

  /** VALID_DAYS[lang]: the canonical day names, Monday to Sunday. */
  function ValidDays(lang: Lang): (names: seq<string>)
    ensures |names| == 7
  {
    match lang
    case En => ["Monday", "Tuesday", "Wednesday", "Thursday", "Friday", "Saturday", "Sunday"]
    case Es => ["Lunes", "Martes", "Miércoles", "Jueves", "Viernes", "Sábado", "Domingo"]
  }

  /** A day name is valid when it is, character for character, one of the
      language's canonical names (`Array.prototype.includes`). */
  predicate IsValidDay(lang: Lang, day: string): (b: bool)
    ensures b ==> 5 <= |day| <= 9 && 'A' <= day[0] <= 'Z'
  {
    day in ValidDays(lang)
  }

  /** Validation is case-sensitive: the lower-case form of a valid name is
      never valid, since every canonical name starts with a capital. */
  lemma LowerCaseInvalid(lang: Lang, day: string)
    requires IsValidDay(lang, day)
    ensures !IsValidDay(lang, ToLower(day))
  {
  }

  /** No name is valid in both languages. */
  lemma LanguagesDisjoint(day: string)
    ensures !(IsValidDay(En, day) && IsValidDay(Es, day))
  {
  }

  /** No name appears twice in either table. */
  lemma NamesDistinct(lang: Lang)
    ensures forall i, j :: 0 <= i < j < |ValidDays(lang)| ==> ValidDays(lang)[i] != ValidDays(lang)[j]
  {
  }

  /** Each table runs from Monday to Sunday. */
  lemma MondayToSunday()
    ensures ValidDays(En)[0] == "Monday" && ValidDays(En)[6] == "Sunday"
    ensures ValidDays(Es)[0] == "Lunes" && ValidDays(Es)[6] == "Domingo"
  {
  }

  /** Validation is an exact match: the accented Spanish names are valid and
      their unaccented spellings are not; names of the other language are not. */
  lemma ExactMatch()
    ensures IsValidDay(Es, "Miércoles") && !IsValidDay(Es, "Miercoles")
    ensures IsValidDay(Es, "Sábado") && !IsValidDay(Es, "Sabado")
    ensures !IsValidDay(Es, "lunes") && !IsValidDay(Es, "Monday")
    ensures !IsValidDay(En, "monday") && !IsValidDay(En, "Lunes")
    ensures !IsValidDay(En, "") && !IsValidDay(Es, "")
  {
  }
}
