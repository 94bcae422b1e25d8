/** The error raised for day operations: a kind tag, the offending day name
    and a message in English or Spanish. Values are built only through the
    three factories, each of which defaults its locale to Spanish. */
module DayErrors {
  import opened DayTable

  /** The `type` tag: `'invalid' | 'not_found' | 'conflict'`. */
  datatype ErrorType = Invalid | NotFound | Conflict

  datatype DayError = DayError(kind: ErrorType, day: string, message: string)
  {
    /** The `name` every DayError carries. */
    const name: string := "DayError"

    /** A name that is not canonical for the language. */
    static function Invalid(day: string, locale: Lang := Es): (e: DayError)
      ensures e.kind == ErrorType.Invalid && e.day == day && e.name == "DayError"
      ensures e.message == Message(ErrorType.Invalid, day, locale)
    {
      var msg := if locale == En then "Invalid day provided: \"" + day + "\"."
                 else "Día inválido: \"" + day + "\".";
      DayError(ErrorType.Invalid, day, msg)
    }

    /** A canonical name that the current week does not hold. */
    static function NotFound(day: string, locale: Lang := Es): (e: DayError)
      ensures e.kind == ErrorType.NotFound && e.day == day && e.name == "DayError"
      ensures e.message == Message(ErrorType.NotFound, day, locale)
    {
      var msg := if locale == En then "Day not found: \"" + day + "\"."
                 else "No se encontró el día: \"" + day + "\".";
      DayError(ErrorType.NotFound, day, msg)
    }

    /** Conflicting data for a day (constructible, raised by no operation). */
    static function Conflict(day: string, locale: Lang := Es): (e: DayError)
      ensures e.kind == ErrorType.Conflict && e.day == day && e.name == "DayError"
      ensures e.message == Message(ErrorType.Conflict, day, locale)
    {
      var msg := if locale == En then "Conflicting data for day \"" + day + "\"."
                 else "Datos en conflicto para el día \"" + day + "\".";
      DayError(ErrorType.Conflict, day, msg)
    }
  }

  /** The fixed text in front of the quoted day name, per kind and locale;
      every locale other than English gets the Spanish text. */
  function Lead(kind: ErrorType, locale: Lang): string {
    match kind
    case Invalid => if locale == En then "Invalid day provided: " else "Día inválido: "
    case NotFound => if locale == En then "Day not found: " else "No se encontró el día: "
    case Conflict => if locale == En then "Conflicting data for day " else "Datos en conflicto para el día "
  }

  /** Every message is its lead, then the day name between double quotes, then a full stop. */
  function Message(kind: ErrorType, day: string, locale: Lang): (msg: string)
    ensures |msg| == |Lead(kind, locale)| + |day| + 3
    ensures msg[|Lead(kind, locale)|] == '"' && msg[|msg| - 2..] == "\"."
    ensures msg[|Lead(kind, locale)| + 1..|msg| - 2] == day
  {
    Lead(kind, locale) + "\"" + day + "\"."
  }

  /** The day can be read back out of the message: two messages of the same
      kind and locale are equal exactly when their day names are. */
  lemma MessageDeterminesDay(kind: ErrorType, locale: Lang, d1: string, d2: string)
    ensures Message(kind, d1, locale) == Message(kind, d2, locale) <==> d1 == d2
  {
  }

  /** The English and Spanish messages for the same error differ. */
  lemma LocalesDiffer(kind: ErrorType, day: string)
    ensures Message(kind, day, En) != Message(kind, day, Es)
  {
  }

  /** Errors of different kinds are never equal, whatever their day or locale. */
  lemma FactoriesDistinct(d1: string, d2: string, l1: Lang, l2: Lang)
    ensures DayError.Invalid(d1, l1) != DayError.NotFound(d2, l2)
    ensures DayError.Invalid(d1, l1) != DayError.Conflict(d2, l2)
    ensures DayError.NotFound(d1, l1) != DayError.Conflict(d2, l2)
  {
  }
}
