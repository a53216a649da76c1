/** The dynamically typed values the descriptors accept and return, the
    exceptions they raise, and calendar dates. */
module Values {

  datatype Option<+T> = None | Some(value: T)

  /** The exceptions raised by a descriptor or by the facade. */
  datatype Error =
    | TypeError                  // wrong Python type for the field
    | ValueError                 // URL / email pattern failure, unparsable date or float text
    | ListLengthError            // AVMListLengthError
    | NotInControlledVocabulary  // AVMItemNotInControlledVocabularyError
    | KeyError                   // field name not in the registry

  datatype Result<+T> = Ok(value: T) | Err(error: Error)

  predicate IsLeapYear(y: int) {
    y % 4 == 0 && (y % 100 != 0 || y % 400 == 0)
  }

  function DaysInMonth(y: int, m: int): int
    requires 1 <= m <= 12
  {
    if m == 2 then (if IsLeapYear(y) then 29 else 28)
    else if m == 4 || m == 6 || m == 9 || m == 11 then 30
    else 31
  }

  /** The range `datetime.date` enforces on construction. */
  predicate ValidDate(year: int, month: int, day: int) {
    1 <= year <= 9999 && 1 <= month <= 12 && 1 <= day <= DaysInMonth(year, month)
  }

  datatype Triple = Triple(year: int, month: int, day: int)

  /** A `datetime.date`: Python cannot build an invalid one, so neither can we. */
  type Date = t: Triple | ValidDate(t.year, t.month, t.day) witness Triple(1, 1, 1)

  /** A Python 2 value as the descriptors see it. A float is opaque and
      identified by the text `str()` gives for it. */
  datatype Value =
    | Null                      // None
    | Str(s: string)            // byte string (`str`)
    | Unicode(u: string)        // `unicode` object
    | Int(i: int)
    | Float(text: string)
    | List(items: seq<Value>)
    | Set(members: set<Value>)
    | DateValue(date: Date)
}
