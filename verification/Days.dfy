/** Calendar days as proleptic Gregorian ordinals, and the two kinds of study week. */
module Days {

  datatype Parity = Numerator | Denominator

  /** Monday is 0, Sunday is 6. */
  function Weekday(day: int): (w: int)
    ensures 0 <= w < 7
  {
    (day + 6) % 7
  }

  /** The first ordinal is a Monday, and weekdays follow each other round the week. */
  lemma WeekdaysFollow(day: int)
    ensures Weekday(1) == 0 && Weekday(day + 1) == if Weekday(day) == 6 then 0 else Weekday(day) + 1
  {
  }

  predicate IsMonday(day: int) {
    Weekday(day) == 0
  }

  function MondayOf(day: int): (m: int)
    ensures IsMonday(m) && m <= day <= m + 6
  {
    day - Weekday(day)
  }
}
