/** Calendar days as the dashboard compares them. */
module Dates {

  /** A calendar day: the arrival date a booking row names, or an end of the
      range chosen in the date picker. It is meant to hold the canonical day
      the browser resolved (month 1 to 12, a day that exists in that month). */
  datatype Date = Date(year: int, month: int, day: int)

  /** `a` falls on or before `b`: the order of the two days' timestamps
      (`getTime()`), which at whole-day granularity is the lexicographic
      order on (year, month, day). */
  predicate OnOrBefore(a: Date, b: Date)
  {
    || a.year < b.year
    || (a.year == b.year && a.month < b.month)
    || (a.year == b.year && a.month == b.month && a.day <= b.day)
  }

  /** The comparison the filter relies on is a total order, as the numeric
      order of timestamps is. */
  lemma OnOrBeforeIsTotalOrder()
    ensures forall a :: OnOrBefore(a, a)
    ensures forall a, b :: OnOrBefore(a, b) && OnOrBefore(b, a) ==> a == b
    ensures forall a, b, c :: OnOrBefore(a, b) && OnOrBefore(b, c) ==> OnOrBefore(a, c)
    ensures forall a, b :: OnOrBefore(a, b) || OnOrBefore(b, a)
  {
  }
}
