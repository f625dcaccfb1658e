/** The records the dashboard works on. */
module Booking {
  import opened Dates

  datatype Option<T> = None | Some(value: T)

  /** One row of the hotel-bookings table, with its fields already read.
      `arrival` is the date built from arrival_date_year, arrival_date_month
      and arrival_date_day_of_month; it is None when that text names no date,
      where the browser produces an Invalid Date whose timestamp is NaN. */
  datatype Row = Row(arrival: Option<Date>, country: string, adults: int, children: int, babies: int)

  /** The picker's selection `[start, end]`; either end may be unset. */
  datatype DateRange = DateRange(start: Option<Date>, end: Option<Date>)

  /** The visitors a row stands for: adults + children + babies. */
  function Visitors(r: Row): int
  {
    r.adults + r.children + r.babies
  }
}
