# Hotel booking dashboard: the data-derivation pipeline

This project models the logic of the hotel-booking dashboard's `Dashboard`
component. The component holds the loaded booking rows and the date range
picked in a calendar. On each render it derives what the charts show:

- the rows kept by the date filter;
- a time series with one point per kept row, whose value is that row's
  adults + children + babies;
- visitor totals per country, built by a reduce into a plain object, and the
  bars of the bar chart together with its category list;
- the adults and children sparklines.

Modules, one file each:

- `Dates` (`dates.dfy`): a calendar day and its chronological order.
- `Booking` (`booking.dfy`): a booking row, the date range and a row's
  visitor count.
- `PropertyKeys` (`property_keys.dfy`): the order in which an ordinary
  JavaScript object lists its own keys (section 10.1.11.1 of ECMA-262,
  OrdinaryOwnPropertyKeys). It also holds `NumberRecord`, the reduce's
  accumulator object, which the reduce updates in place.
- `Aggregation` (`aggregation.dfy`): the filter, the four views and the
  properties that relate them.
- `DashboardState` (`dashboard.dfy`): the component's state (a class whose
  setters replace `data` and `dateRange`) and one render.

Where the code does something other than one might expect, the model
follows the code:

- A range with only one end set turns the filter off too (`!dateRange[0] ||
  !dateRange[1]`): only a range with both ends set filters.
- Counts are not given a default of zero when they are malformed. The code
  calls `parseInt` with no default. The model takes counts that are already
  integers.
- The per-country totals do not always list their keys in first-seen order. A
  JavaScript object lists keys that are array indices (such as `"12"`) first,
  in ascending numeric order. The model keeps this rule and proves first-seen
  order for every other key. It also proves that when no country is an
  array index, all keys come in first-seen order.
- A row whose date text names no date gets an Invalid Date, whose timestamp is
  NaN. Every comparison with NaN is false, so such a row is dropped whenever
  the filter is on. The model keeps it as `arrival == None`.

## Model

| member | source | states |
|---|---|---|
| `Dates.OnOrBeforeIsTotalOrder` | src/components/Dashboard.tsx:24-31 | the day comparison the filter uses is reflexive, antisymmetric, transitive and total, like the timestamp order it stands for |
| `Aggregation.FilterUnboundedIsIdentity` | src/components/Dashboard.tsx:22 | with either end of the range unset, the filter returns the data unchanged and in order |
| `Aggregation.KeptPositionsAscending` | src/components/Dashboard.tsx:27-32 | the positions the filter keeps are strictly increasing, and a position is among them exactly when its row passes the test |
| `Aggregation.FilterAtKeptPositions` | src/components/Dashboard.tsx:21-33 | the filtered rows are the rows at those positions, in order, so the result is an order-preserving subsequence of the data |
| `Aggregation.FilterKeepsExactlyRowsInRange` | src/components/Dashboard.tsx:27-32 | a row is in the result if and only if it is in the data and either the range is open or its date lies between start and end (a row with no valid date never passes a set range) |
| `Aggregation.FilterKeepsRowsOnRangeEnds` | src/components/Dashboard.tsx:31 | both ends are inclusive: rows dated exactly on the start day or the end day are kept |
| `Aggregation.TimeSeriesPointwise` | src/components/Dashboard.tsx:38-41 | the series has one point per kept row, and the i-th point is (date of row i, adults + children + babies of row i), so rows on the same date are not merged |
| `Aggregation.SparklinesPointwise` | src/components/Dashboard.tsx:52-53 | both sparklines have the length of the kept rows; the i-th values are the adults and the children of row i |
| `Aggregation.TallyIsPerCountrySum` | src/components/Dashboard.tsx:44-47 | the totals have a key for each country of the kept rows and no other key, and each total is the visitor sum over that country's rows, counted from 0 |
| `Aggregation.VisitorsByCountry` | src/components/Dashboard.tsx:44-47 | the reduce, run in place on a fresh object that stays well formed throughout, ends with the per-country totals and with the object's key order given by the property-key rules; its keys are distinct, array indices come first in ascending order, and they are exactly the keys that carry a total |
| `Aggregation.ColumnChartFollowsKeys` | src/components/Dashboard.tsx:49 | the bar chart data has one bar per key, and the i-th bar is (i-th key, its total), so its labels equal `Object.keys(visitorsByCountry)` |
| `Aggregation.BarsSumToTotal` | src/components/Dashboard.tsx:44-49 | the bars add up to the sum of all kept rows' visitors |
| `Aggregation.ChartsAgreeOnTotal` | src/components/Dashboard.tsx:38-49 | the bars of the country chart and the points of the time series count the same total of visitors |
| `PropertyKeys.AddKeyProperties` | src/components/Dashboard.tsx:45 | assigning to an existing key leaves the key order alone; a new key is added exactly once; the order stays one an object can have; a new key that is not an array index goes last |
| `PropertyKeys.InsertIndexKeyKeepsOrder` | src/components/Dashboard.tsx:45 | a new array-index key is placed so that indices stay first, ascending and distinct |
| `PropertyKeys.OwnKeysAfterProperties` | src/components/Dashboard.tsx:44-47 | after the reduce the keys are distinct, they are exactly the assigned countries, and array indices come first in ascending order |
| `PropertyKeys.NonIndexKeysInFirstSeenOrder` | src/components/Dashboard.tsx:44-49 | keys that are not array indices (such as "PRT") are listed in the order of their first occurrence among the kept rows; later repeats do not move them |
| `PropertyKeys.KeysInFirstSeenOrder` | src/components/Dashboard.tsx:44-49 | when no country is an array index, every key is listed in first-seen order |
| `PropertyKeys.NumberRecord.constructor` | src/components/Dashboard.tsx:47 | the accumulator `{}` starts with no keys and no values |
| `PropertyKeys.NumberRecord.Set` | src/components/Dashboard.tsx:45 | `acc[country] = …` stores the value under the key, updates the key order by the property-key rules and keeps the object well formed |
| `DashboardState.DeriveViews` | src/components/Dashboard.tsx:35-53 | the time series and both sparklines match the kept rows one for one; the i-th bar is (i-th category, the visitor sum of that country's kept rows); the categories are distinct, are exactly the countries of the kept rows, and are listed in own-key order: array indices first and ascending, every other country in the order it first occurs among the kept rows; the bars add up to the time-series total |
| `DashboardState.ViewsOfNoData` | src/components/Dashboard.tsx:9 | with no data loaded every view is empty, whatever the range |
| `DashboardState.Dashboard.constructor` | src/components/Dashboard.tsx:9-10 | the component starts with no rows and an unset range |
| `DashboardState.Dashboard.SetData` | src/components/Dashboard.tsx:13-19 | loading replaces the rows and leaves the range alone |
| `DashboardState.Dashboard.SetDateRange` | src/components/Dashboard.tsx:59-62 | a picker change sets both ends (an absent end stays unset) and leaves the rows alone |
| `DashboardState.Dashboard.Render` | src/components/Dashboard.tsx:35-53 | one render, with the reduce run as a loop on a mutable object, yields exactly the views of `DeriveViews` for the current rows and range |

## Left out

- Fetching and parsing the CSV file (`fetchHotelData` in src/dataService.ts): network I/O and a CSV library that is not part of this model. `SetData` takes the parsed rows as a parameter.
- The `useEffect` load (src/components/Dashboard.tsx:13-19): the asynchronous wait is not modelled. The model keeps only "the rows start empty and are then replaced".
- Rendering, the `DatePicker` and the `Chart` widgets (src/components/Dashboard.tsx:55-113, src/App.tsx): foreign UI libraries with no logic of their own.
- Building a `Date` from the `"year-month-day"` text and `getTime()`: this depends on the browser and the time zone. A row carries its resolved day, or `None` for an Invalid Date, and days are compared at whole-day granularity.
- `Date` accepts any (year, month, day) triple. Arrival dates and range ends are taken to be the calendar day the browser resolved (a rolled-over "2017-February-30" is stored as its day in March). The lexicographic order is the timestamp order only for such canonical days, and the model does not check that a triple is one.
- `parseInt` on counts that are not numbers, which gives NaN, and the `|| 0` that turns a NaN running total back into 0: counts are modelled as integers that are already parsed.
- Country names that are also members of `Object.prototype` (`"__proto__"`, `"toString"`, …). In the code these read the inherited member. The model treats them like any other country.
- JavaScript numbers are doubles. Sums are modelled as unbounded integers, with no rounding past 2^53.
