/** The Dashboard component: its two pieces of state (the loaded rows and
    the picked date range) and the views it hands to the charts on each
    render. */
module DashboardState {
  import opened Dates
  import opened Booking
  import opened PropertyKeys
  import opened Aggregation

  /** What the charts receive: the line chart's points, the bar chart's
      categories and bars, and the two sparklines. */
  datatype Views = Views(
    timeSeries: seq<Point>,
    categories: seq<string>,
    columnChart: seq<Bar>,
    adults: seq<int>,
    children: seq<int>)

  /** The views the component body derives from `data` and `range`. */
  function DeriveViews(data: seq<Row>, range: DateRange): (v: Views)
    ensures var kept := FilterByDate(data, range);
      && |v.timeSeries| == |v.adults| == |v.children| == |kept|
      && (forall i :: 0 <= i < |kept| ==>
            && v.timeSeries[i] == Point(kept[i].arrival, Visitors(kept[i]))
            && v.adults[i] == kept[i].adults
            && v.children[i] == kept[i].children)
    ensures |v.columnChart| == |v.categories|
    ensures forall i :: 0 <= i < |v.categories| ==>
      v.columnChart[i] == Bar(v.categories[i], CountrySum(FilterByDate(data, range), v.categories[i]))
    ensures Distinct(v.categories)
    ensures forall c :: c in v.categories <==> exists r :: r in data && Kept(r, range) && r.country == c
    ensures IndicesFirstAscending(v.categories)
    ensures InFirstSeenOrder(NonIndexKeys(v.categories), Countries(FilterByDate(data, range)))
    ensures SumBars(v.columnChart) == SumPoints(v.timeSeries)
  {
    var kept := FilterByDate(data, range);
    TimeSeriesPointwise(kept);
    SparklinesPointwise(kept);
    TallyIsPerCountrySum(kept);
    OwnKeysAfterProperties(Countries(kept));
    ColumnChartFollowsKeys(Tally(kept), OwnKeysAfter(Countries(kept)));
    ChartsAgreeOnTotal(kept);
    FilterKeepsExactlyRowsInRange(data, range);
    CountriesOfRows(kept);
    NonIndexKeysInFirstSeenOrder(Countries(kept));
    Views(TimeSeries(kept), OwnKeysAfter(Countries(kept)), CountryBars(kept), AdultsCount(kept), ChildrenCount(kept))
  }

  lemma CountriesOfRows(rows: seq<Row>)
    ensures forall c :: c in Countries(rows) <==> exists r :: r in rows && r.country == c
  {
    forall c | c in Countries(rows)
      ensures exists r :: r in rows && r.country == c
    {
      var i :| 0 <= i < |rows| && Countries(rows)[i] == c;
      assert rows[i] in rows;
    }
    forall c | exists r :: r in rows && r.country == c
      ensures c in Countries(rows)
    {
      var r :| r in rows && r.country == c;
      var i :| 0 <= i < |rows| && rows[i] == r;
      assert Countries(rows)[i] == c;
    }
  }

  /** Before the data has loaded every view is empty. */
  lemma ViewsOfNoData(range: DateRange)
    ensures DeriveViews([], range) == Views([], [], [], [], [])
  {
    assert FilterByDate([], range) == [];
  }

  /** The component's state. */
  class Dashboard {
    var data: seq<Row>
    var dateRange: DateRange

    /** `useState([])` and `useState([undefined, undefined])`. */
    constructor ()
      ensures data == [] && dateRange == DateRange(None, None)
    {
      data := [];
      dateRange := DateRange(None, None);
    }

    /** `setData(hotelData)` once the rows have been fetched and parsed. */
    method SetData(rows: seq<Row>)
      modifies this
      ensures data == rows && dateRange == old(dateRange)
    {
      data := rows;
    }

    /** The picker's `onChange`: `setDateRange([start ?? undefined, end ?? undefined])`. */
    method SetDateRange(start: Option<Date>, end: Option<Date>)
      modifies this
      ensures dateRange == DateRange(start, end) && data == old(data)
    {
      dateRange := DateRange(start, end);
    }

    /** One render: filter, then derive every view from the kept rows. */
    method Render() returns (v: Views)
      ensures v == DeriveViews(data, dateRange)
    {
      var filteredData := FilterByDate(data, dateRange);
      var totals, keys := VisitorsByCountry(filteredData);
      v := Views(
        TimeSeries(filteredData),
        keys,
        ColumnChartData(totals, keys),
        AdultsCount(filteredData),
        ChildrenCount(filteredData));
    }
  }
}
