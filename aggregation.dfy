/** The dashboard's derived data: the date filter and the four views built
    from the rows it keeps (time series, visitors per country with its bar
    chart, and the adults and children sparklines). */
module Aggregation {
  import opened Dates
  import opened Booking
  import opened PropertyKeys

  /** A point of the time series: the row's arrival date and its visitors. */
  datatype Point = Point(x: Option<Date>, y: int)

  /** A bar of the per-country chart. */
  datatype Bar = Bar(x: string, y: int)

  // ---------------------------------------------------------------- filter

  /** Both ends of the range are set; otherwise the filter lets every row by. */
  predicate Bounded(range: DateRange)
  {
    range.start.Some? && range.end.Some?
  }

  /** The test of the filter: `entryDate >= startDate && entryDate <= endDate`.
      A row without a valid date (NaN timestamp) fails both comparisons. */
  predicate WithinRange(r: Row, start: Date, end: Date)
  {
    r.arrival.Some? && OnOrBefore(start, r.arrival.value) && OnOrBefore(r.arrival.value, end)
  }

  /** Whether the date filter keeps row `r` under `range`. */
  predicate Kept(r: Row, range: DateRange)
  {
    !Bounded(range) || WithinRange(r, range.start.value, range.end.value)
  }

  /** `data.filter(...)` with the range's test. */
  function Select(data: seq<Row>, range: DateRange): seq<Row>
  {
    if data == [] then []
    else
      var last := data[|data| - 1];
      Select(data[..|data| - 1], range) + (if Kept(last, range) then [last] else [])
  }

  /** `filterDataByDate`: all of `data` when either end of the range is unset,
      otherwise the rows dated from start to end, both included. */
  function FilterByDate(data: seq<Row>, range: DateRange): seq<Row>
  {
    if !Bounded(range) then data else Select(data, range)
  }

  /** With either end of the range unset, the filter hands back the data as
      it is. */
  lemma FilterUnboundedIsIdentity(data: seq<Row>, range: DateRange)
    requires !Bounded(range)
    ensures FilterByDate(data, range) == data
  {
  }

  lemma FilterAppend(data: seq<Row>, r: Row, range: DateRange)
    ensures FilterByDate(data + [r], range) == FilterByDate(data, range) + (if Kept(r, range) then [r] else [])
  {
  }

  /** The positions of the rows the filter keeps, in ascending order. */
  ghost function KeptPositions(data: seq<Row>, range: DateRange): seq<nat>
  {
    if data == [] then []
    else
      var n := |data| - 1;
      KeptPositions(data[..n], range) + (if Kept(data[n], range) then [n] else [])
  }

  /** The kept positions are in range, strictly increasing, and are exactly
      the positions of the rows that pass the filter's test. */
  lemma {:induction false} KeptPositionsAscending(data: seq<Row>, range: DateRange)
    ensures var pos := KeptPositions(data, range);
      && (forall k :: 0 <= k < |pos| ==> pos[k] < |data|)
      && (forall k, l :: 0 <= k < l < |pos| ==> pos[k] < pos[l])
      && (forall i :: 0 <= i < |data| ==> (Kept(data[i], range) <==> i in pos))
    decreases |data|
  {
    if data != [] {
      var n := |data| - 1;
      var prior := data[..n];
      KeptPositionsAscending(prior, range);
      var pos, pos0 := KeptPositions(data, range), KeptPositions(prior, range);
      assert pos == pos0 + (if Kept(data[n], range) then [n] else []);
      forall i | 0 <= i < n
        ensures Kept(data[i], range) <==> i in pos
      {
        assert data[i] == prior[i];
      }
    }
  }

  /** The filter's result lists the rows at the kept positions, in order:
      with the lemma above, it is the subsequence of `data` made of exactly
      the rows that pass, in their original order. */
  lemma {:induction false} FilterAtKeptPositions(data: seq<Row>, range: DateRange)
    ensures var kept, pos := FilterByDate(data, range), KeptPositions(data, range);
      && |pos| == |kept|
      && (forall k :: 0 <= k < |pos| ==> pos[k] < |data| && kept[k] == data[pos[k]])
    decreases |data|
  {
    if data != [] {
      var n := |data| - 1;
      var prior, last := data[..n], data[n];
      assert data == prior + [last];
      FilterAtKeptPositions(prior, range);
      FilterAppend(prior, last, range);
      var kept, pos := FilterByDate(data, range), KeptPositions(data, range);
      var kept0, pos0 := FilterByDate(prior, range), KeptPositions(prior, range);
      var more := Kept(last, range);
      assert pos == pos0 + (if more then [n] else []);
      assert kept == kept0 + (if more then [last] else []);
      forall k | 0 <= k < |pos0|
        ensures pos[k] < |data| && kept[k] == data[pos[k]]
      {
        assert pos[k] == pos0[k] && kept[k] == kept0[k];
      }
    }
  }

  /** A row is in the filter's result exactly when it is in the data and
      dated within the range (the range ends included), or when either end
      of the range is unset. */
  lemma FilterKeepsExactlyRowsInRange(data: seq<Row>, range: DateRange)
    ensures forall r :: r in FilterByDate(data, range) <==> r in data && Kept(r, range)
  {
    KeptPositionsAscending(data, range);
    FilterAtKeptPositions(data, range);
    var kept, pos := FilterByDate(data, range), KeptPositions(data, range);
    forall r | r in data && Kept(r, range)
      ensures r in kept
    {
      var i :| 0 <= i < |data| && data[i] == r;
      var k :| 0 <= k < |pos| && pos[k] == i;
      assert kept[k] == r;
    }
  }

  /** Both ends are inclusive: with start on or before end, a row dated
      exactly on the start day or on the end day is kept. */
  lemma FilterKeepsRowsOnRangeEnds(data: seq<Row>, start: Date, end: Date)
    requires OnOrBefore(start, end)
    ensures forall r :: r in data && (r.arrival == Some(start) || r.arrival == Some(end)) ==>
      r in FilterByDate(data, DateRange(Some(start), Some(end)))
  {
    FilterKeepsExactlyRowsInRange(data, DateRange(Some(start), Some(end)));
  }

  // ----------------------------------------------------------- time series

  /** `timeSeriesData`: one point per kept row, never merged by date. */
  function TimeSeries(kept: seq<Row>): seq<Point>
  {
    if kept == [] then []
    else [Point(kept[0].arrival, Visitors(kept[0]))] + TimeSeries(kept[1..])
  }

  /** The i-th point is the i-th kept row's date and its visitor count. */
  lemma {:induction false} TimeSeriesPointwise(kept: seq<Row>)
    ensures |TimeSeries(kept)| == |kept|
    ensures forall i :: 0 <= i < |kept| ==>
      TimeSeries(kept)[i] == Point(kept[i].arrival, Visitors(kept[i]))
    decreases |kept|
  {
    if kept != [] {
      TimeSeriesPointwise(kept[1..]);
    }
  }

  // ------------------------------------------------------------ sparklines

  /** `adultsCount`. */
  function AdultsCount(kept: seq<Row>): seq<int>
  {
    if kept == [] then [] else [kept[0].adults] + AdultsCount(kept[1..])
  }

  /** `childrenCount`. */
  function ChildrenCount(kept: seq<Row>): seq<int>
  {
    if kept == [] then [] else [kept[0].children] + ChildrenCount(kept[1..])
  }

  /** Both sparklines run along the kept rows: same length, i-th value from
      the i-th row. */
  lemma {:induction false} SparklinesPointwise(kept: seq<Row>)
    ensures |AdultsCount(kept)| == |ChildrenCount(kept)| == |kept|
    ensures forall i :: 0 <= i < |kept| ==>
      AdultsCount(kept)[i] == kept[i].adults && ChildrenCount(kept)[i] == kept[i].children
    decreases |kept|
  {
    if kept != [] {
      SparklinesPointwise(kept[1..]);
    }
  }

  // --------------------------------------------------- visitors by country

  /** The country of each row, in row order: the keys the reduce assigns to. */
  function Countries(rows: seq<Row>): seq<string>
  {
    seq(|rows|, i requires 0 <= i < |rows| => rows[i].country)
  }

  /** One reduce step: `acc[c] = (acc[c] || 0) + visitors`. */
  function Accumulate(acc: map<string, int>, r: Row): map<string, int>
  {
    acc[r.country := (if r.country in acc then acc[r.country] else 0) + Visitors(r)]
  }

  lemma AccumulateCases(acc: map<string, int>, r: Row)
    ensures r.country in acc ==> Accumulate(acc, r) == acc[r.country := acc[r.country] + Visitors(r)]
    ensures r.country !in acc ==> Accumulate(acc, r) == acc[r.country := Visitors(r)]
  {
  }

  /** The accumulator's contents after the reduce has taken `rows`. */
  function Tally(rows: seq<Row>): map<string, int>
  {
    if rows == [] then map[] else Accumulate(Tally(rows[..|rows| - 1]), rows[|rows| - 1])
  }

  /** Sum of the visitors of the rows from country `c`. */
  function CountrySum(rows: seq<Row>, c: string): int
  {
    if rows == [] then 0
    else (if rows[0].country == c then Visitors(rows[0]) else 0) + CountrySum(rows[1..], c)
  }

  lemma {:induction false} CountrySumAppend(rows: seq<Row>, r: Row, c: string)
    ensures CountrySum(rows + [r], c) == CountrySum(rows, c) + (if r.country == c then Visitors(r) else 0)
    decreases |rows|
  {
    if rows != [] {
      assert (rows + [r])[1..] == rows[1..] + [r];
      CountrySumAppend(rows[1..], r, c);
    }
  }

  /** The reduce maps each country of the kept rows, and nothing else, to the
      sum of the visitors of that country's rows. */
  lemma {:induction false} TallyIsPerCountrySum(rows: seq<Row>)
    ensures forall c :: c in Tally(rows) <==> c in Countries(rows)
    ensures forall c :: c in Tally(rows) ==> Tally(rows)[c] == CountrySum(rows, c)
    decreases |rows|
  {
    if rows != [] {
      var prior, last := rows[..|rows| - 1], rows[|rows| - 1];
      assert rows == prior + [last];
      TallyIsPerCountrySum(prior);
      assert Countries(rows) == Countries(prior) + [last.country];
      assert forall c :: c in Countries(rows) <==> c in Countries(prior) || c == last.country;
      forall c | c in Tally(rows)
        ensures Tally(rows)[c] == CountrySum(rows, c)
      {
        CountrySumAppend(prior, last, c);
        if c != last.country {
          assert c in Countries(prior) by {
            assert Countries(rows) == Countries(prior) + [last.country];
          }
        } else if c !in Tally(prior) {
          CountrySumAbsent(prior, c);
        }
      }
    }
  }

  lemma {:induction false} CountrySumAbsent(rows: seq<Row>, c: string)
    requires c !in Countries(rows)
    ensures CountrySum(rows, c) == 0
    decreases |rows|
  {
    if rows != [] {
      assert rows[0].country == Countries(rows)[0];
      assert forall i :: 0 <= i < |rows| - 1 ==> Countries(rows[1..])[i] == Countries(rows)[i + 1];
      CountrySumAbsent(rows[1..], c);
    }
  }

  /** One more row: the reduce takes one more step. */
  lemma TallyStep(rows: seq<Row>, r: Row)
    ensures Tally(rows + [r]) == Accumulate(Tally(rows), r)
    ensures OwnKeysAfter(Countries(rows + [r])) == AddKey(OwnKeysAfter(Countries(rows)), r.country)
  {
    assert (rows + [r])[..|rows|] == rows;
    assert Countries(rows + [r]) == Countries(rows) + [r.country];
  }

  /** The same step, stated for the prefixes of `rows` a loop walks through. */
  lemma TallyPrefixStep(rows: seq<Row>, i: nat)
    requires i < |rows|
    ensures Tally(rows[..i + 1]) == Accumulate(Tally(rows[..i]), rows[i])
    ensures OwnKeysAfter(Countries(rows[..i + 1])) == AddKey(OwnKeysAfter(Countries(rows[..i])), rows[i].country)
  {
    assert rows[..i + 1] == rows[..i] + [rows[i]];
    TallyStep(rows[..i], rows[i]);
  }

  /** The `filteredData.reduce(...)` into `visitorsByCountry`: a fresh `{}`
      updated in place row by row. Returns the object's key-value pairs and
      its own-key order (`Object.keys(visitorsByCountry)`). */
  method VisitorsByCountry(kept: seq<Row>) returns (totals: map<string, int>, keys: seq<string>)
    ensures totals == Tally(kept)
    ensures keys == OwnKeysAfter(Countries(kept))
    ensures OwnKeyOrder(keys) && forall k :: k in keys <==> k in totals
  {
    var acc := new NumberRecord();
    var i := 0;
    while i < |kept|
      invariant 0 <= i <= |kept|
      invariant acc.values == Tally(kept[..i])
      invariant acc.keys == OwnKeysAfter(Countries(kept[..i]))
      invariant acc.Valid()
    {
      var entry := kept[i];
      var count := acc.GetOrZero(entry.country) + Visitors(entry);
      assert acc.values[entry.country := count] == Accumulate(acc.values, entry);
      TallyPrefixStep(kept, i);
      acc.Set(entry.country, count);
      i := i + 1;
    }
    assert kept[..i] == kept;
    totals, keys := acc.values, acc.keys;
  }

  /** `Object.entries(visitorsByCountry).map(([country, count]) => ({ x: country, y: count }))`. */
  function ColumnChartData(totals: map<string, int>, keys: seq<string>): seq<Bar>
    requires forall k :: k in keys ==> k in totals
  {
    if keys == [] then []
    else [Bar(keys[0], totals[keys[0]])] + ColumnChartData(totals, keys[1..])
  }

  /** The per-country bars drawn for `rows`: `columnChartData` over the
      object the reduce builds. */
  function CountryBars(rows: seq<Row>): seq<Bar>
  {
    TallyIsPerCountrySum(rows);
    OwnKeysAfterProperties(Countries(rows));
    ColumnChartData(Tally(rows), OwnKeysAfter(Countries(rows)))
  }

  /** The i-th bar is the i-th key with its total, so the bars' labels are
      exactly the category list `Object.keys(visitorsByCountry)`. */
  lemma {:induction false} ColumnChartFollowsKeys(totals: map<string, int>, keys: seq<string>)
    requires forall k :: k in keys ==> k in totals
    ensures |ColumnChartData(totals, keys)| == |keys|
    ensures forall i :: 0 <= i < |keys| ==>
      ColumnChartData(totals, keys)[i] == Bar(keys[i], totals[keys[i]])
    decreases |keys|
  {
    if keys != [] {
      ColumnChartFollowsKeys(totals, keys[1..]);
    }
  }

  // ------------------------------------------------------------ totals agree

  /** Sum of the visitors of all rows. */
  function TotalVisitors(rows: seq<Row>): int
  {
    if rows == [] then 0 else TotalVisitors(rows[..|rows| - 1]) + Visitors(rows[|rows| - 1])
  }

  function SumPoints(ps: seq<Point>): int
  {
    if ps == [] then 0 else ps[0].y + SumPoints(ps[1..])
  }

  function SumBars(bs: seq<Bar>): int
  {
    if bs == [] then 0 else bs[0].y + SumBars(bs[1..])
  }

  lemma {:induction false} TimeSeriesSum(rows: seq<Row>)
    ensures SumPoints(TimeSeries(rows)) == TotalVisitors(rows)
    decreases |rows|
  {
    if rows != [] {
      var prior, last := rows[..|rows| - 1], rows[|rows| - 1];
      TimeSeriesAppend(prior, last);
      assert rows == prior + [last];
      TimeSeriesSum(prior);
      SumPointsAppend(TimeSeries(prior), Point(last.arrival, Visitors(last)));
    }
  }

  lemma {:induction false} TimeSeriesAppend(rows: seq<Row>, r: Row)
    ensures TimeSeries(rows + [r]) == TimeSeries(rows) + [Point(r.arrival, Visitors(r))]
    decreases |rows|
  {
    if rows != [] {
      assert (rows + [r])[1..] == rows[1..] + [r];
      TimeSeriesAppend(rows[1..], r);
    }
  }

  lemma {:induction false} SumPointsAppend(ps: seq<Point>, p: Point)
    ensures SumPoints(ps + [p]) == SumPoints(ps) + p.y
    decreases |ps|
  {
    if ps != [] {
      assert (ps + [p])[1..] == ps[1..] + [p];
      SumPointsAppend(ps[1..], p);
    }
  }

  lemma {:induction false} SumBarsUpdate(totals: map<string, int>, keys: seq<string>, c: string, d: int)
    requires forall k :: k in keys ==> k in totals
    requires Distinct(keys)
    ensures c in keys ==>
      SumBars(ColumnChartData(totals[c := totals[c] + d], keys)) == SumBars(ColumnChartData(totals, keys)) + d
    ensures c !in keys ==>
      SumBars(ColumnChartData(totals[c := d], keys)) == SumBars(ColumnChartData(totals, keys))
    decreases |keys|
  {
    if keys != [] {
      assert Distinct(keys[1..]);
      if c == keys[0] {
        assert c !in keys[1..];
        SumBarsUpdate(totals, keys[1..], c, totals[c] + d);
      } else {
        SumBarsUpdate(totals, keys[1..], c, d);
      }
    }
  }

  lemma {:induction false} SumBarsInsert(totals: map<string, int>, keys: seq<string>, k: string)
    requires IsArrayIndex(k) && k in totals
    requires forall x :: x in keys ==> x in totals
    ensures SumBars(ColumnChartData(totals, InsertIndexKey(keys, k))) == SumBars(ColumnChartData(totals, keys)) + totals[k]
    decreases |keys|
  {
    if !(keys == [] || !IsArrayIndex(keys[0]) || DigitsValue(k) <= DigitsValue(keys[0])) {
      SumBarsInsert(totals, keys[1..], k);
    }
  }

  lemma {:induction false} SumBarsAppend(totals: map<string, int>, keys: seq<string>, k: string)
    requires k in totals
    requires forall x :: x in keys ==> x in totals
    ensures SumBars(ColumnChartData(totals, keys + [k])) == SumBars(ColumnChartData(totals, keys)) + totals[k]
    decreases |keys|
  {
    if keys != [] {
      assert (keys + [k])[1..] == keys[1..] + [k];
      SumBarsAppend(totals, keys[1..], k);
    }
  }

  /** Both charts count every visitor once: the bars of the per-country chart
      add up to the same total as the points of the time series. */
  lemma ChartsAgreeOnTotal(rows: seq<Row>)
    ensures SumBars(CountryBars(rows)) == SumPoints(TimeSeries(rows))
  {
    TimeSeriesSum(rows);
    BarsSumToTotal(rows);
  }

  /** One reduce step adds the row's visitors to the sum of the bars. */
  lemma BarsStep(t0: map<string, int>, k0: seq<string>, r: Row)
    requires forall x :: x in k0 <==> x in t0
    requires Distinct(k0)
    ensures forall x :: x in AddKey(k0, r.country) ==> x in Accumulate(t0, r)
    ensures SumBars(ColumnChartData(Accumulate(t0, r), AddKey(k0, r.country)))
         == SumBars(ColumnChartData(t0, k0)) + Visitors(r)
  {
    var c, v := r.country, Visitors(r);
    var t1, k1 := Accumulate(t0, r), AddKey(k0, c);
    AddKeyProperties(k0, c);
    AccumulateCases(t0, r);
    if c in k0 {
      SumBarsUpdate(t0, k0, c, v);
    } else {
      SumBarsUpdate(t0, k0, c, v);
      if IsArrayIndex(c) {
        SumBarsInsert(t1, k0, c);
      } else {
        SumBarsAppend(t1, k0, c);
      }
    }
  }

  lemma {:induction false} BarsSumToTotal(rows: seq<Row>)
    ensures SumBars(CountryBars(rows)) == TotalVisitors(rows)
    decreases |rows|
  {
    if rows != [] {
      var prior, last := rows[..|rows| - 1], rows[|rows| - 1];
      BarsSumToTotal(prior);
      assert rows == prior + [last];
      TallyStep(prior, last);
      TallyIsPerCountrySum(prior);
      OwnKeysAfterProperties(Countries(prior));
      BarsStep(Tally(prior), OwnKeysAfter(Countries(prior)), last);
    }
  }
}
