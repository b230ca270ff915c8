/**
 * The weekly distance dashboard (actions/dashboard_distances.go): the rows of
 * the weekly distance query become one gap-filled series per user, and the
 * cumulative variant turns them into aligned running totals.
 *
 * The query itself is not modelled: its rows and its error are the input.
 */
module DashboardDistances {
  import opened Wrappers
  import opened WeeklyStats

  /** One row of the weekly distance query: week, user name, kilometres run that week. */
  datatype DistanceRow = DistanceRow(week: int, user: string, distance: int)

  /** What the database returned: the rows read and the error, if any. */
  datatype DistanceQuery = DistanceQuery(rows: seq<DistanceRow>, err: Option<string>)

  /** The rows with `distance` as the engine's value. */
  function AsRows(data: seq<DistanceRow>): (r: seq<Row>)
    ensures |r| == |data|
    ensures forall i :: 0 <= i < |data| ==>
              r[i].week == data[i].week && r[i].user == data[i].user && r[i].value == data[i].distance
  {
    if data == [] then []
    else AsRows(data[..|data| - 1]) + [Row(data[|data| - 1].week, data[|data| - 1].user, data[|data| - 1].distance)]
  }

  /**
   * getWeeklyDistanceStats: the grouping and gap-filling loop over the rows
   * read, returned together with the query's error.
   */
  method GetWeeklyDistanceStats(query: DistanceQuery) returns (stats: Stats, err: Option<string>)
    ensures err == query.err
    ensures stats == Group(AsRows(query.rows)).stats
    ensures Grouped(AsRows(query.rows), stats)
  {
    stats := GroupWeekly(AsRows(query.rows));
    err := query.err;
  }

  /**
   * getWeeklyCumulativeDistanceStats: a failed query is swallowed (empty map,
   * no error); otherwise every user's weekly distances become running totals
   * ending at the latest week of any user.
   */
  method GetWeeklyCumulativeDistanceStats(query: DistanceQuery) returns (stats: Stats, err: Option<string>)
    ensures err == None
    ensures query.err.Some? ==> stats == map[]
    ensures query.err.None? ==>
              var rows := AsRows(query.rows);
              && Grouped(rows, Group(rows).stats)
              && Cumulated(Group(rows).stats, stats)
              && EndsAtTotals(rows, stats)
  {
    var distanceStats, e := GetWeeklyDistanceStats(query);
    if e.Some? {
      return map[], None;
    }
    GroupedTotals(AsRows(query.rows), distanceStats);
    stats := CumulativeAlign(distanceStats);
    CumulatedTotals(AsRows(query.rows), distanceStats, stats);
    err := None;
  }

  /**
   * With non-negative weekly distances every cumulative series is
   * non-decreasing, keeps the weeks of the weekly series and grows by one
   * point only when the user's last week is before the latest one.
   */
  lemma {:induction false} CumulativeDistancesShape(data: seq<DistanceRow>, weekly: Stats, cumulative: Stats)
    requires weekly == Group(AsRows(data)).stats
    requires forall u :: u in weekly ==> weekly[u] != []
    requires Cumulated(weekly, cumulative)
    requires forall i :: 0 <= i < |data| ==> data[i].distance >= 0
    ensures forall u :: u in cumulative ==> u in weekly && CumulativeShape(weekly[u], MaxLastWeek(weekly), cumulative[u])
  {
    AsRowsNonNegative(data);
    GroupNonNegative(AsRows(data));
    CumulatedShape(weekly, cumulative);
  }

  /** Non-negative distances are non-negative row values. */
  lemma {:induction false} AsRowsNonNegative(data: seq<DistanceRow>)
    requires forall i :: 0 <= i < |data| ==> data[i].distance >= 0
    ensures forall i :: 0 <= i < |AsRows(data)| ==> AsRows(data)[i].value >= 0
  {
    var rows := AsRows(data);
    assert forall i :: 0 <= i < |rows| ==> rows[i].value == data[i].distance;
  }
}
