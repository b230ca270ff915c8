/**
 * The weekly activity count dashboard (actions/dashboard_count.go): the rows
 * of the weekly count query become one gap-filled series per user, and the
 * cumulative variant turns them into aligned running counts.
 *
 * The query itself is not modelled: its rows and its error are the input.
 */
module DashboardCount {
  import opened Wrappers
  import opened WeeklyStats

  /** One row of the weekly count query: week, user name, number of runs that week. */
  datatype CountRow = CountRow(week: int, user: string, count: int)

  /** What the database returned: the rows read and the error, if any. */
  datatype CountQuery = CountQuery(rows: seq<CountRow>, err: Option<string>)

  /** The rows with `count` as the engine's value. */
  function AsRows(data: seq<CountRow>): (r: seq<Row>)
    ensures |r| == |data|
    ensures forall i :: 0 <= i < |data| ==>
              r[i].week == data[i].week && r[i].user == data[i].user && r[i].value == data[i].count
  {
    if data == [] then []
    else AsRows(data[..|data| - 1]) + [Row(data[|data| - 1].week, data[|data| - 1].user, data[|data| - 1].count)]
  }

  /**
   * getWeeklyCountStats: the grouping and gap-filling loop over the rows
   * read, returned together with the query's error.
   */
  method GetWeeklyCountStats(query: CountQuery) returns (stats: Stats, err: Option<string>)
    ensures err == query.err
    ensures stats == Group(AsRows(query.rows)).stats
    ensures Grouped(AsRows(query.rows), stats)
  {
    stats := GroupWeekly(AsRows(query.rows));
    err := query.err;
  }

  /**
   * getWeeklyCumulativeCountStats: a failed query is swallowed (empty map,
   * no error); otherwise every user's weekly counts become running counts
   * ending at the latest week of any user.
   */
  method GetWeeklyCumulativeCountStats(query: CountQuery) returns (stats: Stats, err: Option<string>)
    ensures err == None
    ensures query.err.Some? ==> stats == map[]
    ensures query.err.None? ==>
              var rows := AsRows(query.rows);
              && Grouped(rows, Group(rows).stats)
              && Cumulated(Group(rows).stats, stats)
              && EndsAtTotals(rows, stats)
  {
    var countStats, e := GetWeeklyCountStats(query);
    if e.Some? {
      return map[], None;
    }
    GroupedTotals(AsRows(query.rows), countStats);
    stats := CumulativeAlign(countStats);
    CumulatedTotals(AsRows(query.rows), countStats, stats);
    err := None;
  }

  /**
   * With non-negative weekly counts (a SQL `COUNT` is never negative) every cumulative series is
   * non-decreasing, keeps the weeks of the weekly series and grows by one
   * point only when the user's last week is before the latest one.
   */
  lemma {:induction false} CumulativeCountsShape(data: seq<CountRow>, weekly: Stats, cumulative: Stats)
    requires weekly == Group(AsRows(data)).stats
    requires forall u :: u in weekly ==> weekly[u] != []
    requires Cumulated(weekly, cumulative)
    requires forall i :: 0 <= i < |data| ==> data[i].count >= 0
    ensures forall u :: u in cumulative ==> u in weekly && CumulativeShape(weekly[u], MaxLastWeek(weekly), cumulative[u])
  {
    AsRowsNonNegative(data);
    GroupNonNegative(AsRows(data));
    CumulatedShape(weekly, cumulative);
  }

  /** Non-negative counts are non-negative row values. */
  lemma {:induction false} AsRowsNonNegative(data: seq<CountRow>)
    requires forall i :: 0 <= i < |data| ==> data[i].count >= 0
    ensures forall i :: 0 <= i < |AsRows(data)| ==> AsRows(data)[i].value >= 0
  {
    var rows := AsRows(data);
    assert forall i :: 0 <= i < |rows| ==> rows[i].value == data[i].count;
  }
}
