/**
 * The main dashboard helpers (actions/dashboard.go): the year window of the
 * queries, the podium CSS class of a rank, and the older weekly distance
 * statistics, which group rows ordered by week without filling gaps.
 *
 * `secondsToHuman` of this file is the same function as the one of
 * actions/render.go and is modelled once, as `Render.SecondsToHuman`.
 */
module Dashboard {
  import opened Wrappers
  import opened GoStrconv
  import opened WeeklyStats
  import opened DashboardDistances

  // ---------------------------------------------------------------------
  // Year window

  /** The year parseThisNextYear works with: the parsed variable, else the current year. */
  function ChosenYear(osEnv: string, currentYear: int): int {
    match ParseInt(osEnv)
    case Some(n) => n
    case None => currentYear
  }

  /**
   * parseThisNextYear: the decimal strings of the year from the environment
   * variable when `strconv.Atoi` accepts it, otherwise of the current year,
   * and of the year after (Go's 64-bit `int` wraps at the top of its range).
   * The clock is the `currentYear` parameter.
   */
  function ParseThisNextYear(osEnv: string, currentYear: int): (r: (string, string))
    ensures ParseInt(osEnv).Some? ==> r.0 == FormatInt(ParseInt(osEnv).value)
    ensures ParseInt(osEnv).None? ==> r.0 == FormatInt(currentYear)
  {
    var year := ChosenYear(osEnv, currentYear);
    (FormatInt(year), FormatInt(Wrap64(year + 1)))
  }

  /** The year chosen is a Go int whenever the clock's year is. */
  lemma {:induction false} ChosenYearInRange(osEnv: string, currentYear: int)
    ensures MinInt64 <= currentYear <= MaxInt64 ==> MinInt64 <= ChosenYear(osEnv, currentYear) <= MaxInt64
    ensures ParseInt(osEnv).Some? ==> ChosenYear(osEnv, currentYear) == ParseInt(osEnv).value
    ensures ParseInt(osEnv).None? ==> ChosenYear(osEnv, currentYear) == currentYear
  {
  }

  /**
   * Both strings read back: the first as the configured year when it parses
   * and as the current year otherwise, the second as the year after.
   */
  lemma {:induction false} ParseThisNextYearReadsBack(osEnv: string, currentYear: int)
    requires MinInt64 <= currentYear <= MaxInt64
    ensures var r := ParseThisNextYear(osEnv, currentYear);
      && (ParseInt(osEnv).Some? ==> ParseInt(r.0) == ParseInt(osEnv))
      && (ParseInt(osEnv).None? ==> ParseInt(r.0) == Some(currentYear))
      && ParseInt(r.1) == Some(Wrap64(ChosenYear(osEnv, currentYear) + 1))
  {
    var year := ChosenYear(osEnv, currentYear);
    ChosenYearInRange(osEnv, currentYear);
    FirstReadsBack(year);
    NextReadsBack(year);
  }

  lemma {:induction false} FirstReadsBack(year: int)
    requires MinInt64 <= year <= MaxInt64
    ensures ParseInt(FormatInt(year)) == Some(year)
  {
    FormatParseRoundTrip(year);
  }

  lemma {:induction false} NextReadsBack(year: int)
    requires MinInt64 <= year <= MaxInt64
    ensures ParseInt(FormatInt(Wrap64(year + 1))) == Some(Wrap64(year + 1))
  {
    FormatParseRoundTrip(Wrap64(year + 1));
  }

  /**
   * The two strings are consecutive years whenever the first is not the
   * largest 64-bit integer.
   */
  lemma {:induction false} ParseThisNextYearConsecutive(osEnv: string, currentYear: int)
    requires MinInt64 <= currentYear <= MaxInt64
    ensures var r := ParseThisNextYear(osEnv, currentYear);
      && ParseInt(r.0).Some?
      && (ParseInt(r.0).value < MaxInt64 ==> ParseInt(r.1) == Some(ParseInt(r.0).value + 1))
  {
    var year := ChosenYear(osEnv, currentYear);
    ChosenYearInRange(osEnv, currentYear);
    FirstReadsBack(year);
    NextReadsBack(year);
  }

  /** Feeding the first string back in gives the same pair, whatever the clock says. */
  lemma {:induction false} ParseThisNextYearStable(osEnv: string, currentYear: int, otherYear: int)
    requires MinInt64 <= currentYear <= MaxInt64
    ensures var r := ParseThisNextYear(osEnv, currentYear);
      ParseThisNextYear(r.0, otherYear) == r
  {
    var year := ChosenYear(osEnv, currentYear);
    ChosenYearInRange(osEnv, currentYear);
    FirstReadsBack(year);
    ChosenYearInRange(FormatInt(year), otherYear);
  }

  // ---------------------------------------------------------------------
  // Podium

  /** convertPodiumClass: gold, silver and bronze table classes for ranks 0, 1 and 2. */
  function ConvertPodiumClass(i: int): (r: string)
    ensures r != "" <==> 0 <= i <= 2
    ensures r in {"", "table-warning", "table-secondary", "table-danger"}
  {
    match i
    case 0 => "table-warning"
    case 1 => "table-secondary"
    case 2 => "table-danger"
    case _ => ""
  }

  /** The three podium places get three different classes. */
  lemma {:induction false} PodiumClassesDistinct(i: int, j: int)
    requires 0 <= i <= 2 && 0 <= j <= 2
    ensures ConvertPodiumClass(i) == ConvertPodiumClass(j) <==> i == j
  {
  }

  // ---------------------------------------------------------------------
  // Older weekly distance statistics (rows ordered by week, then user id)

  /**
   * getWeeklyDistanceStats of actions/dashboard.go: no gap filling; each
   * user's list is that user's rows in input order, and the lists together
   * hold exactly the rows read. The query's error is passed on.
   */
  method GetWeeklyDistanceStats(query: DistanceQuery) returns (stats: Stats, err: Option<string>)
    ensures err == query.err
    ensures stats == ByUser(AsRows(query.rows))
    ensures TotalLength(stats) == |query.rows|
  {
    stats := GroupByUser(AsRows(query.rows));
    err := query.err;
  }

  /**
   * getWeeklyCumulativeDistanceStats of actions/dashboard.go: the same
   * cumulative pass as the gap-filled dashboards, over the ungrouped-by-week
   * lists; a failed query is swallowed.
   */
  method GetWeeklyCumulativeDistanceStats(query: DistanceQuery) returns (stats: Stats, err: Option<string>)
    ensures err == None
    ensures query.err.Some? ==> stats == map[]
    ensures query.err.None? ==>
              var rows := AsRows(query.rows);
              && Totals(rows, ByUser(rows))
              && Cumulated(ByUser(rows), stats)
              && EndsAtTotals(rows, stats)
  {
    var distanceStats, e := GetWeeklyDistanceStats(query);
    if e.Some? {
      return map[], None;
    }
    ByUserShape(AsRows(query.rows));
    stats := CumulativeAlign(distanceStats);
    CumulatedTotals(AsRows(query.rows), distanceStats, stats);
    err := None;
  }
}
