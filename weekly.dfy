/**
 * The weekly aggregation engine shared by the distance and the count
 * dashboards: rows `(week, user, value)` from the weekly group-by query are
 * grouped into one series of week buckets per user label, with zero buckets
 * for skipped weeks; the cumulative variant then replaces every value by its
 * running sum and appends one flat point so that every user's series ends at
 * the latest week seen by any user.
 *
 * The two dashboards differ only in the name of the payload (`Distance` in
 * `weekDistance`, `Count` in `weekCount`); here the payload is `value`.
 */
module WeeklyStats {

  /** One row of the weekly query: week number, user label, aggregated value. */
  datatype Row = Row(week: int, user: string, value: int)

  /** One point of a user's series (`weekDistance` / `weekCount`). */
  datatype Bucket = Bucket(week: int, value: int)

  /** User label to that user's ordered series. */
  type Stats = map<string, seq<Bucket>>

  function Max(a: int, b: int): int {
    if a < b then b else a
  }

  // ---------------------------------------------------------------------
  // Facts about the input rows

  /** The user labels occurring in the rows. */
  function Users(rows: seq<Row>): set<string> {
    set i | 0 <= i < |rows| :: rows[i].user
  }

  lemma {:induction false} UsersSnoc(rows: seq<Row>, r: Row)
    ensures Users(rows + [r]) == Users(rows) + {r.user}
  {
    var rs := rows + [r];
    assert rs[|rows|].user == r.user;
    forall u | u in Users(rows) ensures u in Users(rs) {
      var i :| 0 <= i < |rows| && rows[i].user == u;
      assert rs[i].user == u;
    }
  }

  /** Sum of the values of one user's rows. */
  function UserTotal(rows: seq<Row>, u: string): int {
    if rows == [] then 0
    else
      var r := rows[|rows| - 1];
      UserTotal(rows[..|rows| - 1], u) + (if r.user == u then r.value else 0)
  }

  /** The last row of user `u`. */
  function LastRow(rows: seq<Row>, u: string): Row
    requires u in Users(rows)
  {
    var r := rows[|rows| - 1];
    UsersSnoc(rows[..|rows| - 1], r);
    assert rows == rows[..|rows| - 1] + [r];
    if r.user == u then r else LastRow(rows[..|rows| - 1], u)
  }

  /** Is there a row of user `u` for week `w`? */
  ghost predicate HasRowAt(rows: seq<Row>, u: string, w: int) {
    exists j :: 0 <= j < |rows| && rows[j].user == u && rows[j].week == w
  }

  lemma {:induction false} HasRowAtSnoc(rows: seq<Row>, r: Row, u: string, w: int)
    ensures HasRowAt(rows + [r], u, w) == (HasRowAt(rows, u, w) || (r.user == u && r.week == w))
  {
    var rs := rows + [r];
    if HasRowAt(rows, u, w) {
      var j :| 0 <= j < |rows| && rows[j].user == u && rows[j].week == w;
      assert rs[j] == rows[j];
    }
    if HasRowAt(rs, u, w) {
      var j :| 0 <= j < |rs| && rs[j].user == u && rs[j].week == w;
      if j < |rows| {
        assert rs[j] == rows[j];
      }
    }
    if r.user == u && r.week == w {
      assert rs[|rows|] == r;
    }
  }

  /**
   * The order the grouping's density results need: each user's rows are
   * contiguous, weeks are not negative, and within one user they strictly
   * increase. The weekly queries group by user id and week but key and sort
   * the rows by user name (`GROUP BY u.id, week ORDER BY u.name, week`), so
   * they deliver this order only when user names are unique; see
   * `DuplicateNamesExample`.
   */
  ghost predicate WellOrdered(rows: seq<Row>) {
    && (forall i :: 0 <= i < |rows| ==> rows[i].week >= 0)
    && (forall i, k :: 0 <= i < k < |rows| && rows[i].user == rows[k].user ==> rows[k - 1].user == rows[k].user)
    && (forall k :: 0 < k < |rows| && rows[k - 1].user == rows[k].user ==> rows[k - 1].week < rows[k].week)
  }

  /** Dropping the last row keeps the rows well ordered. */
  lemma {:induction false} WellOrderedPrefix(rows: seq<Row>)
    requires rows != [] && WellOrdered(rows)
    ensures WellOrdered(rows[..|rows| - 1])
  {
    var p := rows[..|rows| - 1];
    assert forall i :: 0 <= i < |p| ==> p[i] == rows[i];
  }

  // ---------------------------------------------------------------------
  // Series

  /** Sum of the values of a series. */
  function Total(s: seq<Bucket>): int {
    if s == [] then 0 else Total(s[..|s| - 1]) + s[|s| - 1].value
  }

  function LastWeek(s: seq<Bucket>): int
    requires s != []
  {
    s[|s| - 1].week
  }

  /** Bucket `i` is week `i`: the series runs from week 0 without gaps. */
  ghost predicate Dense(s: seq<Bucket>) {
    forall i :: 0 <= i < |s| ==> s[i].week == i
  }

  lemma {:induction false} TotalConcat(a: seq<Bucket>, b: seq<Bucket>)
    ensures Total(a + b) == Total(a) + Total(b)
    decreases |b|
  {
    if b != [] {
      var n := |b| - 1;
      assert (a + b)[..|a + b| - 1] == a + b[..n];
      TotalConcat(a, b[..n]);
    } else {
      assert a + b == a;
    }
  }

  // ---------------------------------------------------------------------
  // Grouping with gap filling (getWeeklyDistanceStats / getWeeklyCountStats)

  /** Zero buckets for the weeks `lo .. hi - 1`, as the fill loop appends them. */
  function Fill(lo: int, hi: int): (r: seq<Bucket>)
    decreases hi - lo
    ensures |r| == (if lo < hi then hi - lo else 0)
    ensures forall i :: 0 <= i < |r| ==> r[i] == Bucket(lo + i, 0)
  {
    if lo < hi then Fill(lo, hi - 1) + [Bucket(hi - 1, 0)] else []
  }

  lemma {:induction false} FillTotal(lo: int, hi: int)
    ensures Total(Fill(lo, hi)) == 0
    decreases hi - lo
  {
    if lo < hi {
      var f := Fill(lo, hi);
      assert f[..|f| - 1] == Fill(lo, hi - 1);
      FillTotal(lo, hi - 1);
    }
  }

  /** The loop state: the map built so far and the `weekIdx` counter. */
  datatype Grouping = Grouping(stats: Stats, weekIdx: int)

  /**
   * One iteration of the grouping loop: the row's user's series ends with
   * the row's bucket, and the counter moves past the row's week.
   */
  function GroupStep(g: Grouping, row: Row): (r: Grouping)
    ensures row.user in r.stats && r.stats[row.user] != []
    ensures r.stats[row.user][|r.stats[row.user]| - 1] == Bucket(row.week, row.value)
    ensures r.weekIdx == (if row.user in g.stats then Max(g.weekIdx, row.week) else Max(0, row.week)) + 1
  {
    var start := if row.user in g.stats then g.weekIdx else 0;
    var before := if row.user in g.stats then g.stats[row.user] else [];
    Grouping(g.stats[row.user := before + Fill(start, row.week) + [Bucket(row.week, row.value)]],
             Max(start, row.week) + 1)
  }

  /** The grouping loop over all rows, in order: the last row's user ends with that row's bucket. */
  function Group(rows: seq<Row>): (g: Grouping)
    ensures rows == [] ==> g == Grouping(map[], 0)
    ensures rows != [] ==>
              var last := rows[|rows| - 1];
              last.user in g.stats && g.stats[last.user] != []
              && g.stats[last.user][|g.stats[last.user]| - 1] == Bucket(last.week, last.value)
  {
    if rows == [] then Grouping(map[], 0)
    else GroupStep(Group(rows[..|rows| - 1]), rows[|rows| - 1])
  }

  /** The keys of the grouping are exactly the users of the rows. */
  lemma {:induction false} GroupKeys(rows: seq<Row>)
    ensures Group(rows).stats.Keys == Users(rows)
    decreases |rows|
  {
    if rows != [] {
      var p, r := rows[..|rows| - 1], rows[|rows| - 1];
      assert rows == p + [r];
      GroupKeys(p);
      UsersSnoc(p, r);
    }
  }

  /** A user without rows has total zero. */
  lemma {:induction false} UserTotalAbsent(rows: seq<Row>, u: string)
    requires u !in Users(rows)
    ensures UserTotal(rows, u) == 0
    decreases |rows|
  {
    if rows != [] {
      var p, r := rows[..|rows| - 1], rows[|rows| - 1];
      assert rows == p + [r];
      UsersSnoc(p, r);
      UserTotalAbsent(p, u);
    }
  }

  /** The last row of a user is unaffected by a later row of another user. */
  lemma {:induction false} LastRowSnoc(p: seq<Row>, r: Row, u: string)
    requires u in Users(p + [r])
    ensures u in Users(p) || u == r.user
    ensures LastRow(p + [r], u) == if u == r.user then r else LastRow(p, u)
  {
    var rows := p + [r];
    UsersSnoc(p, r);
    assert rows[..|rows| - 1] == p && rows[|rows| - 1] == r;
  }

  /** Every series belongs to a user of the rows and ends with that user's last row. */
  ghost predicate EndsWithLastRow(rows: seq<Row>, m: Stats) {
    forall u :: u in m ==>
      && u in Users(rows) && m[u] != []
      && m[u][|m[u]| - 1] == Bucket(LastRow(rows, u).week, LastRow(rows, u).value)
  }

  /**
   * For every input whatsoever (no ordering needed): every series is
   * non-empty and ends with its user's last row.
   */
  lemma {:induction false} GroupLast(rows: seq<Row>)
    ensures EndsWithLastRow(rows, Group(rows).stats)
    decreases |rows|
  {
    if rows != [] {
      var p, r := rows[..|rows| - 1], rows[|rows| - 1];
      assert rows == p + [r];
      GroupLast(p);
      GroupKeys(rows);
      var m := Group(rows).stats;
      forall u | u in m
        ensures m[u] != [] && m[u][|m[u]| - 1] == Bucket(LastRow(rows, u).week, LastRow(rows, u).value)
      {
        LastRowSnoc(p, r, u);
      }
    }
  }

  /** Every series adds up to its user's total. */
  ghost predicate SumsToTotals(rows: seq<Row>, m: Stats) {
    forall u :: u in m ==> Total(m[u]) == UserTotal(rows, u)
  }

  /**
   * For every input whatsoever (no ordering needed): each series adds up to
   * the sum of its user's rows, filler buckets being zero.
   */
  lemma {:induction false} GroupTotals(rows: seq<Row>)
    ensures SumsToTotals(rows, Group(rows).stats)
    decreases |rows|
  {
    if rows != [] {
      var p, r := rows[..|rows| - 1], rows[|rows| - 1];
      GroupTotals(p);
      GroupKeys(p);
      var g := Group(p);
      var start := if r.user in g.stats then g.weekIdx else 0;
      var before := if r.user in g.stats then g.stats[r.user] else [];
      var f := Fill(start, r.week);
      var m := Group(rows).stats;
      assert m == g.stats[r.user := before + f + [Bucket(r.week, r.value)]];
      forall u | u in m
        ensures Total(m[u]) == UserTotal(rows, u)
      {
        assert UserTotal(rows, u) == UserTotal(p, u) + (if r.user == u then r.value else 0);
        if u == r.user {
          GroupedUserTotal(p, r, g, start, before);
        }
      }
    }
  }

  /** The new series of the row's user sums to that user's total. */
  lemma {:induction false} GroupedUserTotal(p: seq<Row>, r: Row, g: Grouping, start: int, before: seq<Bucket>)
    requires g == Group(p) && g.stats.Keys == Users(p) && SumsToTotals(p, g.stats)
    requires start == (if r.user in g.stats then g.weekIdx else 0)
    requires before == (if r.user in g.stats then g.stats[r.user] else [])
    ensures Total(before + Fill(start, r.week) + [Bucket(r.week, r.value)]) == UserTotal(p, r.user) + r.value
  {
    var f := Fill(start, r.week);
    if r.user !in g.stats {
      UserTotalAbsent(p, r.user);
    }
    TotalConcat(before + f, [Bucket(r.week, r.value)]);
    TotalConcat(before, f);
    FillTotal(start, r.week);
    assert Total([Bucket(r.week, r.value)]) == r.value;
  }

  ghost predicate NonNegative(s: seq<Bucket>) {
    forall i :: 0 <= i < |s| ==> s[i].value >= 0
  }

  /** Non-negative row values give non-negative buckets: fillers hold zero. */
  lemma {:induction false} GroupNonNegative(rows: seq<Row>)
    requires forall i :: 0 <= i < |rows| ==> rows[i].value >= 0
    ensures forall u :: u in Group(rows).stats ==> NonNegative(Group(rows).stats[u])
  {
    if rows != [] {
      var p, r := rows[..|rows| - 1], rows[|rows| - 1];
      GroupNonNegative(p);
      var g := Group(p);
      var start := if r.user in g.stats then g.weekIdx else 0;
      var before := if r.user in g.stats then g.stats[r.user] else [];
      var f := Fill(start, r.week);
      var s := before + f + [Bucket(r.week, r.value)];
      assert rows[..|rows| - 1] == p;
      assert Group(rows).stats == g.stats[r.user := s];
      forall i | 0 <= i < |s| ensures s[i].value >= 0 {
        if i < |before| {
          assert s[i] == before[i];
          assert r.user in g.stats && before == g.stats[r.user];
        } else if i < |before| + |f| {
          assert s[i] == f[i - |before|] == Bucket(start + (i - |before|), 0);
          assert s[i].value == 0;
        } else {
          assert s[i] == Bucket(r.week, r.value) && r == rows[|rows| - 1];
          assert r.value >= 0;
        }
      }
      assert NonNegative(s);
    }
  }

  /** Every series runs from week 0 without gaps. */
  ghost predicate AllDense(stats: Stats) {
    forall u :: u in stats ==> Dense(stats[u])
  }

  /** Each row's value sits at the row's week in its user's series. */
  ghost predicate RowsPlaced(rows: seq<Row>, stats: Stats) {
    forall j :: 0 <= j < |rows| ==>
      rows[j].user in stats && 0 <= rows[j].week < |stats[rows[j].user]| &&
      stats[rows[j].user][rows[j].week].value == rows[j].value
  }

  /** Weeks without a row of their user hold zero. */
  ghost predicate ZerosElsewhere(rows: seq<Row>, stats: Stats) {
    forall u, w :: u in stats && 0 <= w < |stats[u]| && !HasRowAt(rows, u, w) ==> stats[u][w].value == 0
  }

  /** What the grouping guarantees on well-ordered rows. */
  ghost predicate GapFilled(rows: seq<Row>, stats: Stats) {
    AllDense(stats) && RowsPlaced(rows, stats) && ZerosElsewhere(rows, stats)
  }

  ghost predicate GroupInv(rows: seq<Row>, g: Grouping) {
    && GapFilled(rows, g.stats)
    && (rows != [] ==>
          var last := rows[|rows| - 1];
          last.user in g.stats && g.weekIdx == last.week + 1 == |g.stats[last.user]|)
  }

  /** The new series of the step's user, given the counter equals its length. */
  lemma {:induction false} AppendDense(before: seq<Bucket>, start: int, r: Row)
    requires Dense(before) && |before| == start <= r.week
    ensures var s := before + Fill(start, r.week) + [Bucket(r.week, r.value)];
      Dense(s) && |s| == r.week + 1 && s[r.week].value == r.value &&
      (forall i :: 0 <= i < start ==> s[i] == before[i]) &&
      (forall i :: start <= i < r.week ==> s[i].value == 0)
  {
  }

  /**
   * On well-ordered rows a step starts its user's fill at the length of the
   * user's series so far, and that is at most the row's week: a user already
   * seen was the previous row's user (contiguity), whose counter is its length.
   */
  lemma {:induction false} StepStart(p: seq<Row>, r: Row)
    requires WellOrdered(p + [r])
    requires Group(p).stats.Keys == Users(p)
    requires GroupInv(p, Group(p))
    ensures var g := Group(p);
      var before := if r.user in g.stats then g.stats[r.user] else [];
      Dense(before) && |before| == (if r.user in g.stats then g.weekIdx else 0) <= r.week
  {
    var rows := p + [r];
    var g := Group(p);
    if r.user in g.stats {
      var i :| 0 <= i < |p| && p[i].user == r.user;
      assert rows[i].user == rows[|p|].user;
      assert rows[|p| - 1].user == r.user;
    } else {
      assert rows[|p|] == r;
    }
  }

  lemma {:induction false} StepRowsPlaced(p: seq<Row>, r: Row, m: Stats, before: seq<Bucket>, s: seq<Bucket>)
    requires RowsPlaced(p, m)
    requires before == if r.user in m then m[r.user] else []
    requires |before| <= |s| && forall i :: 0 <= i < |before| ==> s[i] == before[i]
    requires 0 <= r.week < |s| && s[r.week].value == r.value
    ensures RowsPlaced(p + [r], m[r.user := s])
  {
    var rows := p + [r];
    forall j | 0 <= j < |rows|
      ensures rows[j].user in m[r.user := s] && 0 <= rows[j].week < |m[r.user := s][rows[j].user]|
      ensures m[r.user := s][rows[j].user][rows[j].week].value == rows[j].value
    {
      if j < |p| {
        assert rows[j] == p[j];
      }
    }
  }

  lemma {:induction false} StepZeros(p: seq<Row>, r: Row, m: Stats, before: seq<Bucket>, start: int, s: seq<Bucket>)
    requires ZerosElsewhere(p, m)
    requires before == if r.user in m then m[r.user] else []
    requires |before| == start <= r.week && |s| == r.week + 1
    requires forall i :: 0 <= i < start ==> s[i] == before[i]
    requires forall i :: start <= i < r.week ==> s[i].value == 0
    ensures ZerosElsewhere(p + [r], m[r.user := s])
  {
    var rows := p + [r];
    var m': Stats := m[r.user := s];
    forall v: string, w: int | v in m' && 0 <= w < |m'[v]| && !HasRowAt(rows, v, w)
      ensures m'[v][w].value == 0
    {
      HasRowAtSnoc(p, r, v, w);
    }
  }

  lemma {:induction false} AllDenseUpdate(m: Stats, u: string, s: seq<Bucket>)
    requires AllDense(m) && Dense(s)
    ensures AllDense(m[u := s])
  {
  }

  /** The invariant survives a step whose user's series so far is dense and no longer than the row's week. */
  lemma {:induction false} StepKeepsInv(p: seq<Row>, r: Row, g: Grouping, start: int, before: seq<Bucket>)
    requires GroupInv(p, g)
    requires start == (if r.user in g.stats then g.weekIdx else 0)
    requires before == (if r.user in g.stats then g.stats[r.user] else [])
    requires Dense(before) && |before| == start <= r.week
    ensures var s := before + Fill(start, r.week) + [Bucket(r.week, r.value)];
      GroupInv(p + [r], Grouping(g.stats[r.user := s], Max(start, r.week) + 1))
  {
    var rows := p + [r];
    var s := before + Fill(start, r.week) + [Bucket(r.week, r.value)];
    var m': Stats := g.stats[r.user := s];
    AppendDense(before, start, r);
    AllDenseUpdate(g.stats, r.user, s);
    StepRowsPlaced(p, r, g.stats, before, s);
    StepZeros(p, r, g.stats, before, start, s);
    assert GapFilled(rows, m');
    assert rows[|rows| - 1] == r;
  }

  lemma {:induction false} GroupDenseStep(p: seq<Row>, r: Row)
    requires WellOrdered(p + [r])
    requires Group(p).stats.Keys == Users(p)
    requires GroupInv(p, Group(p))
    ensures GroupInv(p + [r], Group(p + [r]))
  {
    var rows := p + [r];
    assert rows[..|rows| - 1] == p;
    var g := Group(p);
    var start := if r.user in g.stats then g.weekIdx else 0;
    var before := if r.user in g.stats then g.stats[r.user] else [];
    var s := before + Fill(start, r.week) + [Bucket(r.week, r.value)];
    assert Group(rows) == Grouping(g.stats[r.user := s], Max(start, r.week) + 1);
    StepStart(p, r);
    StepKeepsInv(p, r, g, start, before);
  }

  /**
   * On well-ordered rows every series is dense from week 0, carries each
   * row's value at the row's week, zero at every other week, and ends at its
   * user's last row week.
   */
  lemma {:induction false} GroupDense(rows: seq<Row>)
    requires WellOrdered(rows)
    ensures GroupInv(rows, Group(rows))
    decreases |rows|
  {
    if rows != [] {
      var p, r := rows[..|rows| - 1], rows[|rows| - 1];
      WellOrderedPrefix(rows);
      GroupDense(p);
      GroupKeys(p);
      assert rows == p + [r];
      GroupDenseStep(p, r);
    }
  }

  /**
   * What the grouping loop guarantees for any rows: the keys are the users of
   * the rows; each series is non-empty, ends with its user's last row and sums
   * to that user's total. On well-ordered rows each series is also gap-filled
   * and its length is the user's last row week plus one.
   */
  ghost predicate Grouped(rows: seq<Row>, stats: Stats) {
    && stats.Keys == Users(rows)
    && (forall u :: u in stats ==>
          && stats[u] != []
          && stats[u][|stats[u]| - 1] == Bucket(LastRow(rows, u).week, LastRow(rows, u).value)
          && Total(stats[u]) == UserTotal(rows, u))
    && (WellOrdered(rows) ==> GapFilled(rows, stats))
    && (WellOrdered(rows) ==> forall u :: u in stats ==> |stats[u]| == LastRow(rows, u).week + 1)
  }

  lemma {:induction false} GroupProperties(rows: seq<Row>)
    ensures Grouped(rows, Group(rows).stats)
  {
    GroupKeys(rows);
    GroupLast(rows);
    GroupTotals(rows);
    if WellOrdered(rows) {
      GroupDense(rows);
    }
  }

  /** Rows at weeks 0 and 2 of one user: week 1 is filled with a zero bucket. */
  lemma {:induction false} GroupExample()
    ensures Group([Row(0, "ana", 10), Row(2, "ana", 5)]).stats
         == map["ana" := [Bucket(0, 10), Bucket(1, 0), Bucket(2, 5)]]
  {
    var rows := [Row(0, "ana", 10), Row(2, "ana", 5)];
    assert rows[..1] == [Row(0, "ana", 10)];
    assert [Row(0, "ana", 10)][..0] == [];
    var g1 := Group([Row(0, "ana", 10)]);
    assert g1 == GroupStep(Grouping(map[], 0), Row(0, "ana", 10));
    assert Fill(0, 0) == [];
    assert [] + Fill(0, 0) + [Bucket(0, 10)] == [Bucket(0, 10)];
    assert g1 == Grouping(map["ana" := [Bucket(0, 10)]], 1);
    assert Fill(1, 2) == [Bucket(1, 0)] by {
      assert Fill(1, 1) == [];
    }
    assert Group(rows) == GroupStep(g1, Row(2, "ana", 5));
    assert [Bucket(0, 10)] + Fill(1, 2) + [Bucket(2, 5)] == [Bucket(0, 10), Bucket(1, 0), Bucket(2, 5)];
  }

  /**
   * Two different users who share the name "ana", each with a row in week 1,
   * as the weekly query returns them: the rows are not well ordered, and the
   * loop appends both to one series, so week 1 appears twice and the series
   * is one bucket longer than its last week plus one.
   */
  lemma {:induction false} DuplicateNamesExample()
    ensures var rows := [Row(1, "ana", 5), Row(1, "ana", 7)];
      && !WellOrdered(rows)
      && Group(rows).stats == map["ana" := [Bucket(0, 0), Bucket(1, 5), Bucket(1, 7)]]
  {
    var rows := [Row(1, "ana", 5), Row(1, "ana", 7)];
    assert rows[0].user == rows[1].user && rows[0].week == rows[1].week;
    assert rows[..1] == [Row(1, "ana", 5)];
    assert [Row(1, "ana", 5)][..0] == [];
    var g1 := Group([Row(1, "ana", 5)]);
    assert g1 == GroupStep(Grouping(map[], 0), Row(1, "ana", 5));
    assert Fill(0, 1) == [Bucket(0, 0)] by {
      assert Fill(0, 0) == [];
    }
    assert [] + Fill(0, 1) + [Bucket(1, 5)] == [Bucket(0, 0), Bucket(1, 5)];
    assert g1 == Grouping(map["ana" := [Bucket(0, 0), Bucket(1, 5)]], 2);
    assert Fill(2, 1) == [];
    assert Group(rows) == GroupStep(g1, Row(1, "ana", 7));
    assert [Bucket(0, 0), Bucket(1, 5)] + Fill(2, 1) + [Bucket(1, 7)] == [Bucket(0, 0), Bucket(1, 5), Bucket(1, 7)];
  }

  /**
   * One iteration of the grouping loop: start a new series when the user is
   * new, pad it with zero buckets up to the row's week, then append the row.
   */
  method PlaceRow(stats0: Stats, weekIdx0: int, row: Row) returns (stats: Stats, weekIdx: int)
    ensures Grouping(stats, weekIdx) == GroupStep(Grouping(stats0, weekIdx0), row)
  {
    stats, weekIdx := stats0, weekIdx0;
    if row.user !in stats {
      stats := stats[row.user := []];
      weekIdx := 0; // rows are ordered by user first
    }
    ghost var start, before, s0 := weekIdx, stats[row.user], stats;
    assert Fill(start, weekIdx) == [] && before + [] == before;
    assert s0[row.user := before + Fill(start, weekIdx)] == s0;
    // fill empty weeks up to the row's week
    while weekIdx < row.week
      invariant start <= weekIdx && (start < row.week ==> weekIdx <= row.week)
      invariant start >= row.week ==> weekIdx == start
      invariant stats == s0[row.user := before + Fill(start, weekIdx)]
    {
      assert Fill(start, weekIdx + 1) == Fill(start, weekIdx) + [Bucket(weekIdx, 0)];
      assert stats[row.user] + [Bucket(weekIdx, 0)] == before + Fill(start, weekIdx + 1);
      stats := stats[row.user := stats[row.user] + [Bucket(weekIdx, 0)]];
      weekIdx := weekIdx + 1;
    }
    assert Fill(start, weekIdx) == Fill(start, row.week);
    stats := stats[row.user := stats[row.user] + [Bucket(row.week, row.value)]];
    weekIdx := weekIdx + 1;
    assert stats == stats0[row.user := before + Fill(start, row.week) + [Bucket(row.week, row.value)]];
  }

  /**
   * getWeeklyDistanceStats / getWeeklyCountStats: the grouping loop with its
   * `weekIdx` counter and the nested fill loop.
   */
  method GroupWeekly(rows: seq<Row>) returns (stats: Stats)
    ensures stats == Group(rows).stats
    ensures Grouped(rows, stats)
  {
    var weekIdx := 0;
    stats := map[];
    var i := 0;
    while i < |rows|
      invariant 0 <= i <= |rows|
      invariant Grouping(stats, weekIdx) == Group(rows[..i])
    {
      stats, weekIdx := PlaceRow(stats, weekIdx, rows[i]);
      assert rows[..i + 1][..i] == rows[..i];
      i := i + 1;
    }
    assert rows[..i] == rows;
    GroupProperties(rows);
  }

  // ---------------------------------------------------------------------
  // Grouping without gap filling (the older getWeeklyDistanceStats)

  /** The buckets of user `u`'s rows, in input order. */
  function UserBuckets(rows: seq<Row>, u: string): seq<Bucket> {
    if rows == [] then []
    else
      var r := rows[|rows| - 1];
      UserBuckets(rows[..|rows| - 1], u) + (if r.user == u then [Bucket(r.week, r.value)] else [])
  }

  /** A user has a non-empty list exactly when it has a row, and the list sums to the user's total. */
  lemma {:induction false} UserBucketsShape(rows: seq<Row>, u: string)
    ensures (UserBuckets(rows, u) != []) == (u in Users(rows))
    ensures |UserBuckets(rows, u)| <= |rows|
    ensures Total(UserBuckets(rows, u)) == UserTotal(rows, u)
  {
    if rows != [] {
      var p, r := rows[..|rows| - 1], rows[|rows| - 1];
      UserBucketsShape(p, u);
      assert rows == p + [r];
      UsersSnoc(p, r);
      var extra: seq<Bucket> := if r.user == u then [Bucket(r.week, r.value)] else [];
      TotalConcat(UserBuckets(p, u), extra);
      if r.user == u {
        assert Total(extra) == Total(extra[..0]) + r.value;
      }
    }
  }

  /** Sum of the lengths of all series of a map. */
  ghost function TotalLength(m: Stats): nat
    decreases |m.Keys|
  {
    if m.Keys == {} then 0
    else
      var u :| u in m;
      assert |(m - {u}).Keys| < |m.Keys| by {
        assert (m - {u}).Keys == m.Keys - {u};
      }
      |m[u]| + TotalLength(m - {u})
  }

  lemma {:induction false} TotalLengthRemove(m: Stats, u: string)
    requires u in m
    ensures TotalLength(m) == |m[u]| + TotalLength(m - {u})
    decreases |m.Keys|
  {
    var v :| v in m && TotalLength(m) == |m[v]| + TotalLength(m - {v});
    if v != u {
      var mv, mu := m - {v}, m - {u};
      assert mv.Keys == m.Keys - {v} && u in mv && mv[u] == m[u];
      assert mu.Keys == m.Keys - {u} && v in mu && mu[v] == m[v];
      TotalLengthRemove(mv, u);
      TotalLengthRemove(mu, v);
      assert mv - {u} == mu - {v};
    }
  }

  lemma {:induction false} TotalLengthUpdate(m: Stats, u: string, s: seq<Bucket>)
    ensures TotalLength(m[u := s]) == TotalLength(m) - (if u in m then |m[u]| else 0) + |s|
  {
    var m' := m[u := s];
    TotalLengthRemove(m', u);
    if u in m {
      TotalLengthRemove(m, u);
      assert m' - {u} == m - {u};
    } else {
      assert m' - {u} == m;
    }
  }

  /** `stats` holds each user's rows of `rows` as a list, and nothing else. */
  ghost predicate ListedByUser(stats: Stats, rows: seq<Row>) {
    ListedEntries(stats, rows) && ListedSize(stats, rows)
  }

  /** Each user's list is that user's rows; users without a list have none. */
  ghost predicate ListedEntries(stats: Stats, rows: seq<Row>) {
    && (forall u :: u in stats ==> stats[u] == UserBuckets(rows, u))
    && (forall u :: u !in stats ==> UserBuckets(rows, u) == [])
  }

  /** The keys are the users seen, and the lists hold all the rows between them. */
  ghost predicate ListedSize(stats: Stats, rows: seq<Row>) {
    stats.Keys == Users(rows) && TotalLength(stats) == |rows|
  }

  lemma {:induction false} ListedIsByUser(stats: Stats, rows: seq<Row>)
    requires ListedByUser(stats, rows)
    ensures stats == ByUser(rows)
  {
  }

  lemma {:induction false} UserBucketsSnoc(rows: seq<Row>, row: Row, u: string)
    ensures UserBuckets(rows + [row], u) == UserBuckets(rows, u) + (if row.user == u then [Bucket(row.week, row.value)] else [])
  {
    assert (rows + [row])[..|rows|] == rows;
  }

  /** One pass of the older grouping loop: the row is appended to its user's list. */
  lemma {:induction false} ListedByUserSnoc(stats: Stats, rows: seq<Row>, row: Row, stats': Stats)
    requires ListedByUser(stats, rows)
    requires stats' == stats[row.user := (if row.user in stats then stats[row.user] else []) + [Bucket(row.week, row.value)]]
    ensures ListedByUser(stats', rows + [row])
  {
    ListedEntriesSnoc(stats, rows, row, stats');
    ListedSizeSnoc(stats, rows, row, stats');
  }

  lemma {:induction false} ListedEntriesSnoc(stats: Stats, rows: seq<Row>, row: Row, stats': Stats)
    requires ListedEntries(stats, rows)
    requires stats' == stats[row.user := (if row.user in stats then stats[row.user] else []) + [Bucket(row.week, row.value)]]
    ensures ListedEntries(stats', rows + [row])
  {
    forall u | u in stats'
      ensures stats'[u] == UserBuckets(rows + [row], u)
    {
      ListedEntrySnoc(stats, rows, row, stats', u);
    }
    forall u | u !in stats'
      ensures UserBuckets(rows + [row], u) == []
    {
      ListedEntrySnoc(stats, rows, row, stats', u);
    }
  }

  lemma {:induction false} ListedSizeSnoc(stats: Stats, rows: seq<Row>, row: Row, stats': Stats)
    requires ListedSize(stats, rows)
    requires stats' == stats[row.user := (if row.user in stats then stats[row.user] else []) + [Bucket(row.week, row.value)]]
    ensures ListedSize(stats', rows + [row])
  {
    UsersSnoc(rows, row);
    TotalLengthUpdate(stats, row.user, stats'[row.user]);
  }

  /** One user's entry after the older loop appends `row`. */
  lemma {:induction false} ListedEntrySnoc(stats: Stats, rows: seq<Row>, row: Row, stats': Stats, u: string)
    requires u in stats ==> stats[u] == UserBuckets(rows, u)
    requires u !in stats ==> UserBuckets(rows, u) == []
    requires stats' == stats[row.user := (if row.user in stats then stats[row.user] else []) + [Bucket(row.week, row.value)]]
    ensures u in stats' ==> stats'[u] == UserBuckets(rows + [row], u)
    ensures u !in stats' ==> UserBuckets(rows + [row], u) == []
  {
    UserBucketsSnoc(rows, row, u);
    if u != row.user && u in stats {
      assert stats'[u] == stats[u] == UserBuckets(rows, u) + [];
    }
  }

  /** One iteration of the older grouping loop keeps `ListedByUser`. */
  lemma {:induction false} ListedByUserStep(stats: Stats, rows: seq<Row>, i: int, stats': Stats)
    requires 0 <= i < |rows|
    requires ListedByUser(stats, rows[..i])
    requires stats' == stats[rows[i].user := (if rows[i].user in stats then stats[rows[i].user] else []) + [Bucket(rows[i].week, rows[i].value)]]
    ensures ListedByUser(stats', rows[..i + 1])
  {
    assert rows[..i + 1] == rows[..i] + [rows[i]];
    ListedByUserSnoc(stats, rows[..i], rows[i], stats');
  }

  /** Each user's rows as buckets, in input order, one entry per user. */
  function ByUser(rows: seq<Row>): (m: Stats)
    ensures m.Keys == Users(rows)
  {
    map u | u in Users(rows) :: UserBuckets(rows, u)
  }

  /** Every list of the older grouping is non-empty and sums to its user's total. */
  lemma {:induction false} ByUserShape(rows: seq<Row>)
    ensures Totals(rows, ByUser(rows))
  {
    forall u | u in ByUser(rows)
      ensures ByUser(rows)[u] != [] && Total(ByUser(rows)[u]) == UserTotal(rows, u)
    {
      UserBucketsShape(rows, u);
    }
  }

  /**
   * The older grouping loop: each user's list is exactly that user's rows in
   * input order, and the list lengths add up to the number of rows.
   */
  method GroupByUser(rows: seq<Row>) returns (stats: Stats)
    ensures stats == ByUser(rows)
    ensures TotalLength(stats) == |rows|
  {
    stats := map[];
    var i := 0;
    assert ListedByUser(stats, rows[..i]) by {
      assert TotalLength(stats) == 0;
    }
    while i < |rows|
      invariant 0 <= i <= |rows|
      invariant ListedByUser(stats, rows[..i])
    {
      var row := rows[i];
      ghost var stats0 := stats;
      if row.user !in stats {
        stats := stats[row.user := []];
      }
      stats := stats[row.user := stats[row.user] + [Bucket(row.week, row.value)]];
      ListedByUserStep(stats0, rows, i, stats);
      i := i + 1;
    }
    assert rows[..i] == rows;
    ListedIsByUser(stats, rows);
  }

  // ---------------------------------------------------------------------
  // Cumulative transform and trailing alignment

  /** Every bucket's value replaced by the running sum up to it. */
  function PrefixSums(s: seq<Bucket>): (r: seq<Bucket>)
    ensures |r| == |s|
    ensures forall i :: 0 <= i < |s| ==> r[i].week == s[i].week
  {
    if s == [] then [] else PrefixSums(s[..|s| - 1]) + [Bucket(s[|s| - 1].week, Total(s))]
  }

  lemma {:induction false} PrefixSumsAt(s: seq<Bucket>, i: int)
    requires 0 <= i < |s|
    ensures PrefixSums(s)[i].value == Total(s[..i + 1])
    decreases |s|
  {
    if i < |s| - 1 {
      var p := s[..|s| - 1];
      PrefixSumsAt(p, i);
      assert p[..i + 1] == s[..i + 1];
    } else {
      assert s[..i + 1] == s;
    }
  }

  /** Taking differences of consecutive running sums gives back the original values. */
  lemma {:induction false} PrefixSumsDifferences(s: seq<Bucket>, i: int)
    requires 0 <= i < |s|
    ensures PrefixSums(s)[i].value - (if i == 0 then 0 else PrefixSums(s)[i - 1].value) == s[i].value
  {
    PrefixSumsAt(s, i);
    var q := s[..i + 1];
    assert q[..|q| - 1] == s[..i] && q[|q| - 1] == s[i];
    assert Total(q) == Total(s[..i]) + s[i].value;
    if i > 0 {
      PrefixSumsAt(s, i - 1);
    } else {
      assert s[..0] == [];
    }
  }

  /** Running sums of non-negative values never decrease. */
  lemma {:induction false} PrefixSumsMonotone(s: seq<Bucket>)
    requires forall i :: 0 <= i < |s| ==> s[i].value >= 0
    ensures forall i, j :: 0 <= i <= j < |s| ==> PrefixSums(s)[i].value <= PrefixSums(s)[j].value
  {
    forall i, j | 0 <= i <= j < |s|
      ensures PrefixSums(s)[i].value <= PrefixSums(s)[j].value
    {
      var k := i;
      while k < j
        invariant i <= k <= j
        invariant PrefixSums(s)[i].value <= PrefixSums(s)[k].value
      {
        PrefixSumsDifferences(s, k + 1);
        k := k + 1;
      }
    }
  }

  /** The running-sum series, followed by a flat point at `latest` when the series stops earlier. */
  function AlignedCumulative(s: seq<Bucket>, latest: int): (r: seq<Bucket>)
    requires s != []
    ensures |r| == |s| + (if LastWeek(s) < latest then 1 else 0)
    ensures r[|r| - 1] == Bucket(Max(LastWeek(s), latest), Total(s))
  {
    var c := PrefixSums(s);
    if LastWeek(s) < latest then c + [Bucket(latest, Total(s))] else c
  }

  /**
   * The aligned cumulative series keeps the weeks of the original series,
   * holds the running sums, ends at `latest` with the user's total, and grows
   * by exactly one bucket only when the original series ended earlier.
   */
  lemma {:induction false} AlignedCumulativeShape(s: seq<Bucket>, latest: int)
    requires s != [] && LastWeek(s) <= latest
    ensures var r := AlignedCumulative(s, latest);
      && |r| == |s| + (if LastWeek(s) < latest then 1 else 0)
      && (forall i :: 0 <= i < |s| ==> r[i].week == s[i].week && r[i].value == Total(s[..i + 1]))
      && r[|r| - 1] == Bucket(latest, Total(s))
  {
    var r := AlignedCumulative(s, latest);
    forall i | 0 <= i < |s| ensures r[i].week == s[i].week && r[i].value == Total(s[..i + 1]) {
      PrefixSumsAt(s, i);
    }
    PrefixSumsAt(s, |s| - 1);
    assert s[..|s|] == s;
  }

  /** With non-negative values the aligned cumulative series never decreases. */
  lemma {:induction false} AlignedCumulativeMonotone(s: seq<Bucket>, latest: int)
    requires s != [] && LastWeek(s) <= latest
    requires forall i :: 0 <= i < |s| ==> s[i].value >= 0
    ensures var r := AlignedCumulative(s, latest);
      forall i, j :: 0 <= i <= j < |r| ==> r[i].value <= r[j].value
  {
    var c := PrefixSums(s);
    PrefixSumsMonotone(s);
    PrefixSumsAt(s, |s| - 1);
    assert s[..|s|] == s;
    AlignedCumulativeShape(s, latest);
  }

  /**
   * `r` is a cumulative series for the weekly series `s` aligned to week
   * `latest`: it never decreases, keeps the weeks of `s` and is one point
   * longer exactly when `s` ends before `latest`.
   */
  ghost predicate CumulativeShape(s: seq<Bucket>, latest: int, r: seq<Bucket>)
    requires s != []
  {
    && (forall i, j :: 0 <= i <= j < |r| ==> r[i].value <= r[j].value)
    && |r| == |s| + (if LastWeek(s) < latest then 1 else 0)
    && (forall i :: 0 <= i < |s| ==> r[i].week == s[i].week)
  }

  /** One user's aligned cumulative series, summarised for the dashboards. */
  lemma {:induction false} AlignedCumulativeFacts(s: seq<Bucket>, latest: int)
    requires s != [] && LastWeek(s) <= latest
    requires NonNegative(s)
    ensures CumulativeShape(s, latest, AlignedCumulative(s, latest))
  {
    AlignedCumulativeMonotone(s, latest);
    AlignedCumulativeShape(s, latest);
  }

  /** The cumulative pass over non-negative weekly series has that shape for every user. */
  lemma {:induction false} CumulatedShape(weekly: Stats, cumulative: Stats)
    requires forall u :: u in weekly ==> weekly[u] != [] && NonNegative(weekly[u])
    requires Cumulated(weekly, cumulative)
    ensures forall u :: u in cumulative ==> u in weekly && CumulativeShape(weekly[u], MaxLastWeek(weekly), cumulative[u])
  {
    var latest := MaxLastWeek(weekly);
    MaxLastWeekIsLatest(weekly);
    forall u | u in cumulative
      ensures u in weekly && CumulativeShape(weekly[u], latest, cumulative[u])
    {
      AlignedCumulativeFacts(weekly[u], latest);
    }
  }

  /** The `latestWeek` of the cumulative pass: the largest last week, starting from 0. */
  ghost function MaxLastWeek(stats: Stats): (latest: int)
    requires forall u :: u in stats ==> stats[u] != []
    ensures 0 <= latest
    ensures stats == map[] ==> latest == 0
    decreases |stats.Keys|
  {
    if stats.Keys == {} then 0
    else
      var u :| u in stats;
      assert |(stats - {u}).Keys| < |stats.Keys| by {
        assert (stats - {u}).Keys == stats.Keys - {u};
      }
      Max(LastWeek(stats[u]), MaxLastWeek(stats - {u}))
  }

  ghost predicate IsLatestWeek(stats: Stats, latest: int)
    requires forall u :: u in stats ==> stats[u] != []
  {
    && 0 <= latest
    && (forall u :: u in stats ==> LastWeek(stats[u]) <= latest)
    && (latest == 0 || exists u :: u in stats && LastWeek(stats[u]) == latest)
  }

  lemma {:induction false} MaxLastWeekIsLatest(stats: Stats)
    requires forall u :: u in stats ==> stats[u] != []
    ensures IsLatestWeek(stats, MaxLastWeek(stats))
    decreases |stats.Keys|
  {
    if stats.Keys != {} {
      var u :| u in stats && MaxLastWeek(stats) == Max(LastWeek(stats[u]), MaxLastWeek(stats - {u}));
      var rest := stats - {u};
      assert rest.Keys == stats.Keys - {u};
      MaxLastWeekIsLatest(rest);
      var m, m' := MaxLastWeek(stats), MaxLastWeek(rest);
      assert m == Max(LastWeek(stats[u]), m');
      assert m' <= m && LastWeek(stats[u]) <= m;
      forall v | v in stats ensures LastWeek(stats[v]) <= m {
        if v != u {
          assert v in rest && rest[v] == stats[v];
        }
      }
      if m != 0 {
        if m == LastWeek(stats[u]) {
          assert u in stats && LastWeek(stats[u]) == m;
        } else {
          assert m == m' != 0;
          var v :| v in rest && LastWeek(rest[v]) == m';
          assert v in stats && LastWeek(stats[v]) == m;
        }
      }
    }
  }

  lemma {:induction false} LatestWeekUnique(stats: Stats, a: int, b: int)
    requires forall u :: u in stats ==> stats[u] != []
    requires IsLatestWeek(stats, a) && IsLatestWeek(stats, b)
    ensures a == b
  {
  }

  /** The first loop of the cumulative pass: the latest last week over all users. */
  method LatestWeek(stats: Stats) returns (latest: int)
    requires forall u :: u in stats ==> stats[u] != []
    ensures latest == MaxLastWeek(stats)
    ensures 0 <= latest && forall u :: u in stats ==> LastWeek(stats[u]) <= latest
  {
    latest := 0;
    var remaining := stats.Keys;
    while remaining != {}
      invariant remaining <= stats.Keys
      invariant 0 <= latest
      invariant forall u :: u in stats && u !in remaining ==> LastWeek(stats[u]) <= latest
      invariant latest == 0 || exists u :: u in stats && u !in remaining && LastWeek(stats[u]) == latest
      decreases remaining
    {
      var u :| u in remaining;
      var series := stats[u];
      if latest < series[|series| - 1].week {
        latest := series[|series| - 1].week;
      }
      remaining := remaining - {u};
    }
    MaxLastWeekIsLatest(stats);
    LatestWeekUnique(stats, latest, MaxLastWeek(stats));
  }

  /** One step of the running-sum loop: position `idx` turns into its running sum. */
  lemma {:induction false} PrefixSumsStep(series: seq<Bucket>, idx: int)
    requires 0 <= idx < |series|
    ensures Total(series[..idx + 1]) == Total(series[..idx]) + series[idx].value
    ensures var before := PrefixSums(series[..idx]) + series[idx..];
      PrefixSums(series[..idx + 1]) + series[idx + 1..]
        == before[idx := Bucket(before[idx].week, Total(series[..idx + 1]))]
  {
    var p, q := series[..idx], series[..idx + 1];
    assert q[..idx] == p;
    assert PrefixSums(q) == PrefixSums(p) + [Bucket(series[idx].week, Total(q))];
    assert series[idx..] == [series[idx]] + series[idx + 1..];
  }

  /**
   * The in-place running-sum loop over one user's series; `cumulative` ends
   * as the user's total.
   */
  method Accumulate(series: seq<Bucket>) returns (sums: seq<Bucket>, cumulative: int)
    ensures sums == PrefixSums(series)
    ensures cumulative == Total(series)
  {
    sums := series;
    cumulative := 0;
    var idx := 0;
    while idx < |sums|
      invariant 0 <= idx <= |series| == |sums|
      invariant sums == PrefixSums(series[..idx]) + series[idx..]
      invariant cumulative == Total(series[..idx])
    {
      PrefixSumsStep(series, idx);
      cumulative := cumulative + sums[idx].value;
      sums := sums[idx := Bucket(sums[idx].week, cumulative)];
      idx := idx + 1;
    }
    assert series[..idx] == series;
  }

  /**
   * The cumulative pass applied to `stats`: same users, each series replaced by
   * its aligned running sums, ending at the latest week with the user's total.
   */
  ghost predicate Cumulated(stats: Stats, result: Stats)
    requires forall u :: u in stats ==> stats[u] != []
  {
    && result.Keys == stats.Keys
    && (forall u :: u in stats ==> result[u] == AlignedCumulative(stats[u], MaxLastWeek(stats)))
    && (forall u :: u in stats ==>
          result[u] != [] && result[u][|result[u]| - 1] == Bucket(MaxLastWeek(stats), Total(stats[u])))
  }

  /**
   * getWeeklyCumulativeDistanceStats / getWeeklyCumulativeCountStats after
   * the error check: running sums in place per user, then the flat point at
   * the latest week for every user whose series ends earlier.
   */
  method CumulativeAlign(stats: Stats) returns (result: Stats)
    requires forall u :: u in stats ==> stats[u] != []
    ensures Cumulated(stats, result)
  {
    var latestWeek := LatestWeek(stats);
    result := stats;
    var remaining := stats.Keys;
    while remaining != {}
      invariant remaining <= stats.Keys
      invariant result.Keys == stats.Keys
      invariant forall u :: u in remaining ==> result[u] == stats[u]
      invariant forall u :: u in stats && u !in remaining ==> result[u] == AlignedCumulative(stats[u], latestWeek)
      decreases remaining
    {
      var user :| user in remaining;
      var series, cumulative := Accumulate(result[user]);
      if series[|series| - 1].week < latestWeek {
        // everyone gets the last week point
        series := series + [Bucket(latestWeek, cumulative)];
      }
      result := result[user := series];
      remaining := remaining - {user};
    }
    forall u | u in stats
      ensures result[u] != [] && result[u][|result[u]| - 1] == Bucket(MaxLastWeek(stats), Total(stats[u]))
    {
      AlignedCumulativeShape(stats[u], latestWeek);
    }
  }

  /** One non-empty series per user of the rows, summing to that user's total. */
  ghost predicate Totals(rows: seq<Row>, stats: Stats) {
    && stats.Keys == Users(rows)
    && forall u :: u in stats ==> stats[u] != [] && Total(stats[u]) == UserTotal(rows, u)
  }

  /**
   * Every cumulative series ends with the user's total, and all of them end
   * at the same week.
   */
  ghost predicate EndsAtTotals(rows: seq<Row>, result: Stats) {
    && result.Keys == Users(rows)
    && (forall u :: u in result ==> result[u] != [] && result[u][|result[u]| - 1].value == UserTotal(rows, u))
    && (forall u, v :: u in result && v in result ==> LastWeek(result[u]) == LastWeek(result[v]))
  }

  lemma {:induction false} GroupedTotals(rows: seq<Row>, stats: Stats)
    requires Grouped(rows, stats)
    ensures Totals(rows, stats)
  {
  }

  /**
   * The cumulative pass over per-user series that sum to the users' totals
   * ends every user at their total, on the latest week of anyone.
   */
  lemma {:induction false} CumulatedTotals(rows: seq<Row>, stats: Stats, result: Stats)
    requires Totals(rows, stats)
    requires Cumulated(stats, result)
    ensures EndsAtTotals(rows, result)
  {
    forall u | u in result
      ensures result[u] != [] && result[u][|result[u]| - 1].value == UserTotal(rows, u)
    {
      assert result[u][|result[u]| - 1] == Bucket(MaxLastWeek(stats), Total(stats[u]));
    }
    forall u, v | u in result && v in result
      ensures LastWeek(result[u]) == LastWeek(result[v])
    {
      assert LastWeek(result[u]) == MaxLastWeek(stats);
    }
  }
}
