/**
 * Display helpers of the templates (actions/render.go): the human-readable
 * duration, and the guards of the speed and pace columns.
 *
 * `SecondsToHuman` also stands for `secondsToHuman` of actions/dashboard.go,
 * which is the same code.
 */
module Render {
  import opened GoStrconv

  // ---------------------------------------------------------------------
  // Duration

  /** Go's `%` on ints: truncates towards zero, so the remainder takes the sign of `a`. */
  function GoRem(a: int, b: int): (r: int)
    requires b > 0
    ensures -b < r < b
    ensures a >= 0 ==> r == a % b
    ensures a < 0 ==> r <= 0 && -r == (-a) % b
  {
    if a >= 0 then a % b else -((-a) % b)
  }

  // `math.Floor(float64(x) / k)` for a positive integer `k` is modelled as
  // floor division, Dafny's `/` with a positive divisor. That agrees with
  // Go while |x| < 2^53; beyond it `float64(x)` and the quotient round, and
  // Go's days can exceed the floor by one.

  /** Minutes within the hour: the floor of the truncated remainder by 3600, over 60. */
  function Minutes(duration: int): (m: int)
    ensures -60 <= m < 60
    ensures duration >= 0 ==> 0 <= m && 60 * m <= duration % 3600 < 60 * (m + 1)
  {
    GoRem(duration, 3600) / 60
  }

  /** Hours within the day: the floor of the truncated remainder by 86400, over 3600. */
  function Hours(duration: int): (h: int)
    ensures -24 <= h < 24
    ensures duration >= 0 ==> 0 <= h && 3600 * h <= duration % 86400 < 3600 * (h + 1)
  {
    GoRem(duration, 86400) / 3600
  }

  /** Whole days: the floor of the duration over 86400. */
  function Days(duration: int): (d: int)
    ensures 86400 * d <= duration < 86400 * (d + 1)
  {
    duration / 86400
  }

  /**
   * SecondsToHuman: "0" for zero, otherwise "Nd HHhMMm" when there are whole
   * days, else "HHhMMm" when there are whole hours, else "MMm"; leftover
   * seconds are dropped.
   */
  function SecondsToHuman(duration: int): (r: string)
    ensures (r == "0") == (duration == 0)
    ensures duration != 0 ==> |r| >= 3 && r[|r| - 1] == 'm'
  {
    if duration == 0 then "0"
    else
      var minutes, hours, days := Minutes(duration), Hours(duration), Days(duration);
      if days > 0 then FormatInt(days) + "d " + Pad2(hours) + "h" + Pad2(minutes) + "m"
      else if hours > 0 then Pad2(hours) + "h" + Pad2(minutes) + "m"
      else Pad2(minutes) + "m"
  }

  /** Whole days and the rest of the day, from the whole minutes. */
  lemma {:induction false} DaysOfMinutes(d: int)
    requires d >= 0
    ensures d / 86400 == (d / 60) / 1440
    ensures d % 86400 == 60 * ((d / 60) % 1440) + d % 60
  {
    var q, s := d / 60, d % 60;
    var days, m := q / 1440, q % 1440;
    assert d == 86400 * days + (60 * m + s);
    assert 0 <= 60 * m + s < 86400;
  }

  /** Hours within the day, from the whole minutes. */
  lemma {:induction false} HoursOfMinutes(d: int)
    requires d >= 0
    ensures (d % 86400) / 3600 == ((d / 60) % 1440) / 60
  {
    DaysOfMinutes(d);
    var m, s := (d / 60) % 1440, d % 60;
    var h, mi := m / 60, m % 60;
    assert d % 86400 == 3600 * h + (60 * mi + s);
    assert 0 <= 60 * mi + s < 3600;
  }

  /** Minutes within the hour, from the whole minutes. */
  lemma {:induction false} MinutesOfMinutes(d: int)
    requires d >= 0
    ensures d % 3600 == 60 * ((d / 60) % 60) + d % 60
  {
    var q, s := d / 60, d % 60;
    var h, mi := q / 60, q % 60;
    assert d == 3600 * h + (60 * mi + s);
    assert 0 <= 60 * mi + s < 3600;
  }

  /** The remainder by 60 of `60 * k + c`, for `c` a valid remainder. */
  lemma {:induction false} RemainderOf60(x: int, k: int, c: int)
    requires x == 60 * k + c && 0 <= c < 60
    ensures x % 60 == c
  {
  }

  /** The minute within the hour is the same counted within the day. */
  lemma {:induction false} MinuteOfDay(q: int)
    requires q >= 0
    ensures q % 1440 == 60 * ((q % 1440) / 60) + q % 60
  {
    var a, r := q / 1440, q % 1440;
    var b, c := r / 60, r % 60;
    assert q == 1440 * a + r;
    assert r == 60 * b + c && 0 <= c < 60;
    RemainderOf60(q, 24 * a + b, c);
  }

  /**
   * For a non-negative duration the three fields and the dropped seconds
   * add back up to the duration, hours stay below 24 and minutes below 60;
   * all three are functions of the whole minutes `duration / 60`.
   */
  lemma {:induction false} Decomposition(duration: int)
    requires duration >= 0
    ensures Days(duration) * 86400 + Hours(duration) * 3600 + Minutes(duration) * 60 + duration % 60 == duration
    ensures 0 <= Hours(duration) < 24 && 0 <= Minutes(duration) < 60 && Days(duration) >= 0
    ensures Minutes(duration) == (duration / 60) % 60
    ensures Hours(duration) == ((duration / 60) % 1440) / 60
    ensures Days(duration) == (duration / 60) / 1440
  {
    DaysOfMinutes(duration);
    HoursOfMinutes(duration);
    MinutesOfMinutes(duration);
    var q := duration / 60;
    var days, hours, minutes := q / 1440, (q % 1440) / 60, q % 60;
    assert Days(duration) == days && Hours(duration) == hours && Minutes(duration) == minutes;
    MinuteOfDay(q);
    assert q == 1440 * days + 60 * hours + minutes;
  }

  /** Any duration of one to 59 seconds shows as zero minutes. */
  lemma {:induction false} UnderAMinute(duration: int)
    requires 1 <= duration <= 59
    ensures SecondsToHuman(duration) == "00m"
  {
    assert Minutes(duration) == 0 && Hours(duration) == 0 && Days(duration) == 0;
  }

  lemma {:induction false} DaysLayout(d: string, h: string, m: string)
    requires |h| == 2 && |m| == 2
    ensures var r := d + "d " + h + "h" + m + "m";
      |r| == |d| + 8 && r[..|d|] == d && r[|d| + 2..|d| + 4] == h && r[|d| + 5..|d| + 7] == m
  {
  }

  lemma {:induction false} HoursLayout(h: string, m: string)
    requires |h| == 2 && |m| == 2
    ensures var r := h + "h" + m + "m";
      |r| == 6 && r[..2] == h && r[3..5] == m
  {
  }

  /**
   * The three formats, told apart by their lengths: "Nd HHhMMm" is at least
   * nine characters, "HHhMMm" six and "MMm" three.
   */
  lemma {:induction false} FormatByBranch(duration: int)
    requires duration > 0
    ensures var r := SecondsToHuman(duration);
      && (Days(duration) > 0 ==> |r| == |FormatInt(Days(duration))| + 8 >= 9)
      && (Days(duration) == 0 && Hours(duration) > 0 ==> |r| == 6)
      && (Days(duration) == 0 && Hours(duration) == 0 ==> |r| == 3)
  {
    Decomposition(duration);
    var h, m := Pad2(Hours(duration)), Pad2(Minutes(duration));
    if Days(duration) > 0 {
      DaysLayout(FormatInt(Days(duration)), h, m);
    } else if Hours(duration) > 0 {
      HoursLayout(h, m);
    }
  }

  /** Digits of different naturals differ. */
  lemma {:induction false} DigitsInjective(m: nat, n: nat)
    requires Digits(m) == Digits(n)
    ensures m == n
  {
    assert DigitsValue(Digits(m)) == m;
  }

  /**
   * Two positive durations show the same text exactly when they have the
   * same number of whole minutes: the rendering loses the seconds and
   * nothing else.
   */
  lemma {:induction false} SecondsToHumanInjective(d1: int, d2: int)
    requires d1 >= 1 && d2 >= 1
    ensures SecondsToHuman(d1) == SecondsToHuman(d2) <==> d1 / 60 == d2 / 60
  {
    Decomposition(d1);
    Decomposition(d2);
    if SecondsToHuman(d1) == SecondsToHuman(d2) {
      SameTextSameFields(d1, d2);
      assert d1 / 60 == Days(d1) * 1440 + Hours(d1) * 60 + Minutes(d1);
      assert d2 / 60 == Days(d2) * 1440 + Hours(d2) * 60 + Minutes(d2);
    }
    if d1 / 60 == d2 / 60 {
      assert Days(d1) == Days(d2) && Hours(d1) == Hours(d2) && Minutes(d1) == Minutes(d2);
    }
  }

  lemma {:induction false} SameTextSameFields(d1: int, d2: int)
    requires d1 >= 1 && d2 >= 1
    requires SecondsToHuman(d1) == SecondsToHuman(d2)
    ensures Days(d1) == Days(d2) && Hours(d1) == Hours(d2) && Minutes(d1) == Minutes(d2)
  {
    Decomposition(d1);
    Decomposition(d2);
    FormatByBranch(d1);
    FormatByBranch(d2);
    var r := SecondsToHuman(d1);
    var h1, h2, m1, m2 := Pad2(Hours(d1)), Pad2(Hours(d2)), Pad2(Minutes(d1)), Pad2(Minutes(d2));
    if Days(d1) > 0 {
      var f1, f2 := FormatInt(Days(d1)), FormatInt(Days(d2));
      assert Days(d2) > 0;
      DaysLayout(f1, h1, m1);
      DaysLayout(f2, h2, m2);
      assert |f1| == |f2|;
      assert f1 == r[..|f1|] == f2;
      assert h1 == r[|f1| + 2..|f1| + 4] == h2;
      assert m1 == r[|f1| + 5..|f1| + 7] == m2;
      DigitsInjective(Days(d1), Days(d2));
    } else if Hours(d1) > 0 {
      assert Days(d2) == 0 && Hours(d2) > 0;
      HoursLayout(h1, m1);
      HoursLayout(h2, m2);
      assert h1 == r[..2] == h2;
      assert m1 == r[3..5] == m2;
    } else {
      assert Days(d2) == 0 && Hours(d2) == 0;
      assert m1 == r[..2] == m2;
    }
    Pad2Injective(Hours(d1), Hours(d2));
    Pad2Injective(Minutes(d1), Minutes(d2));
  }

  // ---------------------------------------------------------------------
  // Speed and pace

  /**
   * What a speed or pace cell shows: a dash, or the number computed from the
   * two inputs (the floating-point value itself is not modelled).
   */
  datatype Shown = Dash | Computed(distanceMeters: int, durationSeconds: int)

  /** speed: a dash for a zero duration, otherwise km/h from the two inputs. */
  function Speed(distanceMeters: int, durationSeconds: int): (r: Shown)
    ensures r.Dash? <==> durationSeconds == 0
    ensures r.Computed? ==> r.distanceMeters == distanceMeters && r.durationSeconds == durationSeconds
  {
    if durationSeconds == 0 then Dash else Computed(distanceMeters, durationSeconds)
  }

  /** pace: a dash for a zero duration or a zero distance, otherwise min:sec per km. */
  function Pace(distanceMeters: int, durationSeconds: int): (r: Shown)
    ensures r.Dash? <==> durationSeconds == 0 || distanceMeters == 0
    ensures r.Computed? ==> r.distanceMeters == distanceMeters && r.durationSeconds == durationSeconds
  {
    if durationSeconds == 0 || distanceMeters == 0 then Dash else Computed(distanceMeters, durationSeconds)
  }

  /** Whenever a pace is computed, so is the speed, and neither divides by zero. */
  lemma {:induction false} PaceGuardsSpeed(distanceMeters: int, durationSeconds: int)
    requires Pace(distanceMeters, durationSeconds).Computed?
    ensures Speed(distanceMeters, durationSeconds) == Pace(distanceMeters, durationSeconds)
    ensures distanceMeters != 0 && durationSeconds != 0
  {
  }
}
