/**
 * The user model (models/user.go): refreshing a user's OAuth tokens,
 * synchronising the user's activities into the store, and the activity
 * statistics of the profile page.
 *
 * The database connection is a `Store` whose writes are logged and whose
 * answers come from oracles; the token refresh of each OAuth provider and
 * the activity fetch function are oracles too, as is `ParseStravaActivity`,
 * which is not part of this model.
 */
module Models {
  import opened Wrappers
  import StravaClient

  // ---------------------------------------------------------------------
  // Entities

  /**
   * An activity as stored (models/activity.go). Times are whole seconds:
   * models/user.go adds them up as ints.
   */
  datatype Activity = Activity(
    provider: string,
    providerId: string,
    name: string,
    kind: string,
    datetime: int,
    distance: int,
    movingTime: int,
    elapsedTime: int)

  /** An access token and its refresh token, as an OAuth provider hands them out. */
  datatype Tokens = Tokens(accessToken: string, refreshToken: string)

  /** The fields of a user the sync path reads or writes, as one value. */
  datatype UserData = UserData(
    name: string,
    provider: string,
    providerId: string,
    accessToken: string,
    refreshToken: string)

  /** The registered OAuth providers by name, each as its token refresh call. */
  type Providers = map<string, string -> Result<Tokens, string>>

  /** The errors of the sync path, one constructor per `fmt.Errorf` or passed-on error. */
  datatype Error =
    | ConnectorProblem(provider: string)
    | NotRefreshed(user: string, cause: string)
    | SaveFailed(cause: string)
    | FetchFailed(user: string, cause: string)
    | ActivitiesFailed(providerIds: seq<string>)

  /** The ids joined by `sep`, as `strings.Join` does. */
  function Join(xs: seq<string>, sep: string): (r: string)
    ensures xs == [] ==> r == ""
    ensures xs != [] ==> |xs[0]| <= |r| && r[..|xs[0]|] == xs[0]
    ensures xs != [] ==> |xs[|xs| - 1]| <= |r| && r[|r| - |xs[|xs| - 1]|..] == xs[|xs| - 1]
  {
    if xs == [] then "" else if |xs| == 1 then xs[0] else Join(xs[..|xs| - 1], sep) + sep + xs[|xs| - 1]
  }

  /** `x` occurs in `r` starting at position `k`. */
  predicate OccursAt(x: string, r: string, k: int) {
    0 <= k <= |r| - |x| && r[k..k + |x|] == x
  }

  ghost predicate Occurs(x: string, r: string) {
    exists k :: OccursAt(x, r, k)
  }

  /** Every joined string appears in the result. */
  lemma {:induction false} JoinContains(xs: seq<string>, sep: string, i: int)
    requires 0 <= i < |xs|
    ensures Occurs(xs[i], Join(xs, sep))
  {
    var r := Join(xs, sep);
    if |xs| == 1 {
      assert OccursAt(xs[0], r, 0);
    } else if i == |xs| - 1 {
      assert OccursAt(xs[i], r, |r| - |xs[i]|);
    } else {
      var init := xs[..|xs| - 1];
      assert init[i] == xs[i];
      JoinContains(init, sep, i);
      var k :| OccursAt(xs[i], Join(init, sep), k);
      assert r == Join(init, sep) + (sep + xs[|xs| - 1]);
      OccursAtExtend(xs[i], Join(init, sep), sep + xs[|xs| - 1], k);
    }
  }

  /** An occurrence in `a` is still one in `a + b`. */
  lemma {:induction false} OccursAtExtend(x: string, a: string, b: string, k: int)
    requires OccursAt(x, a, k)
    ensures OccursAt(x, a + b, k)
  {
    assert (a + b)[k..k + |x|] == a[k..k + |x|];
  }

  /** The text of each error, as the `fmt.Errorf` calls word it (`%w` appends the cause). */
  function Message(e: Error): (r: string)
    ensures e.ActivitiesFailed? ==> forall i :: 0 <= i < |e.providerIds| ==> Occurs(e.providerIds[i], r)
  {
    match e
    case ConnectorProblem(p) => p + " connector is having a problem. Contact the admin"
    case NotRefreshed(user, cause) => "The accessToken for user '" + user + "' could not be refreshed. " + cause
    case SaveFailed(cause) => cause
    case FetchFailed(user, cause) => "Could not fetch latestActivities for user " + user + ". " + cause
    case ActivitiesFailed(ids) =>
      var prefix := "Error processing activities: ";
      var r := prefix + Join(ids, ", ");
      assert forall i :: 0 <= i < |ids| ==> Occurs(ids[i], r) by {
        forall i | 0 <= i < |ids|
          ensures Occurs(ids[i], r)
        {
          JoinContains(ids, ", ", i);
          var k :| OccursAt(ids[i], Join(ids, ", "), k);
          assert r[|prefix| + k..|prefix| + k + |ids[i]|] == ids[i];
          assert OccursAt(ids[i], r, |prefix| + k);
        }
      }
      r
  }

  // ---------------------------------------------------------------------
  // The store and the activity source

  /**
   * The database connection: `Save` of a user and `CreateOrUpdate` of an
   * activity are logged, and what each returns is fixed by an oracle.
   */
  class Store {
    const save: UserData -> Option<string>
    const upsert: Activity -> Option<string>
    var saves: seq<UserData>
    var upserts: seq<Activity>

    constructor(save: UserData -> Option<string>, upsert: Activity -> Option<string>)
      ensures this.save == save && this.upsert == upsert
      ensures saves == [] && upserts == []
    {
      this.save := save;
      this.upsert := upsert;
      saves := [];
      upserts := [];
    }

    /** tx.Save of a user. */
    method Save(u: UserData) returns (err: Option<string>)
      modifies this
      ensures saves == old(saves) + [u] && upserts == old(upserts)
      ensures err == save(u)
    {
      saves := saves + [u];
      err := save(u);
    }

    /** activity.CreateOrUpdate. */
    method CreateOrUpdate(a: Activity) returns (err: Option<string>)
      modifies this
      ensures upserts == old(upserts) + [a] && saves == old(saves)
      ensures err == upsert(a)
    {
      upserts := upserts + [a];
      err := upsert(a);
    }
  }

  /** The fetch function handed to SyncActivities; the access tokens it is called with are logged. */
  class ActivitySource {
    const fetch: string -> StravaClient.Page
    var calls: seq<string>

    constructor(fetch: string -> StravaClient.Page)
      ensures this.fetch == fetch && calls == []
    {
      this.fetch := fetch;
      calls := [];
    }

    method Fetch(accessToken: string) returns (activities: seq<StravaClient.SummaryActivity>, err: Option<string>)
      modifies this
      ensures calls == old(calls) + [accessToken]
      ensures StravaClient.Page(activities, err) == fetch(accessToken)
    {
      calls := calls + [accessToken];
      var p := fetch(accessToken);
      activities, err := p.activities, p.err;
    }
  }

  // ---------------------------------------------------------------------
  // Token refresh

  /** What a refresh decides before anything is written. */
  datatype Refresh = Fail(err: Error) | Unchanged | Replace(tokens: Tokens)

  /**
   * The decision of RefreshAccessToken: an unknown provider and a failed
   * refresh call are errors; a refreshed access token equal to the stored
   * one changes nothing; a different one replaces both tokens.
   */
  function RefreshPlan(providers: Providers, u: UserData): (r: Refresh)
    ensures r.Fail? <==> u.provider !in providers || providers[u.provider](u.refreshToken).Failure?
    ensures r.Replace? ==>
              && u.provider in providers
              && providers[u.provider](u.refreshToken) == Success(r.tokens)
              && r.tokens.accessToken != u.accessToken
  {
    if u.provider !in providers then Fail(ConnectorProblem(u.provider))
    else match providers[u.provider](u.refreshToken)
      case Failure(cause) => Fail(NotRefreshed(u.name, cause))
      case Success(t) => if u.accessToken != t.accessToken then Replace(t) else Unchanged
  }

  /** The user after the refresh: new tokens only when the plan replaces them. */
  function Refreshed(providers: Providers, u: UserData): (v: UserData)
    ensures v.name == u.name && v.provider == u.provider && v.providerId == u.providerId
  {
    match RefreshPlan(providers, u)
    case Replace(t) => u.(accessToken := t.accessToken, refreshToken := t.refreshToken)
    case _ => u
  }

  /** The error RefreshAccessToken returns: the plan's, or the save's when it replaces the tokens. */
  function RefreshError(providers: Providers, save: UserData -> Option<string>, u: UserData): (e: Option<Error>)
    ensures e.None? ==> u.provider in providers && providers[u.provider](u.refreshToken).Success?
    ensures e.Some? && e.value.SaveFailed? ==>
              RefreshPlan(providers, u).Replace? && save(Refreshed(providers, u)) == Some(e.value.cause)
    ensures RefreshPlan(providers, u).Replace? ==> (e.None? <==> save(Refreshed(providers, u)).None?)
  {
    match RefreshPlan(providers, u)
    case Fail(e) => Some(e)
    case Unchanged => None
    case Replace(_) =>
      match save(Refreshed(providers, u))
      case Some(cause) => Some(SaveFailed(cause))
      case None => None
  }

  /**
   * The four outcomes of a refresh: the tokens are written (and saved) if and
   * only if the provider is registered, its refresh call succeeds and the
   * access token it returns differs from the stored one; otherwise the user
   * is left as it was, whatever the new refresh token is.
   */
  lemma {:induction false} RefreshOutcomes(providers: Providers, save: UserData -> Option<string>, u: UserData)
    ensures u.provider !in providers ==>
              RefreshError(providers, save, u) == Some(ConnectorProblem(u.provider)) && Refreshed(providers, u) == u
    ensures u.provider in providers && providers[u.provider](u.refreshToken).Failure? ==>
              RefreshError(providers, save, u) == Some(NotRefreshed(u.name, providers[u.provider](u.refreshToken).error))
              && Refreshed(providers, u) == u
    ensures RefreshPlan(providers, u).Replace? <==>
              u.provider in providers && providers[u.provider](u.refreshToken).Success?
              && providers[u.provider](u.refreshToken).value.accessToken != u.accessToken
    ensures RefreshPlan(providers, u).Replace? ==>
              var t := providers[u.provider](u.refreshToken).value;
              Refreshed(providers, u).accessToken == t.accessToken && Refreshed(providers, u).refreshToken == t.refreshToken
    ensures !RefreshPlan(providers, u).Replace? ==> Refreshed(providers, u) == u
    ensures RefreshPlan(providers, u).Unchanged? ==> RefreshError(providers, save, u) == None
    ensures RefreshPlan(providers, u).Replace? ==>
              RefreshError(providers, save, u) ==
                (if save(Refreshed(providers, u)).Some? then Some(SaveFailed(save(Refreshed(providers, u)).value)) else None)
  {
  }

  /**
   * Refreshing twice in a row, with a provider that hands out the same
   * access token again, writes only the first time.
   */
  lemma {:induction false} RefreshSettles(providers: Providers, u: UserData)
    requires RefreshPlan(providers, u).Replace?
    requires var v := Refreshed(providers, u);
      providers[u.provider](v.refreshToken).Success?
      && providers[u.provider](v.refreshToken).value.accessToken == v.accessToken
    ensures RefreshPlan(providers, Refreshed(providers, u)) == Unchanged
    ensures Refreshed(providers, Refreshed(providers, u)) == Refreshed(providers, u)
  {
  }

  // ---------------------------------------------------------------------
  // Synchronisation

  /** The fetched activities as ParseStravaActivity turns them into stored ones, for user `u`. */
  function Parsed(parse: (StravaClient.SummaryActivity, UserData) -> Activity,
                  fetched: seq<StravaClient.SummaryActivity>, u: UserData): (acts: seq<Activity>)
    ensures |acts| == |fetched|
  {
    if fetched == [] then [] else Parsed(parse, fetched[..|fetched| - 1], u) + [parse(fetched[|fetched| - 1], u)]
  }

  lemma {:induction false} ParsedSnoc(parse: (StravaClient.SummaryActivity, UserData) -> Activity,
                   fetched: seq<StravaClient.SummaryActivity>, x: StravaClient.SummaryActivity, u: UserData)
    ensures Parsed(parse, fetched + [x], u) == Parsed(parse, fetched, u) + [parse(x, u)]
  {
    assert (fetched + [x])[..|fetched|] == fetched;
  }

  /** The provider ids of the activities whose CreateOrUpdate fails, in input order. */
  function FailedIds(upsert: Activity -> Option<string>, acts: seq<Activity>): (ids: seq<string>)
    ensures |ids| <= |acts|
  {
    if acts == [] then []
    else FailedIds(upsert, acts[..|acts| - 1]) + (if upsert(acts[|acts| - 1]).Some? then [acts[|acts| - 1].providerId] else [])
  }

  /**
   * The failed ids are exactly those of the failing activities: none means
   * none failed, each failing activity's id is listed, each listed id belongs
   * to a failing activity, there are never more ids than activities, and
   * the list of a concatenation is the concatenation of the lists (so the
   * order is the input order).
   */
  lemma {:induction false} FailedIdsMeaning(upsert: Activity -> Option<string>, acts: seq<Activity>)
    ensures FailedIds(upsert, acts) == [] <==> forall i :: 0 <= i < |acts| ==> upsert(acts[i]).None?
    ensures forall i :: 0 <= i < |acts| && upsert(acts[i]).Some? ==> acts[i].providerId in FailedIds(upsert, acts)
    ensures forall id :: id in FailedIds(upsert, acts) ==>
              exists i :: 0 <= i < |acts| && upsert(acts[i]).Some? && acts[i].providerId == id
    ensures |FailedIds(upsert, acts)| <= |acts|
  {
    if acts != [] {
      var init, last := acts[..|acts| - 1], acts[|acts| - 1];
      FailedIdsMeaning(upsert, init);
      assert forall i :: 0 <= i < |init| ==> acts[i] == init[i];
      forall id | id in FailedIds(upsert, acts)
        ensures exists i :: 0 <= i < |acts| && upsert(acts[i]).Some? && acts[i].providerId == id
      {
        if id in FailedIds(upsert, init) {
          var i :| 0 <= i < |init| && upsert(init[i]).Some? && init[i].providerId == id;
          assert acts[i] == init[i];
        } else {
          assert acts[|acts| - 1] == last;
        }
      }
    }
  }

  lemma {:induction false} FailedIdsConcat(upsert: Activity -> Option<string>, a: seq<Activity>, b: seq<Activity>)
    ensures FailedIds(upsert, a + b) == FailedIds(upsert, a) + FailedIds(upsert, b)
    decreases |b|
  {
    if b == [] {
      assert a + b == a;
    } else {
      var init := b[..|b| - 1];
      assert (a + b)[..|a + b| - 1] == a + init;
      FailedIdsConcat(upsert, a, init);
    }
  }

  lemma {:induction false} FailedIdsSnoc(upsert: Activity -> Option<string>, acts: seq<Activity>, a: Activity)
    ensures upsert(a).Some? ==> FailedIds(upsert, acts + [a]) == FailedIds(upsert, acts) + [a.providerId]
    ensures upsert(a).None? ==> FailedIds(upsert, acts + [a]) == FailedIds(upsert, acts)
  {
    assert (acts + [a])[..|acts|] == acts;
    assert FailedIds(upsert, acts) + [] == FailedIds(upsert, acts);
  }

  /** What SyncActivities returns once the fetch succeeded: nil, or the failed ids. */
  function SyncError(upsert: Activity -> Option<string>, acts: seq<Activity>): (r: Option<Error>)
    ensures r.None? <==> forall i :: 0 <= i < |acts| ==> upsert(acts[i]).None?
  {
    FailedIdsMeaning(upsert, acts);
    if |FailedIds(upsert, acts)| > 0 then Some(ActivitiesFailed(FailedIds(upsert, acts))) else None
  }

  /**
   * The loop of SyncActivities: every fetched activity is parsed for user `u`
   * and handed to CreateOrUpdate, whatever happened to the ones before; the
   * provider ids of the failures are collected in order.
   */
  method StoreActivities(store: Store, parse: (StravaClient.SummaryActivity, UserData) -> Activity,
                         fetched: seq<StravaClient.SummaryActivity>, u: UserData)
    returns (err: Option<Error>)
    modifies store
    ensures store.saves == old(store.saves)
    ensures store.upserts == old(store.upserts) + Parsed(parse, fetched, u)
    ensures err == SyncError(store.upsert, Parsed(parse, fetched, u))
  {
    var errorStrings: seq<string> := [];
    ghost var acts: seq<Activity> := [];
    for i := 0 to |fetched|
      invariant acts == Parsed(parse, fetched[..i], u)
      invariant store.saves == old(store.saves)
      invariant store.upserts == old(store.upserts) + acts
      invariant errorStrings == FailedIds(store.upsert, acts)
    {
      var activity := parse(fetched[i], u);
      var createErr := store.CreateOrUpdate(activity);
      assert fetched[..i + 1] == fetched[..i] + [fetched[i]];
      ParsedSnoc(parse, fetched[..i], fetched[i], u);
      FailedIdsSnoc(store.upsert, acts, activity);
      acts := acts + [activity];
      if createErr.Some? {
        errorStrings := errorStrings + [activity.providerId];
      }
    }
    assert fetched[..|fetched|] == fetched;
    if |errorStrings| > 0 {
      return Some(ActivitiesFailed(errorStrings));
    }
    return None;
  }

  // ---------------------------------------------------------------------
  // Statistics

  /** UserStats: totals and maxima over a user's activities. */
  datatype UserStats = UserStats(
    distance: int,
    count: int,
    elapsedDuration: int,
    movingDuration: int,
    mostDistance: int,
    mostElapsedDuration: int,
    mostMovingDuration: int)

  const Zero := UserStats(0, 0, 0, 0, 0, 0, 0)

  /** The three measured fields of an activity. */
  datatype Field = Distance | ElapsedTime | MovingTime

  function Value(a: Activity, f: Field): int {
    match f
    case Distance => a.distance
    case ElapsedTime => a.elapsedTime
    case MovingTime => a.movingTime
  }

  /** The sum of a field, an independent reference definition (right fold). */
  function Sum(acts: seq<Activity>, f: Field): int {
    if acts == [] then 0 else Value(acts[0], f) + Sum(acts[1..], f)
  }

  /** The largest value of a field, and 0 if that is larger (right fold). */
  function Most(acts: seq<Activity>, f: Field): int {
    if acts == [] then 0
    else var m := Most(acts[1..], f); if Value(acts[0], f) > m then Value(acts[0], f) else m
  }

  /** The statistics after one more activity: counted, added, and the maxima raised on strictly larger values. */
  function Accumulate(s: UserStats, a: Activity): (r: UserStats)
    ensures r.count == s.count + 1
    ensures r.mostDistance >= s.mostDistance && r.mostDistance >= a.distance
    ensures r.mostDistance == s.mostDistance || r.mostDistance == a.distance
    ensures r.mostElapsedDuration >= s.mostElapsedDuration && r.mostElapsedDuration >= a.elapsedTime
    ensures r.mostElapsedDuration == s.mostElapsedDuration || r.mostElapsedDuration == a.elapsedTime
    ensures r.mostMovingDuration >= s.mostMovingDuration && r.mostMovingDuration >= a.movingTime
    ensures r.mostMovingDuration == s.mostMovingDuration || r.mostMovingDuration == a.movingTime
  {
    UserStats(
      s.distance + a.distance,
      s.count + 1,
      s.elapsedDuration + a.elapsedTime,
      s.movingDuration + a.movingTime,
      if a.distance > s.mostDistance then a.distance else s.mostDistance,
      if a.elapsedTime > s.mostElapsedDuration then a.elapsedTime else s.mostElapsedDuration,
      if a.movingTime > s.mostMovingDuration then a.movingTime else s.mostMovingDuration)
  }

  /** The statistics of a list of activities, in the loop's order (left fold from zero). */
  function Summarize(acts: seq<Activity>): (r: UserStats)
    ensures r.count == |acts|
  {
    if acts == [] then Zero else Accumulate(Summarize(acts[..|acts| - 1]), acts[|acts| - 1])
  }

  /** The activities that count for the challenge: runs longer than 15 minutes. */
  predicate IsValidRun(a: Activity) {
    a.kind == "Run" && a.elapsedTime > 60 * 15
  }

  function ValidRuns(acts: seq<Activity>): (r: seq<Activity>)
    ensures |r| <= |acts|
    ensures forall a :: a in r ==> a in acts && IsValidRun(a)
  {
    if acts == [] then []
    else
      var init, last := acts[..|acts| - 1], acts[|acts| - 1];
      ValidRuns(init) + (if IsValidRun(last) then [last] else [])
  }

  /** Every valid run of the input is kept. */
  lemma {:induction false} ValidRunsComplete(acts: seq<Activity>)
    ensures forall i :: 0 <= i < |acts| && IsValidRun(acts[i]) ==> acts[i] in ValidRuns(acts)
  {
    if acts != [] {
      var init := acts[..|acts| - 1];
      ValidRunsComplete(init);
      forall i | 0 <= i < |acts| && IsValidRun(acts[i])
        ensures acts[i] in ValidRuns(acts)
      {
        if i < |acts| - 1 {
          assert acts[i] == init[i];
        }
      }
    }
  }

  /** One more activity: one more step of each fold. */
  lemma {:induction false} Snoc(acts: seq<Activity>, a: Activity)
    ensures Summarize(acts + [a]) == Accumulate(Summarize(acts), a)
    ensures IsValidRun(a) ==> ValidRuns(acts + [a]) == ValidRuns(acts) + [a]
    ensures !IsValidRun(a) ==> ValidRuns(acts + [a]) == ValidRuns(acts)
  {
    assert (acts + [a])[..|acts|] == acts;
    assert ValidRuns(acts) + [] == ValidRuns(acts);
  }

  lemma {:induction false} SumSnoc(acts: seq<Activity>, a: Activity, f: Field)
    ensures Sum(acts + [a], f) == Sum(acts, f) + Value(a, f)
  {
    if acts != [] {
      assert (acts + [a])[1..] == acts[1..] + [a];
      SumSnoc(acts[1..], a, f);
    }
  }

  lemma {:induction false} MostSnoc(acts: seq<Activity>, a: Activity, f: Field)
    ensures Most(acts + [a], f) == if Value(a, f) > Most(acts, f) then Value(a, f) else Most(acts, f)
  {
    if acts != [] {
      assert (acts + [a])[1..] == acts[1..] + [a];
      MostSnoc(acts[1..], a, f);
    }
  }

  /**
   * What the statistics are: the count is the number of activities, the
   * three totals are sums and the three maxima are the largest values
   * (floored at 0).
   */
  lemma {:induction false} SummarizeMeaning(acts: seq<Activity>)
    ensures Summarize(acts) == UserStats(
      Sum(acts, Distance), |acts|, Sum(acts, ElapsedTime), Sum(acts, MovingTime),
      Most(acts, Distance), Most(acts, ElapsedTime), Most(acts, MovingTime))
  {
    if acts != [] {
      var init, last := acts[..|acts| - 1], acts[|acts| - 1];
      assert acts == init + [last];
      SummarizeMeaning(init);
      SumSnoc(init, last, Distance);
      SumSnoc(init, last, ElapsedTime);
      SumSnoc(init, last, MovingTime);
      MostSnoc(init, last, Distance);
      MostSnoc(init, last, ElapsedTime);
      MostSnoc(init, last, MovingTime);
    }
  }

  /** A maximum is at least 0 and every value, and it is 0 or one of the values. */
  lemma {:induction false} MostBounds(acts: seq<Activity>, f: Field)
    ensures Most(acts, f) >= 0
    ensures forall i :: 0 <= i < |acts| ==> Value(acts[i], f) <= Most(acts, f)
    ensures Most(acts, f) == 0 || exists i :: 0 <= i < |acts| && Value(acts[i], f) == Most(acts, f)
  {
    if acts != [] {
      var rest := acts[1..];
      MostBounds(rest, f);
      assert forall i :: 1 <= i < |acts| ==> acts[i] == rest[i - 1];
      if Most(acts, f) != 0 && Most(acts, f) != Value(acts[0], f) {
        var i :| 0 <= i < |rest| && Value(rest[i], f) == Most(rest, f);
        assert Value(acts[i + 1], f) == Most(acts, f);
      }
    }
  }

  /** A maximum over activities that all occur in a larger list is no larger. */
  lemma {:induction false} MostSubset(sub: seq<Activity>, acts: seq<Activity>, f: Field)
    requires forall a :: a in sub ==> a in acts
    ensures Most(sub, f) <= Most(acts, f)
  {
    MostBounds(sub, f);
    MostBounds(acts, f);
    if Most(sub, f) != 0 {
      var i :| 0 <= i < |sub| && Value(sub[i], f) == Most(sub, f);
      assert sub[i] in acts;
      var j :| 0 <= j < |acts| && acts[j] == sub[i];
    }
  }

  lemma {:induction false} ValidRunsSum(acts: seq<Activity>, f: Field)
    requires forall i :: 0 <= i < |acts| ==> Value(acts[i], f) >= 0
    ensures 0 <= Sum(ValidRuns(acts), f) <= Sum(acts, f)
  {
    if acts != [] {
      var init, last := acts[..|acts| - 1], acts[|acts| - 1];
      assert acts == init + [last];
      assert forall i :: 0 <= i < |init| ==> init[i] == acts[i];
      ValidRunsSum(init, f);
      SumSnoc(init, last, f);
      assert Value(last, f) >= 0;
      if IsValidRun(last) {
        assert ValidRuns(acts) == ValidRuns(init) + [last];
        SumSnoc(ValidRuns(init), last, f);
      } else {
        assert ValidRuns(acts) == ValidRuns(init) + [] == ValidRuns(init);
      }
    }
  }

  /**
   * The valid-run statistics never exceed the all-activity ones: fewer
   * activities, no larger maxima, and, when the measured values are not
   * negative, no larger totals.
   */
  lemma {:induction false} ValidBelowAll(acts: seq<Activity>)
    ensures var all, valid := Summarize(acts), Summarize(ValidRuns(acts));
      && valid.count <= all.count
      && valid.mostDistance <= all.mostDistance
      && valid.mostElapsedDuration <= all.mostElapsedDuration
      && valid.mostMovingDuration <= all.mostMovingDuration
    ensures (forall i :: 0 <= i < |acts| ==> acts[i].distance >= 0 && acts[i].elapsedTime >= 0 && acts[i].movingTime >= 0) ==>
      var all, valid := Summarize(acts), Summarize(ValidRuns(acts));
      && valid.distance <= all.distance
      && valid.elapsedDuration <= all.elapsedDuration
      && valid.movingDuration <= all.movingDuration
  {
    var valid := ValidRuns(acts);
    SummarizeMeaning(acts);
    SummarizeMeaning(valid);
    MostSubset(valid, acts, Distance);
    MostSubset(valid, acts, ElapsedTime);
    MostSubset(valid, acts, MovingTime);
    if forall i :: 0 <= i < |acts| ==> acts[i].distance >= 0 && acts[i].elapsedTime >= 0 && acts[i].movingTime >= 0 {
      ValidRunsSum(acts, Distance);
      ValidRunsSum(acts, ElapsedTime);
      ValidRunsSum(acts, MovingTime);
    }
  }

  /** The body of the statistics loop for one record: count, add, and raise the maxima on strictly larger values. */
  method AddActivity(stats: UserStats, activity: Activity) returns (s: UserStats)
    ensures s == Accumulate(stats, activity)
  {
    s := stats;
    s := s.(count := s.count + 1);
    s := s.(distance := s.distance + activity.distance);
    s := s.(elapsedDuration := s.elapsedDuration + activity.elapsedTime);
    s := s.(movingDuration := s.movingDuration + activity.movingTime);
    if activity.distance > s.mostDistance {
      s := s.(mostDistance := activity.distance);
    }
    if activity.elapsedTime > s.mostElapsedDuration {
      s := s.(mostElapsedDuration := activity.elapsedTime);
    }
    if activity.movingTime > s.mostMovingDuration {
      s := s.(mostMovingDuration := activity.movingTime);
    }
  }

  /** What the activities query returned: the user's activities and the error, if any. */
  datatype ActivitiesQuery = ActivitiesQuery(activities: seq<Activity>, err: Option<string>)

  // ---------------------------------------------------------------------
  // The user

  /** A user record; the sync path rewrites its tokens. */
  class User {
    var name: string
    var provider: string
    var providerId: string
    var accessToken: string
    var refreshToken: string

    function Data(): UserData
      reads this
    {
      UserData(name, provider, providerId, accessToken, refreshToken)
    }

    constructor(d: UserData)
      ensures Data() == d
    {
      name, provider, providerId := d.name, d.provider, d.providerId;
      accessToken, refreshToken := d.accessToken, d.refreshToken;
    }

    /**
     * RefreshAccessToken: look the provider up, call its refresh, and write
     * and save the user only when the access token changed.
     */
    method RefreshAccessToken(providers: Providers, store: Store) returns (err: Option<Error>)
      modifies this, store
      ensures Data() == Refreshed(providers, old(Data()))
      ensures err == RefreshError(providers, store.save, old(Data()))
      ensures store.saves == old(store.saves) + (if RefreshPlan(providers, old(Data())).Replace? then [Data()] else [])
      ensures store.upserts == old(store.upserts)
    {
      if provider !in providers {
        return Some(ConnectorProblem(provider));
      }
      var refreshed := providers[provider](refreshToken);
      if refreshed.Failure? {
        return Some(NotRefreshed(name, refreshed.error));
      }
      var newTokens := refreshed.value;
      err := None;
      if accessToken != newTokens.accessToken {
        accessToken := newTokens.accessToken;
        refreshToken := newTokens.refreshToken;
        var e := store.Save(Data());
        if e.Some? {
          err := Some(SaveFailed(e.value));
        }
      }
    }

    /**
     * SyncActivities: refresh the tokens, fetch with the (possibly new)
     * access token, then store every fetched activity, collecting the
     * provider ids of those that fail instead of stopping.
     */
    method SyncActivities(providers: Providers, store: Store, source: ActivitySource,
                          parse: (StravaClient.SummaryActivity, UserData) -> Activity)
      returns (err: Option<Error>)
      modifies this, store, source
      ensures var u := Refreshed(providers, old(Data()));
        var refreshErr := RefreshError(providers, store.save, old(Data()));
        var page := source.fetch(u.accessToken);
        var acts := Parsed(parse, page.activities, u);
        && Data() == u
        && store.saves == old(store.saves) + (if RefreshPlan(providers, old(Data())).Replace? then [u] else [])
        && (refreshErr.Some? ==>
              err == refreshErr && source.calls == old(source.calls) && store.upserts == old(store.upserts))
        && (refreshErr.None? ==> source.calls == old(source.calls) + [u.accessToken])
        && (refreshErr.None? && page.err.Some? ==>
              err == Some(FetchFailed(u.name, page.err.value)) && store.upserts == old(store.upserts))
        && (refreshErr.None? && page.err.None? ==>
              err == SyncError(store.upsert, acts) && store.upserts == old(store.upserts) + acts)
    {
      var e := RefreshAccessToken(providers, store);
      if e.Some? {
        return e;
      }
      var fetched, fetchErr := source.Fetch(accessToken);
      if fetchErr.Some? {
        return Some(FetchFailed(name, fetchErr.value));
      }
      err := StoreActivities(store, parse, fetched, Data());
    }

    /**
     * GetStats: a failed query gives two zero records and the error;
     * otherwise one pass over the user's activities fills the statistics of
     * all of them and of the valid runs.
     */
    method GetStats(query: ActivitiesQuery) returns (allStats: UserStats, validStats: UserStats, err: Option<string>)
      ensures query.err.Some? ==> allStats == Zero && validStats == Zero && err == query.err
      ensures query.err.None? ==>
                allStats == Summarize(query.activities) && validStats == Summarize(ValidRuns(query.activities)) && err == None
    {
      if query.err.Some? {
        return Zero, Zero, query.err;
      }
      var activities := query.activities;
      allStats, validStats, err := Zero, Zero, None;
      for i := 0 to |activities|
        invariant allStats == Summarize(activities[..i])
        invariant validStats == Summarize(ValidRuns(activities[..i]))
      {
        var activity := activities[i];
        assert activities[..i + 1] == activities[..i] + [activity];
        Snoc(activities[..i], activity);
        allStats := AddActivity(allStats, activity);
        if activity.kind == "Run" && activity.elapsedTime > 60 * 15 {
          validStats := AddActivity(validStats, activity);
        }
      }
      assert activities[..|activities|] == activities;
    }
  }
}
