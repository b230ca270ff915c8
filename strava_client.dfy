/**
 * The Strava client (strava_client/fetch_activities.go): the default query
 * window of a year, single-page requests, and the pagination loop that
 * fetches every activity of the window.
 *
 * The generated swagger client is an oracle: `ActivitiesApi` answers each
 * request with a fixed function of the request and logs the requests made.
 * The environment variable and the clock are parameters.
 */
module StravaClient {
  import opened Wrappers
  import opened GoStrconv

  // ---------------------------------------------------------------------
  // Year and query window

  /** getThisYear: the `ROAW_YEAR` value when `strconv.Atoi` accepts it, else the current year. */
  function GetThisYear(osEnv: string, currentYear: int): (year: int)
    ensures ParseInt(osEnv).Some? ==> year == ParseInt(osEnv).value
    ensures ParseInt(osEnv).None? ==> year == currentYear
  {
    match ParseInt(osEnv)
    case Some(n) => n
    case None => currentYear
  }

  /** A year written with `%d` is read back as that year, whatever the clock says. */
  lemma {:induction false} GetThisYearReadsBack(year: int, currentYear: int)
    requires MinInt64 <= year <= MaxInt64
    ensures GetThisYear(FormatInt(year), currentYear) == year
  {
    FormatParseRoundTrip(year);
  }

  /** Leap years among 1..x of the proleptic Gregorian calendar (counted backwards for x < 0). */
  function Leaps(x: int): int {
    x / 4 - x / 100 + x / 400
  }

  predicate IsLeap(y: int) {
    y % 4 == 0 && (y % 100 != 0 || y % 400 == 0)
  }

  /** `time.Date(year, 1, 1, 0, 0, 0, 0, time.UTC).Unix()`: seconds from 1970-01-01 to Jan 1 of `year`. */
  function JanFirstUnix(year: int): (t: int)
    ensures year == 1970 ==> t == 0
  {
    86400 * (365 * (year - 1970) + Leaps(year - 1) - Leaps(1969))
  }

  /** Jan 1 of consecutive years are one calendar year apart, and 1970 is the epoch. */
  lemma {:induction false} JanFirstUnixStep(year: int)
    ensures JanFirstUnix(1970) == 0
    ensures JanFirstUnix(year + 1) - JanFirstUnix(year) == 86400 * (if IsLeap(year) then 366 else 365)
  {
    LeapsStep(year);
  }

  /** Year `year` adds one leap year to the count exactly when it is a leap year. */
  lemma {:induction false} LeapsStep(year: int)
    ensures Leaps(year) - Leaps(year - 1) == if IsLeap(year) then 1 else 0
  {
    QuotientStep4(year);
    QuotientStep100(year);
    QuotientStep400(year);
    MultiplesNest(year);
  }

  /** Multiples of 400 are multiples of 100, which are multiples of 4. */
  lemma {:induction false} MultiplesNest(year: int)
    ensures year % 100 == 0 ==> year % 4 == 0
    ensures year % 400 == 0 ==> year % 100 == 0
  {
    if year % 100 == 0 {
      assert year == 4 * (25 * (year / 100));
    }
    if year % 400 == 0 {
      assert year == 100 * (4 * (year / 400));
    }
  }

  /** Going from `year - 1` to `year` raises the quotient by 4 exactly at multiples of 4. */
  lemma {:induction false} QuotientStep4(year: int)
    ensures year / 4 - (year - 1) / 4 == if year % 4 == 0 then 1 else 0
  {
    var q, r := (year - 1) / 4, (year - 1) % 4;
    if r + 1 == 4 {
      assert year == 4 * (q + 1);
    } else {
      assert year == 4 * q + (r + 1);
    }
  }

  /** Going from `year - 1` to `year` raises the quotient by 100 exactly at multiples of 100. */
  lemma {:induction false} QuotientStep100(year: int)
    ensures year / 100 - (year - 1) / 100 == if year % 100 == 0 then 1 else 0
  {
    var q, r := (year - 1) / 100, (year - 1) % 100;
    if r + 1 == 100 {
      assert year == 100 * (q + 1);
    } else {
      assert year == 100 * q + (r + 1);
    }
  }

  /** Going from `year - 1` to `year` raises the quotient by 400 exactly at multiples of 400. */
  lemma {:induction false} QuotientStep400(year: int)
    ensures year / 400 - (year - 1) / 400 == if year % 400 == 0 then 1 else 0
  {
    var q, r := (year - 1) / 400, (year - 1) % 400;
    if r + 1 == 400 {
      assert year == 400 * (q + 1);
    } else {
      assert year == 400 * q + (r + 1);
    }
  }

  /** The swagger options of a request: the time window, the page number and the page size. */
  datatype Opts = Opts(after: int, before: int, page: int, perPage: int)

  /**
   * The options NewStravaAPI starts with: Jan 1 of the year and Jan 1 of the
   * next year, each truncated to a 32-bit Unix timestamp; page 1 of 5.
   */
  function DefaultOpts(year: int): (o: Opts)
    ensures MinInt32 <= o.after <= MaxInt32 && MinInt32 <= o.before <= MaxInt32
    ensures o.page == 1 && o.perPage == 5
  {
    Opts(Wrap32(JanFirstUnix(year)), Wrap32(JanFirstUnix(year + 1)), 1, 5)
  }

  /**
   * From 1902 to 2037 both timestamps fit in 32 bits: the window is exactly
   * the calendar year, so `before` is after `after`.
   */
  lemma {:induction false} DefaultWindow(year: int)
    requires 1902 <= year <= 2037
    ensures DefaultOpts(year).after == JanFirstUnix(year)
    ensures DefaultOpts(year).before == JanFirstUnix(year + 1)
    ensures DefaultOpts(year).before - DefaultOpts(year).after == 86400 * (if IsLeap(year) then 366 else 365)
  {
    JanFirstUnixStep(year);
  }

  /** For 2038 the end of the window no longer fits in 32 bits and wraps below its start. */
  lemma {:induction false} DefaultWindow2038()
    ensures DefaultOpts(2038).after == JanFirstUnix(2038)
    ensures DefaultOpts(2038).before == JanFirstUnix(2039) - 0x1_0000_0000
    ensures DefaultOpts(2038).before < DefaultOpts(2038).after
  {
    assert JanFirstUnix(2038) == 2145916800;
    assert JanFirstUnix(2039) == 2177452800;
  }

  // ---------------------------------------------------------------------
  // The activities endpoint

  /** An activity as the endpoint returns it; its payload is not modelled. */
  datatype SummaryActivity = SummaryActivity(id: int)

  /** A call to GetLoggedInAthleteActivities: the access token and the options. */
  datatype Request = Request(accessToken: string, after: int, before: int, page: int, perPage: int)

  /** The endpoint's answer: a page of activities and an error, if any. */
  datatype Page = Page(activities: seq<SummaryActivity>, err: Option<string>)

  /** A page that ends the loop: an error, or a length (as an int32) other than the page size. */
  predicate Stops(p: Page, perPage: int) {
    p.err.Some? || Wrap32(|p.activities|) != perPage
  }

  /**
   * The run over the window and page size of `base` ends by page
   * `lastPage + 1`: that page fails or is not full, and its number is still
   * an int32.
   */
  ghost predicate Finite(respond: Request -> Page, lastPage: nat, base: Request) {
    lastPage < MaxInt32 && Stops(respond(base.(page := lastPage + 1)), base.perPage)
  }

  /** The swagger `ActivitiesApi`, answering by `respond` and logging every request. */
  class ActivitiesApi {
    const respond: Request -> Page
    const lastPage: nat
    var requests: seq<Request>

    constructor (respond: Request -> Page, lastPage: nat)
      ensures this.respond == respond && this.lastPage == lastPage && requests == []
    {
      this.respond := respond;
      this.lastPage := lastPage;
      requests := [];
    }

    method GetLoggedInAthleteActivities(req: Request) returns (page: Page)
      modifies this
      ensures page == respond(req)
      ensures requests == old(requests) + [req]
    {
      page := respond(req);
      requests := requests + [req];
    }
  }

  /** A client bound to one access token, with mutable request options. */
  class StravaAPI {
    const accessToken: string
    const api: ActivitiesApi
    var opts: Opts

    /** NewStravaAPI: the default options of the year getThisYear picks. */
    constructor (accessToken: string, api: ActivitiesApi, osEnv: string, currentYear: int)
      ensures this.accessToken == accessToken && this.api == api
      ensures opts == DefaultOpts(GetThisYear(osEnv, currentYear))
    {
      this.accessToken := accessToken;
      this.api := api;
      opts := DefaultOpts(GetThisYear(osEnv, currentYear));
    }

    /** fetchActivitiesSinglePage: set the page (as an int32) and make one request. */
    method FetchActivitiesSinglePage(page: int) returns (activities: seq<SummaryActivity>, err: Option<string>)
      modifies this, api
      ensures opts == old(opts).(page := Wrap32(page))
      ensures api.requests == old(api.requests) + [Request(accessToken, opts.after, opts.before, opts.page, opts.perPage)]
      ensures Page(activities, err) == api.respond(Request(accessToken, opts.after, opts.before, opts.page, opts.perPage))
    {
      opts := opts.(page := Wrap32(page));
      var p := api.GetLoggedInAthleteActivities(Request(accessToken, opts.after, opts.before, opts.page, opts.perPage));
      activities, err := p.activities, p.err;
    }
  }

  // ---------------------------------------------------------------------
  // Pagination

  /** Result of a pagination run: the activities, the error, and how many pages were requested. */
  datatype Outcome = Outcome(activities: seq<SummaryActivity>, err: Option<string>, pages: nat)

  /** Activities gathered before a run: an error discards them, success prepends them. */
  function Combine(acc: seq<SummaryActivity>, o: Outcome): (r: Outcome)
    ensures r.err == o.err && r.pages == o.pages
    ensures r.activities == if o.err.Some? then o.activities else acc + o.activities
  {
    if o.err.Some? then o else Outcome(acc + o.activities, None, o.pages)
  }

  lemma {:induction false} CombineAssociative(a: seq<SummaryActivity>, b: seq<SummaryActivity>, o: Outcome)
    ensures Combine(a, Combine(b, o)) == Combine(a + b, o)
  {
    if o.err.None? {
      assert a + (b + o.activities) == (a + b) + o.activities;
    }
  }

  /**
   * The pagination rule from page `page` on: request it; an error ends the
   * run with no activities; a page whose length (as an int32) is not the
   * page size is the last one; otherwise continue with the next page.
   */
  function Paginate(respond: Request -> Page, lastPage: nat, base: Request, page: nat): (o: Outcome)
    requires Finite(respond, lastPage, base) && 0 < base.perPage && 1 <= page <= lastPage + 1
    ensures page <= o.pages <= lastPage + 1
    decreases lastPage + 1 - page
  {
    var p := respond(base.(page := page));
    if p.err.Some? then Outcome([], p.err, page)
    else if Wrap32(|p.activities|) != base.perPage then Outcome(p.activities, None, page)
    else
      assert page <= lastPage by {
        assert page == lastPage + 1 ==> Stops(p, base.perPage);
      }
      Combine(p.activities, Paginate(respond, lastPage, base, page + 1))
  }

  /**
   * Partway through a run: pages before `page` have been fetched, giving
   * `gathered`, and the whole run is `gathered` followed by the run from
   * `page` on.
   */
  ghost predicate Fetching(respond: Request -> Page, lastPage: nat, base: Request, page: nat, gathered: seq<SummaryActivity>) {
    && Finite(respond, lastPage, base) && 0 < base.perPage && 1 <= page <= lastPage + 1
    && Paginate(respond, lastPage, base, 1) == Combine(gathered, Paginate(respond, lastPage, base, page))
  }

  /** One step of the rule, as the loop of FetchAllActivities takes it. */
  lemma {:induction false} PaginateStep(respond: Request -> Page, lastPage: nat, base: Request, page: nat,
                     gathered: seq<SummaryActivity>, activities: seq<SummaryActivity>, err: Option<string>)
    requires Fetching(respond, lastPage, base, page, gathered)
    requires respond(base.(page := page)) == Page(activities, err)
    ensures err.Some? ==> Paginate(respond, lastPage, base, 1) == Outcome([], err, page)
    ensures err.None? && Wrap32(|activities|) != base.perPage ==>
              Paginate(respond, lastPage, base, 1) == Outcome(gathered + activities, None, page)
    ensures err.None? && Wrap32(|activities|) == base.perPage ==>
              Fetching(respond, lastPage, base, page + 1, gathered + activities)
  {
    if err.None? && Wrap32(|activities|) == base.perPage {
      assert page == lastPage + 1 ==> Stops(Page(activities, err), base.perPage);
      CombineAssociative(gathered, activities, Paginate(respond, lastPage, base, page + 1));
    }
  }

  /** The requests of pages 1..n, in order. */
  function PageRequests(base: Request, n: nat): (rs: seq<Request>)
    ensures |rs| == n
    ensures forall k :: 0 <= k < n ==> rs[k] == base.(page := k + 1)
  {
    if n == 0 then [] else PageRequests(base, n - 1) + [base.(page := n)]
  }

  /** The activities of pages lo..hi, in order. */
  function Concat(respond: Request -> Page, base: Request, lo: int, hi: int): seq<SummaryActivity>
    decreases hi - lo + 1
  {
    if lo > hi then [] else respond(base.(page := lo)).activities + Concat(respond, base, lo + 1, hi)
  }

  /** A full page: no error and exactly `perPage` activities (counted as an int32). */
  ghost predicate FullPage(respond: Request -> Page, base: Request, k: int) {
    respond(base.(page := k)).err.None? && Wrap32(|respond(base.(page := k)).activities|) == base.perPage
  }

  /**
   * What a pagination run means: every page before the last one requested was
   * full; on success the result is the in-order concatenation of all pages
   * and the last page was not full; on error the result is empty and carries
   * the last page's error.
   */
  lemma {:induction false} PaginateMeaning(respond: Request -> Page, lastPage: nat, base: Request, page: nat)
    requires Finite(respond, lastPage, base) && 0 < base.perPage && 1 <= page <= lastPage + 1
    ensures var o := Paginate(respond, lastPage, base, page);
      && (forall k :: page <= k < o.pages ==> FullPage(respond, base, k))
      && (o.err.None? ==>
            && o.activities == Concat(respond, base, page, o.pages)
            && respond(base.(page := o.pages)).err.None?
            && !FullPage(respond, base, o.pages))
      && (o.err.Some? ==> o.activities == [] && o.err == respond(base.(page := o.pages)).err)
    decreases lastPage + 1 - page
  {
    var p := respond(base.(page := page));
    var o := Paginate(respond, lastPage, base, page);
    if p.err.None? && Wrap32(|p.activities|) == base.perPage {
      assert page <= lastPage by {
        assert page == lastPage + 1 ==> Stops(p, base.perPage);
      }
      var rest := Paginate(respond, lastPage, base, page + 1);
      PaginateMeaning(respond, lastPage, base, page + 1);
      assert o == Combine(p.activities, rest);
      assert FullPage(respond, base, page);
      if rest.err.None? {
        assert Concat(respond, base, page, o.pages) == p.activities + Concat(respond, base, page + 1, o.pages);
      }
    } else if p.err.None? {
      assert Concat(respond, base, page + 1, page) == [];
      assert Concat(respond, base, page, page) == p.activities + [];
    }
  }

  /** A page counted as full by the int32 comparison really holds `perPage` activities. */
  lemma {:induction false} FullPageLength(respond: Request -> Page, base: Request, k: int)
    requires FullPage(respond, base, k) && base.perPage > 0
    requires |respond(base.(page := k)).activities| <= MaxInt32
    ensures |respond(base.(page := k)).activities| == base.perPage
  {
  }

  /** An account with 447 activities in the window, served 200 at a time. */
  function ExamplePages(r: Request): Page {
    var n := if r.page == 1 || r.page == 2 then 200 else if r.page == 3 then 47 else 0;
    Page(seq(n, i => SummaryActivity(i)), None)
  }

  /** Pages of 200, 200 and 47 activities: three requests, 447 activities. */
  lemma {:induction false} PaginationExample(base: Request)
    requires base.perPage == 200
    ensures Finite(ExamplePages, 3, base)
    ensures var o := Paginate(ExamplePages, 3, base, 1);
      o.err.None? && |o.activities| == 447 && o.pages == 3
  {
    assert Finite(ExamplePages, 3, base) by {
      assert |ExamplePages(base.(page := 4)).activities| == 0;
    }
    var o3 := Paginate(ExamplePages, 3, base, 3);
    assert |ExamplePages(base.(page := 3)).activities| == 47;
    assert o3.err.None? && |o3.activities| == 47 && o3.pages == 3;
    var o2 := Paginate(ExamplePages, 3, base, 2);
    assert |ExamplePages(base.(page := 2)).activities| == 200;
    assert o2 == Combine(ExamplePages(base.(page := 2)).activities, o3);
    var o1 := Paginate(ExamplePages, 3, base, 1);
    assert |ExamplePages(base.(page := 1)).activities| == 200;
    assert o1 == Combine(ExamplePages(base.(page := 1)).activities, o2);
  }

  /**
   * The state of the loop of FetchAllActivities before it asks for page
   * `page`: the client still has the window and page size of `base`, the
   * run so far is `gathered` and pages 1..page-1 have been requested.
   */
  ghost predicate OnTrack(stravaAPI: StravaAPI, base: Request, requests0: seq<Request>, page: nat, gathered: seq<SummaryActivity>)
    reads stravaAPI, stravaAPI.api
  {
    && base.accessToken == stravaAPI.accessToken
    && stravaAPI.opts.after == base.after && stravaAPI.opts.before == base.before
    && stravaAPI.opts.perPage == base.perPage
    && Fetching(stravaAPI.api.respond, stravaAPI.api.lastPage, base, page, gathered)
    && stravaAPI.api.requests == requests0 + PageRequests(base, page - 1)
  }

  /**
   * One pass of the loop of FetchAllActivities: request page `page` and say
   * how the run ends, or that it goes on with the page's activities added.
   */
  method FetchNext(stravaAPI: StravaAPI, ghost base: Request, ghost requests0: seq<Request>, page: nat, gathered: seq<SummaryActivity>)
    returns (activities: seq<SummaryActivity>, err: Option<string>)
    requires OnTrack(stravaAPI, base, requests0, page, gathered)
    modifies stravaAPI, stravaAPI.api
    ensures stravaAPI.opts == old(stravaAPI.opts).(page := page)
    ensures var run := Paginate(stravaAPI.api.respond, stravaAPI.api.lastPage, base, 1);
      && (err.Some? ==> run == Outcome([], err, page) && stravaAPI.api.requests == requests0 + PageRequests(base, page))
      && (err.None? && Wrap32(|activities|) != stravaAPI.opts.perPage ==>
            run == Outcome(gathered + activities, None, page) && stravaAPI.api.requests == requests0 + PageRequests(base, page))
      && (err.None? && Wrap32(|activities|) == stravaAPI.opts.perPage ==>
            OnTrack(stravaAPI, base, requests0, page + 1, gathered + activities))
  {
    ghost var requests1 := stravaAPI.api.requests;
    activities, err := stravaAPI.FetchActivitiesSinglePage(page);
    assert Wrap32(page) == page;
    assert stravaAPI.api.requests == requests1 + [base.(page := page)];
    assert requests0 + PageRequests(base, page) == requests1 + [base.(page := page)];
    PaginateStep(stravaAPI.api.respond, stravaAPI.api.lastPage, base, page, gathered, activities, err);
  }

  /**
   * The loop of FetchAllActivities on a client whose page size is set:
   * pages 1, 2, 3, ... requested in order until a page is not full; any
   * error discards everything fetched so far.
   */
  method FetchPages(stravaAPI: StravaAPI) returns (activities: seq<SummaryActivity>, err: Option<string>)
    requires stravaAPI.opts.perPage > 0
    requires Finite(stravaAPI.api.respond, stravaAPI.api.lastPage,
                    Request(stravaAPI.accessToken, stravaAPI.opts.after, stravaAPI.opts.before, 1, stravaAPI.opts.perPage))
    modifies stravaAPI, stravaAPI.api
    ensures var base := Request(stravaAPI.accessToken, old(stravaAPI.opts.after), old(stravaAPI.opts.before), 1, old(stravaAPI.opts.perPage));
      var run := Paginate(stravaAPI.api.respond, stravaAPI.api.lastPage, base, 1);
      && activities == run.activities && err == run.err
      && stravaAPI.api.requests == old(stravaAPI.api.requests) + PageRequests(base, run.pages)
      && stravaAPI.opts == old(stravaAPI.opts).(page := run.pages)
  {
    ghost var base := Request(stravaAPI.accessToken, stravaAPI.opts.after, stravaAPI.opts.before, 1, stravaAPI.opts.perPage);
    ghost var requests0 := stravaAPI.api.requests;
    var allActivities: seq<SummaryActivity> := [];
    var i := 1;
    assert OnTrack(stravaAPI, base, requests0, i, allActivities) by {
      ghost var run := Paginate(stravaAPI.api.respond, stravaAPI.api.lastPage, base, 1);
      assert [] + run.activities == run.activities;
      assert requests0 + [] == requests0;
    }
    while true
      invariant OnTrack(stravaAPI, base, requests0, i, allActivities)
      invariant stravaAPI.opts == if i == 1 then old(stravaAPI.opts) else old(stravaAPI.opts).(page := i - 1)
      decreases stravaAPI.api.lastPage + 1 - i
    {
      var page, e := FetchNext(stravaAPI, base, requests0, i, allActivities);
      if e.Some? {
        return [], e;
      }
      if Wrap32(|page|) != stravaAPI.opts.perPage {
        // repeat until a page comes back short
        return allActivities + page, None;
      }
      allActivities := allActivities + page;
      i := i + 1;
    }
  }

  /**
   * FetchAllActivities: a client for the default window with the page size
   * raised to 200, then every page in order.
   */
  method FetchAllActivities(accessToken: string, api: ActivitiesApi, osEnv: string, currentYear: int)
    returns (activities: seq<SummaryActivity>, err: Option<string>)
    requires var o := DefaultOpts(GetThisYear(osEnv, currentYear));
      Finite(api.respond, api.lastPage, Request(accessToken, o.after, o.before, 1, 200))
    modifies api
    ensures var o := DefaultOpts(GetThisYear(osEnv, currentYear));
      var base := Request(accessToken, o.after, o.before, 1, 200);
      var run := Paginate(api.respond, api.lastPage, base, 1);
      && activities == run.activities && err == run.err
      && api.requests == old(api.requests) + PageRequests(base, run.pages)
  {
    var stravaAPI := new StravaAPI(accessToken, api, osEnv, currentYear);
    stravaAPI.opts := stravaAPI.opts.(perPage := 200);
    activities, err := FetchPages(stravaAPI);
  }

  /**
   * FetchLatestActivities: exactly one request, for page 1 with the default
   * page size of 5, answered unchanged.
   */
  method FetchLatestActivities(accessToken: string, api: ActivitiesApi, osEnv: string, currentYear: int)
    returns (activities: seq<SummaryActivity>, err: Option<string>)
    modifies api
    ensures var o := DefaultOpts(GetThisYear(osEnv, currentYear));
      var req := Request(accessToken, o.after, o.before, 1, 5);
      && api.requests == old(api.requests) + [req]
      && Page(activities, err) == api.respond(req)
  {
    var stravaAPI := new StravaAPI(accessToken, api, osEnv, currentYear);
    activities, err := stravaAPI.FetchActivitiesSinglePage(1);
  }
}
