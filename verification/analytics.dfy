/** The analytics cache (src/hooks/useAnalytics.ts): three independent slices (the summary
    figures, the per-category breakdown and the daily trend), each loaded by its own call and
    overwritten only by that call's success. */
module Analytics {
  import opened Wrappers
  import opened Text
  import opened Domain
  import opened Storage
  import opened Api

  /** The optional argument of `loadAnalytics` and `refreshAnalytics`. */
  datatype AnalyticsOptions = AnalyticsOptions(period: Option<Period>, trendDays: Option<int>)

  const ZeroSummary := Summary(0, 0, 0, 0)

  /** `options?.period`, then the loader's default when it is undefined. */
  function RequestedPeriod(options: Option<AnalyticsOptions>): (p: Period)
    ensures options.Some? && options.value.period.Some? ==> p == options.value.period.value
    ensures options.None? || options.value.period.None? ==> p == Month
  {
    if options.Some? then options.value.period.GetOr(DefaultPeriod) else DefaultPeriod
  }

  /** `options?.trendDays`, then the loader's default when it is undefined. A given 0 is kept:
      only `undefined` triggers a default parameter. */
  function RequestedDays(options: Option<AnalyticsOptions>): (d: int)
    ensures options.Some? && options.value.trendDays.Some? ==> d == options.value.trendDays.value
    ensures options.None? || options.value.trendDays.None? ==> d == 30
  {
    if options.Some? then options.value.trendDays.GetOr(DefaultTrendDays) else DefaultTrendDays
  }

  /** Without options the batch asks for this month's breakdown and the last thirty days. */
  lemma DefaultAnalyticsRoutes(encode: string -> string)
    ensures RouteOf(BreakdownCall(RequestedPeriod(None)), encode) == Route(Get, "/analytics/categories?period=month")
    ensures RouteOf(TrendsCall(RequestedDays(None)), encode) == Route(Get, "/analytics/trends?days=30")
  {
    assert IntToString(30) == "30";
  }

  class AnalyticsStore {
    var summary: Summary
    var categoryData: seq<CategoryDatum>
    var trendData: seq<TrendPoint>
    var loading: bool
    /** The backend calls this store has made, oldest first. */
    ghost var calls: seq<ApiCall>

    /** Initial slices: zero figures, no breakdown, no trend, not loading. */
    constructor ()
      ensures summary == ZeroSummary && categoryData == [] && trendData == []
      ensures !loading && calls == []
    {
      summary := ZeroSummary;
      categoryData := [];
      trendData := [];
      loading := false;
      calls := [];
    }

    /** `loadSummary`: a failure is logged and swallowed. */
    method LoadSummary(response: Result<Summary>)
      modifies this
      ensures calls == old(calls) + [SummaryCall]
      ensures summary == response.ValueOr(old(summary))
      ensures categoryData == old(categoryData) && trendData == old(trendData) && loading == old(loading)
    {
      calls := calls + [SummaryCall];
      if response.Ok? {
        summary := response.value;
      }
    }

    /** `loadCategoryData(period = 'month')`. */
    method LoadCategoryData(period: Option<Period>, response: Result<seq<CategoryDatum>>)
      modifies this
      ensures calls == old(calls) + [BreakdownCall(period.GetOr(Month))]
      ensures categoryData == response.ValueOr(old(categoryData))
      ensures summary == old(summary) && trendData == old(trendData) && loading == old(loading)
    {
      calls := calls + [BreakdownCall(period.GetOr(DefaultPeriod))];
      if response.Ok? {
        categoryData := response.value;
      }
    }

    /** `loadTrendData(days = 30)`. */
    method LoadTrendData(days: Option<int>, response: Result<seq<TrendPoint>>)
      modifies this
      ensures calls == old(calls) + [TrendsCall(days.GetOr(30))]
      ensures trendData == response.ValueOr(old(trendData))
      ensures summary == old(summary) && categoryData == old(categoryData) && loading == old(loading)
    {
      calls := calls + [TrendsCall(days.GetOr(DefaultTrendDays))];
      if response.Ok? {
        trendData := response.value;
      }
    }

    /** `loadAnalytics`: the three loaders, each settling its own slice, with `loading` raised
        around the batch. The batch itself never fails. */
    method LoadAnalytics(options: Option<AnalyticsOptions>, summaryResponse: Result<Summary>,
                         categoryResponse: Result<seq<CategoryDatum>>, trendResponse: Result<seq<TrendPoint>>)
      modifies this
      ensures calls == old(calls) + [SummaryCall, BreakdownCall(RequestedPeriod(options)), TrendsCall(RequestedDays(options))]
      ensures summary == summaryResponse.ValueOr(old(summary))
      ensures categoryData == categoryResponse.ValueOr(old(categoryData))
      ensures trendData == trendResponse.ValueOr(old(trendData))
      ensures !loading
    {
      loading := true;
      var period := if options.Some? then options.value.period else None;
      var days := if options.Some? then options.value.trendDays else None;
      LoadSummary(summaryResponse);
      LoadCategoryData(period, categoryResponse);
      LoadTrendData(days, trendResponse);
      loading := false;
    }

    /** The mount effect: the batch with default options, only when a token is stored. */
    method InitialLoad(storage: LocalStorage, summaryResponse: Result<Summary>,
                       categoryResponse: Result<seq<CategoryDatum>>, trendResponse: Result<seq<TrendPoint>>)
      modifies this
      ensures HasItem(storage.entries, AuthTokenKey) ==>
        && calls == old(calls) + [SummaryCall, BreakdownCall(Month), TrendsCall(30)]
        && summary == summaryResponse.ValueOr(old(summary))
        && categoryData == categoryResponse.ValueOr(old(categoryData))
        && trendData == trendResponse.ValueOr(old(trendData))
        && !loading
      ensures !HasItem(storage.entries, AuthTokenKey) ==>
        && calls == old(calls) && summary == old(summary) && categoryData == old(categoryData)
        && trendData == old(trendData) && loading == old(loading)
    {
      if HasItem(storage.entries, AuthTokenKey) {
        LoadAnalytics(None, summaryResponse, categoryResponse, trendResponse);
      }
    }

    /** `refreshAnalytics`: the batch with the caller's options. */
    method RefreshAnalytics(options: Option<AnalyticsOptions>, summaryResponse: Result<Summary>,
                            categoryResponse: Result<seq<CategoryDatum>>, trendResponse: Result<seq<TrendPoint>>)
      modifies this
      ensures calls == old(calls) + [SummaryCall, BreakdownCall(RequestedPeriod(options)), TrendsCall(RequestedDays(options))]
      ensures summary == summaryResponse.ValueOr(old(summary))
      ensures categoryData == categoryResponse.ValueOr(old(categoryData))
      ensures trendData == trendResponse.ValueOr(old(trendData))
      ensures !loading
    {
      LoadAnalytics(options, summaryResponse, categoryResponse, trendResponse);
    }
  }

  /** A refresh whose breakdown call fails keeps the breakdown of the first load while the
      other two slices take the new values. */
  method FailedSliceKeepsPrevious(first: Summary, breakdown: seq<CategoryDatum>, trend: seq<TrendPoint>,
                                  second: Summary, trend2: seq<TrendPoint>, f: Failure)
    returns (s: Summary, c: seq<CategoryDatum>, t: seq<TrendPoint>, busy: bool)
    ensures s == second && c == breakdown && t == trend2 && !busy
  {
    var store := new AnalyticsStore();
    store.LoadAnalytics(None, Ok(first), Ok(breakdown), Ok(trend));
    store.RefreshAnalytics(Some(AnalyticsOptions(Some(Year), Some(7))), Ok(second), Err(f), Ok(trend2));
    s, c, t, busy := store.summary, store.categoryData, store.trendData, store.loading;
  }

  /** With no token stored, mounting shows the initial zero slices. */
  method SignedOutShowsZeros(entries: map<string, string>, r1: Result<Summary>,
                             r2: Result<seq<CategoryDatum>>, r3: Result<seq<TrendPoint>>)
    returns (s: Summary, c: seq<CategoryDatum>, t: seq<TrendPoint>)
    requires AuthTokenKey !in entries || entries[AuthTokenKey] == ""
    ensures s == ZeroSummary && c == [] && t == []
  {
    var storage := new LocalStorage(entries);
    var store := new AnalyticsStore();
    store.InitialLoad(storage, r1, r2, r3);
    s, c, t := store.summary, store.categoryData, store.trendData;
  }
}
