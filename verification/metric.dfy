/**
 * The metric handlers (nodes/LogRocket/actions/metric/index.ts): five
 * time-series queries, two of them with page filters, whose listed points
 * always go through `simplifyMetric`.
 */
module MetricActions {
  import opened Json
  import opened Objects
  import opened Transport
  import opened Helpers
  import opened Actions
  import opened Strings

  const Operations: set<string> :=
    {"getPageViews", "getSessionMetrics", "getErrorMetrics", "getPerformanceMetrics", "getCustomMetrics"}

  /** `url`, `browser` and `os` from the truthy page filters. */
  const FilterRules: seq<Rule> :=
    [Rule("url", "url", IfTruthy, AsIs), Rule("browser", "browser", IfTruthy, AsIs), Rule("os", "os", IfTruthy, AsIs)]

  /** The time-series options alone (errors and custom metrics). */
  function SeriesQuery(p: Dict, toIso: Value -> Value): Dict
  {
    Fill(map[], Group(p, "options"), SeriesRules, toIso)
  }

  /** The time-series options, then the page filters (page views and
      sessions). */
  function FilteredQuery(p: Dict, toIso: Value -> Value): Dict
  {
    Fill(SeriesQuery(p, toIso), Group(p, "filters"), FilterRules, toIso)
  }

  /** `metric` when the chosen performance metric is truthy and not `'all'`,
      then the time-series options. */
  function PerformanceQuery(p: Dict, toIso: Value -> Value): Dict
  {
    var pm := Get(p, "performanceMetric");
    Fill(PutIf(map[], Truthy(pm) && pm != Str("all"), "metric", pm), Group(p, "options"), SeriesRules, toIso)
  }

  function CustomPath(p: Dict): string
  {
    "/metrics/custom/" + EncodeUriComponent(Text(p, "metricName"))
  }

  /** Every metric handler: `(metrics || data || []).map(simplifyMetric)`. */
  function MetricPlan(endpoint: string, query: Dict): Plan
  {
    ListFetchPlan(endpoint, query, ["metrics", "data"], EachAs(MetricView))
  }

  function PlanFor(operation: string, ctx: Context, p: Dict): Plan
    requires operation in Operations
  {
    if operation == "getPageViews" then MetricPlan("/metrics/pageviews", FilteredQuery(p, ctx.toIso))
    else if operation == "getSessionMetrics" then MetricPlan("/metrics/sessions", FilteredQuery(p, ctx.toIso))
    else if operation == "getErrorMetrics" then MetricPlan("/metrics/errors", SeriesQuery(p, ctx.toIso))
    else if operation == "getPerformanceMetrics" then MetricPlan("/metrics/performance", PerformanceQuery(p, ctx.toIso))
    else MetricPlan(CustomPath(p), SeriesQuery(p, ctx.toIso))
  }

  lemma FilterRulesDistinct()
    ensures DistinctTargets(FilterRules)
    ensures Targets(FilterRules) == {"url", "browser", "os"}
  {
  }

  /** The options-only query holds the time-series keys and nothing else:
      no page filter reaches the error, performance or custom endpoints. */
  lemma SeriesQueryFields(p: Dict, toIso: Value -> Value)
    ensures var q := SeriesQuery(p, toIso);
      && q.Keys <= {"start_date", "end_date", "interval", "group_by"}
      && IncludedIff(q, "start_date", Truthy(Get(Group(p, "options"), "startDate")),
                     toIso(Get(Group(p, "options"), "startDate")))
      && IncludedIff(q, "end_date", Truthy(Get(Group(p, "options"), "endDate")),
                     toIso(Get(Group(p, "options"), "endDate")))
      && CopiedIfTruthy(q, "interval", Group(p, "options"), "interval")
      && CopiedIfTruthy(q, "group_by", Group(p, "options"), "groupBy")
  {
    SeriesFields(map[], Group(p, "options"), toIso);
  }

  /** Page views and sessions add each page filter exactly when truthy, on
      top of the options query, which they keep. */
  lemma FilteredQueryFields(p: Dict, toIso: Value -> Value)
    ensures var q := FilteredQuery(p, toIso);
      && q.Keys <= {"start_date", "end_date", "interval", "group_by", "url", "browser", "os"}
      && (forall k :: k in SeriesQuery(p, toIso) ==> k in q && q[k] == SeriesQuery(p, toIso)[k])
      && CopiedIfTruthy(q, "url", Group(p, "filters"), "url")
      && CopiedIfTruthy(q, "browser", Group(p, "filters"), "browser")
      && CopiedIfTruthy(q, "os", Group(p, "filters"), "os")
  {
    var q0 := SeriesQuery(p, toIso);
    var filters := Group(p, "filters");
    SeriesQueryFields(p, toIso);
    FilterRulesDistinct();
    FillSpec(q0, filters, FilterRules, toIso);
    var q := FilteredQuery(p, toIso);
    assert Decided(q, filters, FilterRules[0], toIso);
    assert Decided(q, filters, FilterRules[1], toIso);
    assert Decided(q, filters, FilterRules[2], toIso);
  }

  /** `metric` is sent exactly when the choice is truthy and not `'all'`;
      the options follow as for the other endpoints. */
  lemma PerformanceQueryFields(p: Dict, toIso: Value -> Value)
    ensures var q := PerformanceQuery(p, toIso);
      var pm := Get(p, "performanceMetric");
      && q.Keys <= {"metric", "start_date", "end_date", "interval", "group_by"}
      && IncludedIff(q, "metric", Truthy(pm) && pm != Str("all"), pm)
      && IncludedIff(q, "start_date", Truthy(Get(Group(p, "options"), "startDate")), toIso(Get(Group(p, "options"), "startDate")))
      && IncludedIff(q, "end_date", Truthy(Get(Group(p, "options"), "endDate")), toIso(Get(Group(p, "options"), "endDate")))
      && CopiedIfTruthy(q, "interval", Group(p, "options"), "interval")
      && CopiedIfTruthy(q, "group_by", Group(p, "options"), "groupBy")
  {
    var pm := Get(p, "performanceMetric");
    SeriesFields(PutIf(map[], Truthy(pm) && pm != Str("all"), "metric", pm), Group(p, "options"), toIso);
  }

  /** The custom metric's name is one percent-encoded path segment. */
  lemma CustomPathEncoded(p: Dict)
    ensures CustomPath(p) == "/metrics/custom/" + EncodeUriComponent(Text(p, "metricName"))
    ensures forall i :: 0 <= i < |EncodeUriComponent(Text(p, "metricName"))| ==>
              EncodeUriComponent(Text(p, "metricName"))[i] !in {'/', '?', '#'}
  {
    EncodedHasNoDelimiters(Text(p, "metricName"));
  }

  /** Every metric handler returns `metrics`, else `data`, else `[]`, each
      point through `simplifyMetric`, in order; a truthy non-array list
      makes `.map` throw. */
  lemma MetricsSimplified(ctx: Context, endpoint: string, query: Dict)
    ensures var req := BuildRequest(ctx.creds, GET, endpoint, map[], query);
      ctx.api(req).Answer? ==>
        var list := Or(Get(ctx.api(req).data, "metrics"), Or(Get(ctx.api(req).data, "data"), Arr([])));
        var out := RunPlan(ctx, MetricPlan(endpoint, query));
        && (list.Arr? ==> out.Returned? && out.v.Arr? && |out.v.items| == |list.items|)
        && (list.Arr? ==> forall i :: 0 <= i < |list.items| ==>
                             out.v.items[i] == Obj(SimplifyMetric(AsDict(list.items[i]))))
        && (!list.Arr? ==> out.Threw?)
  {
    ListFetchPlanResult(ctx, endpoint, query, ["metrics", "data"], EachAs(MetricView));
    var req := BuildRequest(ctx.creds, GET, endpoint, map[], query);
    if ctx.api(req).Answer? {
      FirstTruthyOfTwo(ctx.api(req).data, "metrics", "data", Arr([]));
      EachAsKeepsOrder(MetricView, FirstTruthy(ctx.api(req).data, ["metrics", "data"], Arr([])), ctx.creds.appId);
    }
  }
}
