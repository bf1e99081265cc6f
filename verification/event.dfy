/**
 * The event handlers (nodes/LogRocket/actions/event/index.ts). The event
 * name is written into every path through `encodeURIComponent`.
 */
module EventActions {
  import opened Json
  import opened Strings
  import opened Objects
  import opened Transport
  import opened Helpers
  import opened Actions

  const Operations: set<string> := {"getAll", "get", "getSessions", "getMetrics"}

  /** The `getAll` filters, in source order. */
  const EventRules: seq<Rule> :=
    [ Rule("name", "eventName", IfTruthy, AsIs),
      Rule("type", "eventType", IfTruthy, AsIs),
      Rule("user_id", "userId", IfTruthy, AsIs) ] + DateRules

  function EventQuery(filters: Dict, toIso: Value -> Value): Dict
  {
    Fill(map[], filters, EventRules, toIso)
  }

  /** `/events/${encodeURIComponent(eventName)}`. */
  function EventPath(p: Dict): string
  {
    "/events/" + EncodeUriComponent(Text(p, "eventName"))
  }

  function GetAllPlan(ctx: Context, p: Dict): Plan
  {
    ListPlan(p, "events", ["events", "data"], "/events", EventQuery(Group(p, "filters"), ctx.toIso), EachIf(p, EventView))
  }

  function GetPlan(p: Dict): Plan
  {
    GetPlanAt(EventPath(p), p)
  }

  /** `get` on an already encoded path. */
  function GetPlanAt(path: string, p: Dict): Plan
  {
    FetchPlan(GET, path, map[], map[], ["event"], OneIf(p, EventView))
  }

  function GetSessionsPlan(ctx: Context, p: Dict): Plan
  {
    ListPlan(p, "sessions", ["sessions", "data"], EventPath(p) + "/sessions", DateQuery(Group(p, "options"), ctx.toIso),
             Keep)
  }

  /** The metric options come from the `metricOptions` parameter. */
  function MetricsQuery(options: Dict, toIso: Value -> Value): Dict
  {
    Fill(map[], options, SeriesRules, toIso)
  }

  function GetMetricsPlan(ctx: Context, p: Dict): Plan
  {
    ListFetchPlan(EventPath(p) + "/metrics", MetricsQuery(Group(p, "metricOptions"), ctx.toIso), ["metrics", "data"], Keep)
  }

  function PlanFor(operation: string, ctx: Context, p: Dict): Plan
    requires operation in Operations
  {
    if operation == "getAll" then GetAllPlan(ctx, p)
    else if operation == "get" then GetPlan(p)
    else if operation == "getSessions" then GetSessionsPlan(ctx, p)
    else GetMetricsPlan(ctx, p)
  }

  lemma EventRulesDistinct()
    ensures DistinctTargets(EventRules)
    ensures Targets(EventRules) == {"name", "type", "user_id", "start_date", "end_date"}
  {
  }

  /** `eventName`, `eventType` and `userId` are sent as `name`, `type` and
      `user_id`, each only when truthy; the dates only when truthy,
      converted; nothing else. */
  lemma EventQueryRenames(filters: Dict, toIso: Value -> Value)
    ensures var q := EventQuery(filters, toIso);
      && q.Keys <= {"name", "type", "user_id", "start_date", "end_date"}
      && CopiedIfTruthy(q, "name", filters, "eventName")
      && CopiedIfTruthy(q, "type", filters, "eventType")
      && CopiedIfTruthy(q, "user_id", filters, "userId")
      && IncludedIff(q, "start_date", Truthy(Get(filters, "startDate")), toIso(Get(filters, "startDate")))
      && IncludedIff(q, "end_date", Truthy(Get(filters, "endDate")), toIso(Get(filters, "endDate")))
  {
    EventRulesDistinct();
    FillSpec(map[], filters, EventRules, toIso);
    var q := EventQuery(filters, toIso);
    assert Decided(q, filters, EventRules[0], toIso) && Decided(q, filters, EventRules[1], toIso);
    assert Decided(q, filters, EventRules[2], toIso);
    assert Decided(q, filters, EventRules[3], toIso) && Decided(q, filters, EventRules[4], toIso);
  }

  /** Every event path carries the encoded name as one whole segment: the
      encoding holds no `/`, `?` or `#`, whatever the name. */
  lemma EventPathsEncoded(ctx: Context, p: Dict)
    ensures var segment := EncodeUriComponent(Text(p, "eventName"));
      && GetPlan(p) == GetPlanAt("/events/" + segment, p)
      && GetSessionsPlan(ctx, p).call.endpoint == "/events/" + segment + "/sessions"
      && GetMetricsPlan(ctx, p).call.endpoint == "/events/" + segment + "/metrics"
      && '/' !in segment && '?' !in segment && '#' !in segment
  {
    EncodedHasNoDelimiters(Text(p, "eventName"));
  }

  /** `get` returns `event`, else the whole answer, as it is when `simplify`
      is off (stated for the encoded path, which `EventPathsEncoded` pins
      down)... */
  lemma GetReturnsEventOrAnswer(ctx: Context, p: Dict, path: string)
    requires !Simplify(p)
    ensures var req := BuildRequest(ctx.creds, GET, path, map[], map[]);
      ctx.api(req).Answer? ==>
        RunPlan(ctx, GetPlanAt(path, p)) == Returned(Or(Get(ctx.api(req).data, "event"), Obj(ctx.api(req).data)))
  {
    FetchOneResult(ctx, path, "event", EventView, false);
  }

  /** ... and through `simplifyEvent` when it is on. */
  lemma GetSimplifiesEvent(ctx: Context, p: Dict, path: string)
    requires Simplify(p)
    ensures var req := BuildRequest(ctx.creds, GET, path, map[], map[]);
      ctx.api(req).Answer? ==>
        RunPlan(ctx, GetPlanAt(path, p))
        == Returned(Obj(SimplifyEvent(AsDict(Or(Get(ctx.api(req).data, "event"), Obj(ctx.api(req).data))))))
  {
    FetchOneResult(ctx, path, "event", EventView, true);
  }

  /** Without `simplify`, `getAll` lists `events`, else `data`, else `[]`. */
  lemma GetAllListsEvents(ctx: Context, p: Dict)
    requires !Simplify(p)
    ensures var req := BuildRequest(ctx.creds, GET, "/events", map[], EventQuery(Group(p, "filters"), ctx.toIso)["limit" := Get(p, "limit")]);
      !ReturnAll(p) && ctx.api(req).Answer? ==>
        RunPlan(ctx, GetAllPlan(ctx, p))
        == Returned(Or(Get(ctx.api(req).data, "events"), Or(Get(ctx.api(req).data, "data"), Arr([]))))
  {
    ListViewResult(ctx, p, "events", "/events", EventQuery(Group(p, "filters"), ctx.toIso), EventView);
  }

  /** With `simplify`, each listed event goes through `simplifyEvent`, in
      order. */
  lemma GetAllSimplifiesEvents(ctx: Context, p: Dict)
    requires Simplify(p)
    ensures var req := BuildRequest(ctx.creds, GET, "/events", map[], EventQuery(Group(p, "filters"), ctx.toIso)["limit" := Get(p, "limit")]);
      var out := RunPlan(ctx, GetAllPlan(ctx, p));
      !ReturnAll(p) && ctx.api(req).Answer? ==>
        var list := Or(Get(ctx.api(req).data, "events"), Or(Get(ctx.api(req).data, "data"), Arr([])));
        list.Arr? ==>
          && out.Returned? && out.v.Arr? && |out.v.items| == |list.items|
          && forall i :: 0 <= i < |list.items| ==> out.v.items[i] == Obj(SimplifyEvent(AsDict(list.items[i])))
  {
    ListViewResult(ctx, p, "events", "/events", EventQuery(Group(p, "filters"), ctx.toIso), EventView);
  }

  /** `getSessions` sends the truthy dates, plus `limit` when not returning
      all. */
  lemma GetSessionsQuery(ctx: Context, p: Dict)
    ensures var q := DateQuery(Group(p, "options"), ctx.toIso);
      var call := GetSessionsPlan(ctx, p).call;
      && (ReturnAll(p) ==> call.query == q && call.property == "sessions")
      && (!ReturnAll(p) ==> call.query == q["limit" := Get(p, "limit")])
      && q.Keys <= {"start_date", "end_date"}
  {
    DateQueryFields(Group(p, "options"), ctx.toIso);
  }

  /** `getMetrics` reads `metricOptions`: the dates, `interval` and
      `group_by` (from `groupBy`) only when truthy; the list falls back
      `metrics`, `data`, `[]`. */
  lemma GetMetricsQuery(ctx: Context, p: Dict)
    ensures var options := Group(p, "metricOptions");
      var q := GetMetricsPlan(ctx, p).call.query;
      && q.Keys <= {"start_date", "end_date", "interval", "group_by"}
      && CopiedIfTruthy(q, "interval", options, "interval")
      && CopiedIfTruthy(q, "group_by", options, "groupBy")
      && IncludedIff(q, "start_date", Truthy(Get(options, "startDate")), ctx.toIso(Get(options, "startDate")))
      && IncludedIff(q, "end_date", Truthy(Get(options, "endDate")), ctx.toIso(Get(options, "endDate")))
  {
    SeriesFields(map[], Group(p, "metricOptions"), ctx.toIso);
  }

  lemma GetMetricsResult(ctx: Context, p: Dict)
    ensures var req := BuildRequest(ctx.creds, GET, EventPath(p) + "/metrics", map[],
                                    MetricsQuery(Group(p, "metricOptions"), ctx.toIso));
      ctx.api(req).Answer? ==>
        RunPlan(ctx, GetMetricsPlan(ctx, p))
        == Returned(Or(Get(ctx.api(req).data, "metrics"), Or(Get(ctx.api(req).data, "data"), Arr([]))))
  {
    var q := MetricsQuery(Group(p, "metricOptions"), ctx.toIso);
    var req := BuildRequest(ctx.creds, GET, EventPath(p) + "/metrics", map[], q);
    ListFetchPlanResult(ctx, EventPath(p) + "/metrics", q, ["metrics", "data"], Keep);
    if ctx.api(req).Answer? {
      FirstTruthyOfTwo(ctx.api(req).data, "metrics", "data", Arr([]));
    }
  }
}
