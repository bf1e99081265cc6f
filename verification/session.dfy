/**
 * The session handlers (nodes/LogRocket/actions/session/index.ts).
 */
module SessionActions {
  import opened Json
  import opened Transport
  import opened Helpers
  import opened Actions

  const Operations: set<string> :=
    {"getAll", "get", "getEvents", "getErrors", "getNetworkRequests", "getConsoleLogs", "getPerformance",
     "getSessionUrl"}

  /** `getAll`: the filters become the query through `buildSessionQuery`. */
  function GetAllPlan(ctx: Context, p: Dict): Plan
  {
    ListPlan(p, "sessions", ["sessions", "data"], "/sessions", SessionQuery(Group(p, "filters"), ctx.toIso),
             EachIf(p, SessionView))
  }

  function GetPlan(p: Dict): Plan
  {
    FetchPlan(GET, "/sessions/" + Text(p, "sessionId"), map[], map[], ["session"], OneIf(p, SessionView))
  }

  function GetEventsPlan(p: Dict): Plan
  {
    ListFetchPlan("/sessions/" + Text(p, "sessionId") + "/events", map[], ["events", "data"], Keep)
  }

  function GetErrorsPlan(p: Dict): Plan
  {
    ListFetchPlan("/sessions/" + Text(p, "sessionId") + "/errors", map[], ["errors", "data"], Keep)
  }

  function GetNetworkRequestsPlan(p: Dict): Plan
  {
    ListFetchPlan("/sessions/" + Text(p, "sessionId") + "/network", map[], ["requests", "network", "data"], Keep)
  }

  function GetConsoleLogsPlan(p: Dict): Plan
  {
    ListFetchPlan("/sessions/" + Text(p, "sessionId") + "/console", map[], ["logs", "console", "data"], Keep)
  }

  function GetPerformancePlan(p: Dict): Plan
  {
    FetchPlan(GET, "/sessions/" + Text(p, "sessionId") + "/performance", map[], map[], ["performance"], Keep)
  }

  /** `getSessionUrl`: no request; a falsy timestamp counts as none. */
  function GetSessionUrlPlan(ctx: Context, p: Dict): Plan
  {
    var timestamp := Get(p, "timestamp");
    var url := BuildSessionUrl(ctx.creds.appId, Text(p, "sessionId"), Or(timestamp, Undefined));
    Plan(Offline,
         Constant(Obj(map["sessionId" := Get(p, "sessionId"), "url" := Str(url), "timestamp" := Or(timestamp, Null)])),
         Keep)
  }

  function PlanFor(operation: string, ctx: Context, p: Dict): Plan
    requires operation in Operations
  {
    if operation == "getAll" then GetAllPlan(ctx, p)
    else if operation == "get" then GetPlan(p)
    else if operation == "getEvents" then GetEventsPlan(p)
    else if operation == "getErrors" then GetErrorsPlan(p)
    else if operation == "getNetworkRequests" then GetNetworkRequestsPlan(p)
    else if operation == "getConsoleLogs" then GetConsoleLogsPlan(p)
    else if operation == "getPerformance" then GetPerformancePlan(p)
    else GetSessionUrlPlan(ctx, p)
  }

  /** `getAll` sends the query `buildSessionQuery` makes of the filters;
      without `returnAll` its `limit` is then set to the `limit` parameter,
      overriding a `limit` filter, and every other key is kept. */
  lemma GetAllSendsSessionQuery(ctx: Context, p: Dict)
    ensures var q := SessionQuery(Group(p, "filters"), ctx.toIso);
      var call := GetAllPlan(ctx, p).call;
      && (ReturnAll(p) ==> call == SendAll("sessions", GET, "/sessions", map[], q))
      && (!ReturnAll(p) ==> call.Send? && call.endpoint == "/sessions" && Get(call.query, "limit") == Get(p, "limit"))
      && (!ReturnAll(p) ==> forall k :: k in q && k != "limit" ==> k in call.query && call.query[k] == q[k])
      && (!ReturnAll(p) ==> call.query.Keys == q.Keys + {"limit"})
  {
    ListPlanQuery(p, "sessions", ["sessions", "data"], "/sessions", SessionQuery(Group(p, "filters"), ctx.toIso),
                  EachIf(p, SessionView));
  }

  /** The listed sessions are `sessions`, else `data`, else `[]`; with
      `simplify` each goes through `simplifySession` with the credentials'
      app id, in order. */
  lemma GetAllListsSessions(ctx: Context, p: Dict)
    ensures var q := SessionQuery(Group(p, "filters"), ctx.toIso);
      var req := BuildRequest(ctx.creds, GET, "/sessions", map[], q["limit" := Get(p, "limit")]);
      var out := RunPlan(ctx, GetAllPlan(ctx, p));
      !ReturnAll(p) && ctx.api(req).Answer? ==>
        var list := FirstTruthy(ctx.api(req).data, ["sessions", "data"], Arr([]));
        && (!Simplify(p) ==> out == Returned(list))
        && (Simplify(p) && list.Arr? ==>
              && out.Returned? && out.v.Arr? && |out.v.items| == |list.items|
              && forall i :: 0 <= i < |list.items| ==>
                   out.v.items[i] == Obj(SimplifySession(AsDict(list.items[i]), ctx.creds.appId)))
  {
    var q := SessionQuery(Group(p, "filters"), ctx.toIso);
    ListPlanResult(ctx, p, "sessions", ["sessions", "data"], "/sessions", q, EachIf(p, SessionView));
    var req := BuildRequest(ctx.creds, GET, "/sessions", map[], q["limit" := Get(p, "limit")]);
    if ctx.api(req).Answer? {
      EachAsKeepsOrder(SessionView, FirstTruthy(ctx.api(req).data, ["sessions", "data"], Arr([])), ctx.creds.appId);
    }
  }

  /** `get` returns `session` when truthy, else the whole answer, through
      `simplifySession` exactly when `simplify` is on. */
  lemma GetReturnsSessionOrAnswer(ctx: Context, p: Dict)
    ensures var req := BuildRequest(ctx.creds, GET, "/sessions/" + Text(p, "sessionId"), map[], map[]);
      ctx.api(req).Answer? ==>
        var session := Or(Get(ctx.api(req).data, "session"), Obj(ctx.api(req).data));
        && (Simplify(p) ==> RunPlan(ctx, GetPlan(p)) == Returned(Obj(SimplifySession(AsDict(session), ctx.creds.appId))))
        && (!Simplify(p) ==> RunPlan(ctx, GetPlan(p)) == Returned(session))
  {
    FetchPlanResult(ctx, GET, "/sessions/" + Text(p, "sessionId"), map[], map[], ["session"], OneIf(p, SessionView));
  }

  /** Network requests fall back `requests`, `network`, `data`, `[]`; console
      logs `logs`, `console`, `data`, `[]`. */
  lemma NetworkAndConsoleFallbacks(ctx: Context, p: Dict)
    ensures var req := BuildRequest(ctx.creds, GET, "/sessions/" + Text(p, "sessionId") + "/network", map[], map[]);
      ctx.api(req).Answer? ==>
        RunPlan(ctx, GetNetworkRequestsPlan(p))
        == Returned(Or(Get(ctx.api(req).data, "requests"), Or(Get(ctx.api(req).data, "network"),
                       Or(Get(ctx.api(req).data, "data"), Arr([])))))
    ensures var req := BuildRequest(ctx.creds, GET, "/sessions/" + Text(p, "sessionId") + "/console", map[], map[]);
      ctx.api(req).Answer? ==>
        RunPlan(ctx, GetConsoleLogsPlan(p))
        == Returned(Or(Get(ctx.api(req).data, "logs"), Or(Get(ctx.api(req).data, "console"),
                       Or(Get(ctx.api(req).data, "data"), Arr([])))))
  {
    var net := "/sessions/" + Text(p, "sessionId") + "/network";
    ListFetchPlanResult(ctx, net, map[], ["requests", "network", "data"], Keep);
    var a := ctx.api(BuildRequest(ctx.creds, GET, net, map[], map[]));
    if a.Answer? {
      FirstTruthyOfThree(a.data, "requests", "network", "data", Arr([]));
    }
    var con := "/sessions/" + Text(p, "sessionId") + "/console";
    ListFetchPlanResult(ctx, con, map[], ["logs", "console", "data"], Keep);
    var b := ctx.api(BuildRequest(ctx.creds, GET, con, map[], map[]));
    if b.Answer? {
      FirstTruthyOfThree(b.data, "logs", "console", "data", Arr([]));
    }
  }

  /** `getSessionUrl` sends nothing; a timestamp of 0 counts as none: the
      link has no `?t=` and the returned `timestamp` is `null`. */
  lemma SessionUrlOmitsZeroTimestamp(ctx: Context, p: Dict)
    requires !Truthy(Get(p, "timestamp"))
    ensures RunPlan(ctx, GetSessionUrlPlan(ctx, p))
         == Returned(Obj(map["sessionId" := Get(p, "sessionId"),
                             "url" := Str(ReplayBase + ctx.creds.appId + "/sessions/" + Text(p, "sessionId")),
                             "timestamp" := Null]))
  {
  }

  /** A truthy timestamp is appended as `?t=` and returned as given. */
  lemma SessionUrlWithTimestamp(ctx: Context, p: Dict)
    requires Truthy(Get(p, "timestamp"))
    ensures var out := RunPlan(ctx, GetSessionUrlPlan(ctx, p));
      && out.Returned? && out.v.Obj?
      && Get(out.v.fields, "url")
         == Str(ReplayBase + ctx.creds.appId + "/sessions/" + Text(p, "sessionId") + "?t=" + ToText(Get(p, "timestamp")))
      && Get(out.v.fields, "timestamp") == Get(p, "timestamp")
  {
  }

  /** Events and errors of a session fall back `events` (or `errors`),
      `data`, `[]`; its performance is `performance`, else the answer. */
  lemma SessionDetailFallbacks(ctx: Context, p: Dict)
    ensures var req := BuildRequest(ctx.creds, GET, "/sessions/" + Text(p, "sessionId") + "/events", map[], map[]);
      ctx.api(req).Answer? ==>
        RunPlan(ctx, GetEventsPlan(p))
        == Returned(Or(Get(ctx.api(req).data, "events"), Or(Get(ctx.api(req).data, "data"), Arr([]))))
    ensures var req := BuildRequest(ctx.creds, GET, "/sessions/" + Text(p, "sessionId") + "/errors", map[], map[]);
      ctx.api(req).Answer? ==>
        RunPlan(ctx, GetErrorsPlan(p))
        == Returned(Or(Get(ctx.api(req).data, "errors"), Or(Get(ctx.api(req).data, "data"), Arr([]))))
    ensures var req := BuildRequest(ctx.creds, GET, "/sessions/" + Text(p, "sessionId") + "/performance", map[], map[]);
      ctx.api(req).Answer? ==>
        RunPlan(ctx, GetPerformancePlan(p))
        == Returned(Or(Get(ctx.api(req).data, "performance"), Obj(ctx.api(req).data)))
  {
    var ev := "/sessions/" + Text(p, "sessionId") + "/events";
    ListFetchPlanResult(ctx, ev, map[], ["events", "data"], Keep);
    var a := ctx.api(BuildRequest(ctx.creds, GET, ev, map[], map[]));
    if a.Answer? {
      FirstTruthyOfTwo(a.data, "events", "data", Arr([]));
    }
    var er := "/sessions/" + Text(p, "sessionId") + "/errors";
    ListFetchPlanResult(ctx, er, map[], ["errors", "data"], Keep);
    var b := ctx.api(BuildRequest(ctx.creds, GET, er, map[], map[]));
    if b.Answer? {
      FirstTruthyOfTwo(b.data, "errors", "data", Arr([]));
    }
    FetchKeyResult(ctx, GET, "/sessions/" + Text(p, "sessionId") + "/performance", map[], map[], "performance");
  }
}
