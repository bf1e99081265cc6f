/**
 * The issue handlers (nodes/LogRocket/actions/issue/index.ts).
 */
module IssueActions {
  import opened Json
  import opened Objects
  import opened Transport
  import opened Helpers
  import opened Actions

  const Operations: set<string> := {"getAll", "get", "getSessions", "resolve", "ignore", "assign"}

  /** The `getAll` filters, in source order. */
  const IssueRules: seq<Rule> :=
    [ Rule("type", "type", IfTruthy, AsIs),
      Rule("status", "status", IfTruthy, AsIs),
      Rule("severity", "severity", IfTruthy, AsIs),
      Rule("assignee", "assignee", IfTruthy, AsIs) ] + DateRules

  function IssueQuery(filters: Dict, toIso: Value -> Value): Dict
  {
    Fill(map[], filters, IssueRules, toIso)
  }

  function IssuePath(p: Dict): string
  {
    "/issues/" + Text(p, "issueId")
  }

  function GetAllPlan(ctx: Context, p: Dict): Plan
  {
    ListPlan(p, "issues", ["issues", "data"], "/issues", IssueQuery(Group(p, "filters"), ctx.toIso), EachIf(p, IssueView))
  }

  function GetPlan(p: Dict): Plan
  {
    FetchPlan(GET, IssuePath(p), map[], map[], ["issue"], OneIf(p, IssueView))
  }

  function GetSessionsPlan(p: Dict): Plan
  {
    ListPlan(p, "sessions", ["sessions", "data"], IssuePath(p) + "/sessions", map[], Keep)
  }

  /** `resolve` and `ignore`: a POST with no body to the issue's action path. */
  function ActionPlan(p: Dict, action: string): Plan
  {
    FetchPlan(POST, IssuePath(p) + "/" + action, map[], map[], ["issue"], Keep)
  }

  function AssignPlan(p: Dict): Plan
  {
    FetchPlan(POST, IssuePath(p) + "/assign", map["assignee" := Get(p, "assignee")], map[], ["issue"], Keep)
  }

  function PlanFor(operation: string, ctx: Context, p: Dict): Plan
    requires operation in Operations
  {
    if operation == "getAll" then GetAllPlan(ctx, p)
    else if operation == "get" then GetPlan(p)
    else if operation == "getSessions" then GetSessionsPlan(p)
    else if operation == "resolve" then ActionPlan(p, "resolve")
    else if operation == "ignore" then ActionPlan(p, "ignore")
    else AssignPlan(p)
  }

  lemma IssueRulesDistinct()
    ensures DistinctTargets(IssueRules)
    ensures Targets(IssueRules) == {"type", "status", "severity", "assignee", "start_date", "end_date"}
  {
  }

  /** Each `getAll` filter reaches the query exactly when truthy, the dates
      converted; nothing else does. */
  lemma IssueQueryFields(filters: Dict, toIso: Value -> Value)
    ensures var q := IssueQuery(filters, toIso);
      && q.Keys <= {"type", "status", "severity", "assignee", "start_date", "end_date"}
      && CopiedIfTruthy(q, "type", filters, "type")
      && CopiedIfTruthy(q, "status", filters, "status")
      && CopiedIfTruthy(q, "severity", filters, "severity")
      && CopiedIfTruthy(q, "assignee", filters, "assignee")
      && IncludedIff(q, "start_date", Truthy(Get(filters, "startDate")), toIso(Get(filters, "startDate")))
      && IncludedIff(q, "end_date", Truthy(Get(filters, "endDate")), toIso(Get(filters, "endDate")))
  {
    IssueRulesDistinct();
    FillSpec(map[], filters, IssueRules, toIso);
    var q := IssueQuery(filters, toIso);
    assert Decided(q, filters, IssueRules[0], toIso) && Decided(q, filters, IssueRules[1], toIso);
    assert Decided(q, filters, IssueRules[2], toIso) && Decided(q, filters, IssueRules[3], toIso);
    assert Decided(q, filters, IssueRules[4], toIso) && Decided(q, filters, IssueRules[5], toIso);
  }

  /** Without `returnAll` the query also gets `limit`; with it, the cursor
      loop runs over `issues` with the filter query alone. */
  lemma GetAllIssueCall(ctx: Context, p: Dict)
    ensures var q := IssueQuery(Group(p, "filters"), ctx.toIso);
      var call := GetAllPlan(ctx, p).call;
      && (ReturnAll(p) ==> call == SendAll("issues", GET, "/issues", map[], q) && "limit" !in call.query)
      && (!ReturnAll(p) ==> call == Send(GET, "/issues", map[], q["limit" := Get(p, "limit")]))
  {
    IssueQueryFields(Group(p, "filters"), ctx.toIso);
  }

  /** The listed issues fall back `issues`, `data`, `[]`; with `simplify`
      each goes through `simplifyIssue`, in order. */
  lemma GetAllListsIssues(ctx: Context, p: Dict)
    ensures var req := BuildRequest(ctx.creds, GET, "/issues", map[], IssueQuery(Group(p, "filters"), ctx.toIso)["limit" := Get(p, "limit")]);
      var out := RunPlan(ctx, GetAllPlan(ctx, p));
      !ReturnAll(p) && ctx.api(req).Answer? ==>
        var list := Or(Get(ctx.api(req).data, "issues"), Or(Get(ctx.api(req).data, "data"), Arr([])));
        && (!Simplify(p) ==> out == Returned(list))
        && (Simplify(p) && list.Arr? ==>
              && out.Returned? && out.v.Arr? && |out.v.items| == |list.items|
              && forall i :: 0 <= i < |list.items| ==> out.v.items[i] == Obj(SimplifyIssue(AsDict(list.items[i]))))
  {
    var q := IssueQuery(Group(p, "filters"), ctx.toIso);
    ListPlanResult(ctx, p, "issues", ["issues", "data"], "/issues", q, EachIf(p, IssueView));
    var req := BuildRequest(ctx.creds, GET, "/issues", map[], q["limit" := Get(p, "limit")]);
    if ctx.api(req).Answer? {
      FirstTruthyOfTwo(ctx.api(req).data, "issues", "data", Arr([]));
      EachAsKeepsOrder(IssueView, FirstTruthy(ctx.api(req).data, ["issues", "data"], Arr([])), ctx.creds.appId);
    }
  }

  /** `get` returns `issue`, else the whole answer, through `simplifyIssue`
      exactly when `simplify` is on. */
  lemma GetReturnsIssueOrAnswer(ctx: Context, p: Dict)
    ensures var req := BuildRequest(ctx.creds, GET, IssuePath(p), map[], map[]);
      ctx.api(req).Answer? ==>
        var issue := Or(Get(ctx.api(req).data, "issue"), Obj(ctx.api(req).data));
        && (Simplify(p) ==> RunPlan(ctx, GetPlan(p)) == Returned(Obj(SimplifyIssue(AsDict(issue)))))
        && (!Simplify(p) ==> RunPlan(ctx, GetPlan(p)) == Returned(issue))
  {
    FetchPlanResult(ctx, GET, IssuePath(p), map[], map[], ["issue"], OneIf(p, IssueView));
  }

  /** `resolve` and `ignore` POST to the issue's action path with no body,
      and return `issue`, else the whole answer. */
  lemma ResolveAndIgnoreRequests(ctx: Context, p: Dict, action: string)
    requires action == "resolve" || action == "ignore"
    ensures var req := BuildRequest(ctx.creds, POST, IssuePath(p) + "/" + action, map[], map[]);
      && req.verb == POST && req.uri == ApiBase + ctx.creds.appId + "/issues/" + Text(p, "issueId") + "/" + action
      && req.body == None && req.qs == None
      && (ctx.api(req).Answer? ==>
            RunPlan(ctx, ActionPlan(p, action)) == Returned(Or(Get(ctx.api(req).data, "issue"), Obj(ctx.api(req).data))))
  {
    var req := BuildRequest(ctx.creds, POST, IssuePath(p) + "/" + action, map[], map[]);
    FetchPlanResult(ctx, POST, IssuePath(p) + "/" + action, map[], map[], ["issue"], Keep);
    if ctx.api(req).Answer? {
      FirstTruthyOfTwo(ctx.api(req).data, "issue", "issue", Obj(ctx.api(req).data));
    }
  }

  /** `assign` POSTs exactly `{assignee}`. */
  lemma AssignBody(ctx: Context, p: Dict)
    ensures var req := BuildRequest(ctx.creds, POST, IssuePath(p) + "/assign", map["assignee" := Get(p, "assignee")], map[]);
      && AssignPlan(p).call.body.Keys == {"assignee"}
      && AssignPlan(p).call.body["assignee"] == Get(p, "assignee")
      && req.body == Some(map["assignee" := Get(p, "assignee")])
  {
  }

  /** The sessions of an issue are listed from its own path: `sessions`,
      else `data`, else `[]`, or every page of `sessions`. */
  lemma GetSessionsResult(ctx: Context, p: Dict)
    ensures var run := AllItems(ctx.api, ctx.creds, "sessions", GET, IssuePath(p) + "/sessions", map[], map[], ctx.fuel);
      ReturnAll(p) && run.Finished? ==> RunPlan(ctx, GetSessionsPlan(p)) == Returned(Arr(run.items))
    ensures var req := BuildRequest(ctx.creds, GET, IssuePath(p) + "/sessions", map[], map[]["limit" := Get(p, "limit")]);
      !ReturnAll(p) && ctx.api(req).Answer? ==>
        RunPlan(ctx, GetSessionsPlan(p))
        == Returned(Or(Get(ctx.api(req).data, "sessions"), Or(Get(ctx.api(req).data, "data"), Arr([]))))
  {
    ListKeyResult(ctx, p, "sessions", IssuePath(p) + "/sessions", map[]);
  }
}
