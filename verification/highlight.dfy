/**
 * The highlight handlers (nodes/LogRocket/actions/highlight/index.ts): three
 * query builders with different inclusion rules; every answer is returned
 * as it is.
 */
module HighlightActions {
  import opened Json
  import opened Objects
  import opened Transport
  import opened Actions

  const Operations: set<string> := {"getForUser", "getForSession", "getForTimeRange"}

  /** `start_ms` and `end_ms` from a truthy `startMs` and `endMs`. */
  const TimeRangeRules: seq<Rule> :=
    [Rule("start_ms", "startMs", IfTruthy, AsIs), Rule("end_ms", "endMs", IfTruthy, AsIs)]

  /** `getForUser`: the time range first, then the webhook option. */
  function ForUserQuery(p: Dict, toIso: Value -> Value): Dict
  {
    Fill(Fill(map[], Group(p, "timeRange"), TimeRangeRules, toIso), Group(p, "options"), [WebhookRule], toIso)
  }

  function ForSessionQuery(p: Dict, toIso: Value -> Value): Dict
  {
    Fill(map[], Group(p, "options"), [WebhookRule], toIso)
  }

  /** `getForTimeRange`: both bounds always, then the webhook option. */
  function ForTimeRangeQuery(p: Dict, toIso: Value -> Value): Dict
  {
    Fill(map["start_ms" := Get(p, "startMs"), "end_ms" := Get(p, "endMs")], Group(p, "options"), [WebhookRule], toIso)
  }

  function ForUserPlan(ctx: Context, p: Dict): Plan
  {
    Plan(Send(GET, "/users/" + Text(p, "userId") + "/highlights", map[], ForUserQuery(p, ctx.toIso)), Whole, Keep)
  }

  function ForSessionPlan(ctx: Context, p: Dict): Plan
  {
    Plan(Send(GET, "/sessions/" + Text(p, "sessionId") + "/highlights", map[], ForSessionQuery(p, ctx.toIso)), Whole, Keep)
  }

  function ForTimeRangePlan(ctx: Context, p: Dict): Plan
  {
    Plan(Send(GET, "/highlights", map[], ForTimeRangeQuery(p, ctx.toIso)), Whole, Keep)
  }

  function PlanFor(operation: string, ctx: Context, p: Dict): Plan
    requires operation in Operations
  {
    if operation == "getForUser" then ForUserPlan(ctx, p)
    else if operation == "getForSession" then ForSessionPlan(ctx, p)
    else ForTimeRangePlan(ctx, p)
  }

  /** `getForUser` sends `start_ms`, `end_ms` and `webhook_url` each only
      when truthy, so a bound of 0 is left out. */
  lemma ForUserQueryFields(p: Dict, toIso: Value -> Value)
    ensures var q := ForUserQuery(p, toIso);
      && q.Keys <= {"start_ms", "end_ms", "webhook_url"}
      && CopiedIfTruthy(q, "start_ms", Group(p, "timeRange"), "startMs")
      && CopiedIfTruthy(q, "end_ms", Group(p, "timeRange"), "endMs")
      && CopiedIfTruthy(q, "webhook_url", Group(p, "options"), "webhookUrl")
      && (Get(Group(p, "timeRange"), "startMs") == Num(0) ==> "start_ms" !in q)
  {
    var range := Group(p, "timeRange");
    FillSpec(map[], range, TimeRangeRules, toIso);
    var q0 := Fill(map[], range, TimeRangeRules, toIso);
    assert Decided(q0, range, TimeRangeRules[0], toIso) && Decided(q0, range, TimeRangeRules[1], toIso);
    assert Targets(TimeRangeRules) == {"start_ms", "end_ms"};
    FillSpec(q0, Group(p, "options"), [WebhookRule], toIso);
    assert Targets([WebhookRule]) == {"webhook_url"};
    assert Decided(ForUserQuery(p, toIso), Group(p, "options"), [WebhookRule][0], toIso);
  }

  /** `getForSession` sends `webhook_url` only when truthy, and nothing else. */
  lemma ForSessionQueryFields(p: Dict, toIso: Value -> Value)
    ensures var q := ForSessionQuery(p, toIso);
      q.Keys <= {"webhook_url"} && CopiedIfTruthy(q, "webhook_url", Group(p, "options"), "webhookUrl")
  {
    FillSpec(map[], Group(p, "options"), [WebhookRule], toIso);
    assert Targets([WebhookRule]) == {"webhook_url"};
    assert Decided(ForSessionQuery(p, toIso), Group(p, "options"), [WebhookRule][0], toIso);
  }

  /** `getForTimeRange` always sends both bounds, even 0 or missing, and
      `webhook_url` only when truthy. */
  lemma ForTimeRangeAlwaysHasBounds(p: Dict, toIso: Value -> Value)
    ensures var q := ForTimeRangeQuery(p, toIso);
      && q.Keys <= {"start_ms", "end_ms", "webhook_url"}
      && "start_ms" in q && q["start_ms"] == Get(p, "startMs")
      && "end_ms" in q && q["end_ms"] == Get(p, "endMs")
      && CopiedIfTruthy(q, "webhook_url", Group(p, "options"), "webhookUrl")
  {
    var q0 := map["start_ms" := Get(p, "startMs"), "end_ms" := Get(p, "endMs")];
    FillSpec(q0, Group(p, "options"), [WebhookRule], toIso);
    assert Targets([WebhookRule]) == {"webhook_url"};
    assert Decided(ForTimeRangeQuery(p, toIso), Group(p, "options"), [WebhookRule][0], toIso);
  }

  /** Each highlight handler returns the answer unchanged, from its own path. */
  lemma HighlightsReturnedUnchanged(ctx: Context, p: Dict)
    ensures ForUserPlan(ctx, p).call.endpoint == "/users/" + Text(p, "userId") + "/highlights"
    ensures ForSessionPlan(ctx, p).call.endpoint == "/sessions/" + Text(p, "sessionId") + "/highlights"
    ensures ForTimeRangePlan(ctx, p).call.endpoint == "/highlights"
    ensures var req := BuildRequest(ctx.creds, GET, "/highlights", map[], ForTimeRangeQuery(p, ctx.toIso));
      ctx.api(req).Answer? ==> RunPlan(ctx, ForTimeRangePlan(ctx, p)) == Returned(Obj(ctx.api(req).data))
    ensures var req := BuildRequest(ctx.creds, GET, "/users/" + Text(p, "userId") + "/highlights", map[],
                                    ForUserQuery(p, ctx.toIso));
      ctx.api(req).Answer? ==> RunPlan(ctx, ForUserPlan(ctx, p)) == Returned(Obj(ctx.api(req).data))
    ensures var req := BuildRequest(ctx.creds, GET, "/sessions/" + Text(p, "sessionId") + "/highlights", map[],
                                    ForSessionQuery(p, ctx.toIso));
      ctx.api(req).Answer? ==> RunPlan(ctx, ForSessionPlan(ctx, p)) == Returned(Obj(ctx.api(req).data))
  {
  }
}
