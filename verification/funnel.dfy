/**
 * The funnel handlers (nodes/LogRocket/actions/funnel/index.ts).
 */
module FunnelActions {
  import opened Json
  import opened Transport
  import opened Actions
  import opened Collections

  const Operations: set<string> := {"getAll", "get", "create", "update", "delete", "getResults"}

  /** The fields copied from each step entry. */
  const StepFields: seq<string> := ["name", "type", "value"]

  /** The steps a `steps` collection gives: one `{ name, type, value }` per
      entry of `stepValues`. */
  function Steps(stepsData: Dict): seq<Value>
  {
    Records(stepsData, "stepValues", StepFields)
  }

  function FunnelPath(p: Dict): string
  {
    "/funnels/" + Text(p, "funnelId")
  }

  /** `create`: the name as given and the steps, even when there are none. */
  function CreateBody(p: Dict): Dict
  {
    map["name" := Get(p, "name"), "steps" := Arr(Steps(Group(p, "steps")))]
  }

  /** `update`: a truthy name, and the steps when the `steps` field is truthy. */
  function UpdateBody(updateFields: Dict): Dict
  {
    var withName := PutIf(map[], Truthy(Get(updateFields, "name")), "name", Get(updateFields, "name"));
    PutIf(withName, Truthy(Get(updateFields, "steps")), "steps", Arr(Steps(Group(updateFields, "steps"))))
  }

  function GetAllPlan(p: Dict): Plan
  {
    ListPlan(p, "funnels", ["funnels", "data"], "/funnels", map[], Keep)
  }

  function GetPlan(p: Dict): Plan
  {
    FetchPlan(GET, FunnelPath(p), map[], map[], ["funnel"], Keep)
  }

  function CreatePlan(p: Dict): Plan
  {
    FetchPlan(POST, "/funnels", CreateBody(p), map[], ["funnel"], Keep)
  }

  function UpdatePlan(p: Dict): Plan
  {
    FetchPlan(PATCH, FunnelPath(p), UpdateBody(Group(p, "updateFields")), map[], ["funnel"], Keep)
  }

  function DeletePlan(p: Dict): Plan
  {
    ConfirmPlan(DELETE, FunnelPath(p), Confirmation("funnelId", Get(p, "funnelId")))
  }

  function GetResultsPlan(ctx: Context, p: Dict): Plan
  {
    FetchPlan(GET, FunnelPath(p) + "/results", map[], DateQuery(Group(p, "options"), ctx.toIso), ["results"], Keep)
  }

  function PlanFor(operation: string, ctx: Context, p: Dict): Plan
    requires operation in Operations
  {
    if operation == "getAll" then GetAllPlan(p)
    else if operation == "get" then GetPlan(p)
    else if operation == "create" then CreatePlan(p)
    else if operation == "update" then UpdatePlan(p)
    else if operation == "delete" then DeletePlan(p)
    else GetResultsPlan(ctx, p)
  }

  /** Each step keeps exactly its name, type and value, in the order given;
      a missing or non-array `stepValues` gives no steps. */
  lemma StepsFields(stepsData: Dict)
    ensures !Get(stepsData, "stepValues").Arr? ==> Steps(stepsData) == []
    ensures Get(stepsData, "stepValues").Arr? ==> |Steps(stepsData)| == |Get(stepsData, "stepValues").items|
    ensures forall i :: 0 <= i < |Steps(stepsData)| ==>
              var entry := Get(stepsData, "stepValues").items[i];
              Steps(stepsData)[i] == Obj(map["name" := Prop(entry, "name"), "type" := Prop(entry, "type"),
                                             "value" := Prop(entry, "value")])
  {
    forall i | 0 <= i < |Steps(stepsData)|
      ensures var entry := Get(stepsData, "stepValues").items[i];
              Steps(stepsData)[i] == Obj(map["name" := Prop(entry, "name"), "type" := Prop(entry, "type"),
                                             "value" := Prop(entry, "value")])
    {
      var entry := Get(stepsData, "stepValues").items[i];
      assert Record(entry, StepFields)
          == map["name" := Prop(entry, "name"), "type" := Prop(entry, "type"), "value" := Prop(entry, "value")];
    }
  }

  /** `create` posts the name and the steps, and returns `funnel`, else the
      answer. */
  lemma CreateSendsNameAndSteps(ctx: Context, p: Dict)
    ensures var req := BuildRequest(ctx.creds, POST, "/funnels", CreateBody(p), map[]);
      && CreatePlan(p).call == Send(POST, "/funnels", CreateBody(p), map[])
      && req.body == Some(map["name" := Get(p, "name"), "steps" := Arr(Steps(Group(p, "steps")))])
      && (ctx.api(req).Answer? ==>
            RunPlan(ctx, CreatePlan(p)) == Returned(Or(Get(ctx.api(req).data, "funnel"), Obj(ctx.api(req).data))))
  {
    FetchKeyResult(ctx, POST, "/funnels", CreateBody(p), map[], "funnel");
  }

  /** `update` sends a truthy name, and the steps exactly when the `steps`
      field is truthy; nothing else. */
  lemma UpdateBodyFields(updateFields: Dict)
    ensures UpdateBody(updateFields).Keys <= {"name", "steps"}
    ensures CopiedIfTruthy(UpdateBody(updateFields), "name", updateFields, "name")
    ensures IncludedIff(UpdateBody(updateFields), "steps", Truthy(Get(updateFields, "steps")),
                        Arr(Steps(Group(updateFields, "steps"))))
  {
  }

  /** An update with neither field set sends its PATCH with no body. */
  lemma UpdateWithNothingSendsNoBody(ctx: Context, p: Dict)
    requires !Truthy(Get(Group(p, "updateFields"), "name")) && !Truthy(Get(Group(p, "updateFields"), "steps"))
    ensures UpdatePlan(p).call.m == PATCH
    ensures BuildRequest(ctx.creds, PATCH, FunnelPath(p), UpdateBody(Group(p, "updateFields")), map[]).body == None
  {
    assert UpdateBody(Group(p, "updateFields")) == map[];
  }

  /** `delete` returns `{ success: true, funnelId }` once the call succeeds,
      and sends neither body nor query. */
  lemma DeleteConfirms(ctx: Context, p: Dict)
    ensures var req := BuildRequest(ctx.creds, DELETE, FunnelPath(p), map[], map[]);
      && (ctx.api(req).Answer? ==>
            RunPlan(ctx, DeletePlan(p)) == Returned(Obj(map["success" := Bool(true), "funnelId" := Get(p, "funnelId")])))
      && req.body == None && req.qs == None
  {
    ConfirmPlanResult(ctx, DELETE, FunnelPath(p), Confirmation("funnelId", Get(p, "funnelId")));
  }

  /** `getAll` lists `funnels`, else `data`, else `[]`; `get` returns
      `funnel`, else the answer. */
  lemma GetAllAndGetResults(ctx: Context, p: Dict)
    ensures var req := BuildRequest(ctx.creds, GET, "/funnels", map[], map["limit" := Get(p, "limit")]);
      !ReturnAll(p) && ctx.api(req).Answer? ==>
        RunPlan(ctx, GetAllPlan(p))
        == Returned(Or(Get(ctx.api(req).data, "funnels"), Or(Get(ctx.api(req).data, "data"), Arr([]))))
    ensures var req := BuildRequest(ctx.creds, GET, FunnelPath(p), map[], map[]);
      ctx.api(req).Answer? ==>
        RunPlan(ctx, GetPlan(p)) == Returned(Or(Get(ctx.api(req).data, "funnel"), Obj(ctx.api(req).data)))
  {
    assert map[]["limit" := Get(p, "limit")] == map["limit" := Get(p, "limit")];
    ListKeyResult(ctx, p, "funnels", "/funnels", map[]);
    FetchKeyResult(ctx, GET, FunnelPath(p), map[], map[], "funnel");
  }

  /** `getResults` sends only the truthy dates and returns `results`, else
      the answer. */
  lemma GetResultsResult(ctx: Context, p: Dict)
    ensures var q := DateQuery(Group(p, "options"), ctx.toIso);
      var req := BuildRequest(ctx.creds, GET, FunnelPath(p) + "/results", map[], q);
      && q.Keys <= {"start_date", "end_date"}
      && (ctx.api(req).Answer? ==>
            RunPlan(ctx, GetResultsPlan(ctx, p)) == Returned(Or(Get(ctx.api(req).data, "results"), Obj(ctx.api(req).data))))
  {
    DateQueryFields(Group(p, "options"), ctx.toIso);
    FetchKeyResult(ctx, GET, FunnelPath(p) + "/results", map[], DateQuery(Group(p, "options"), ctx.toIso), "results");
  }
}
