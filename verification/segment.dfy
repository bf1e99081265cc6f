/**
 * The segment handlers (nodes/LogRocket/actions/segment/index.ts).
 */
module SegmentActions {
  import opened Json
  import opened Transport
  import opened Actions
  import opened Collections

  const Operations: set<string> := {"getAll", "get", "create", "update", "delete", "getUsers"}

  /** The fields copied from each condition entry. */
  const ConditionFields: seq<string> := ["field", "operator", "value"]

  /** One `{ field, operator, value }` per entry of `conditionValues`. */
  function Conditions(conditionsData: Dict): seq<Value>
  {
    Records(conditionsData, "conditionValues", ConditionFields)
  }

  function SegmentPath(p: Dict): string
  {
    "/segments/" + Text(p, "segmentId")
  }

  /** `create`: name, type and conditions always, a truthy description
      from the additional fields. */
  function CreateBody(p: Dict): Dict
  {
    var description := Get(Group(p, "additionalFields"), "description");
    PutIf(map["name" := Get(p, "name"), "type" := Get(p, "type"), "conditions" := Arr(Conditions(Group(p, "conditions")))],
          Truthy(description), "description", description)
  }

  /** `update`: a truthy name and description, and the conditions when the
      `conditions` field is truthy. */
  function UpdateBody(updateFields: Dict): Dict
  {
    var name := Get(updateFields, "name");
    var description := Get(updateFields, "description");
    var withText := PutIf(PutIf(map[], Truthy(name), "name", name), Truthy(description), "description", description);
    PutIf(withText, Truthy(Get(updateFields, "conditions")), "conditions",
          Arr(Conditions(Group(updateFields, "conditions"))))
  }

  function GetAllPlan(p: Dict): Plan
  {
    ListPlan(p, "segments", ["segments", "data"], "/segments", map[], Keep)
  }

  function GetPlan(p: Dict): Plan
  {
    FetchPlan(GET, SegmentPath(p), map[], map[], ["segment"], Keep)
  }

  function CreatePlan(p: Dict): Plan
  {
    FetchPlan(POST, "/segments", CreateBody(p), map[], ["segment"], Keep)
  }

  function UpdatePlan(p: Dict): Plan
  {
    FetchPlan(PATCH, SegmentPath(p), UpdateBody(Group(p, "updateFields")), map[], ["segment"], Keep)
  }

  function DeletePlan(p: Dict): Plan
  {
    ConfirmPlan(DELETE, SegmentPath(p), Confirmation("segmentId", Get(p, "segmentId")))
  }

  function GetUsersPlan(p: Dict): Plan
  {
    ListPlan(p, "users", ["users", "data"], SegmentPath(p) + "/users", map[], Keep)
  }

  function PlanFor(operation: string, p: Dict): Plan
    requires operation in Operations
  {
    if operation == "getAll" then GetAllPlan(p)
    else if operation == "get" then GetPlan(p)
    else if operation == "create" then CreatePlan(p)
    else if operation == "update" then UpdatePlan(p)
    else if operation == "delete" then DeletePlan(p)
    else GetUsersPlan(p)
  }

  /** Each condition keeps exactly its field, operator and value, in the
      order given; a missing or non-array `conditionValues` gives none. */
  lemma ConditionsFields(conditionsData: Dict)
    ensures !Get(conditionsData, "conditionValues").Arr? ==> Conditions(conditionsData) == []
    ensures Get(conditionsData, "conditionValues").Arr? ==>
              |Conditions(conditionsData)| == |Get(conditionsData, "conditionValues").items|
    ensures forall i :: 0 <= i < |Conditions(conditionsData)| ==>
              var entry := Get(conditionsData, "conditionValues").items[i];
              Conditions(conditionsData)[i]
              == Obj(map["field" := Prop(entry, "field"), "operator" := Prop(entry, "operator"),
                         "value" := Prop(entry, "value")])
  {
    forall i | 0 <= i < |Conditions(conditionsData)|
      ensures var entry := Get(conditionsData, "conditionValues").items[i];
              Conditions(conditionsData)[i]
              == Obj(map["field" := Prop(entry, "field"), "operator" := Prop(entry, "operator"),
                         "value" := Prop(entry, "value")])
    {
      var entry := Get(conditionsData, "conditionValues").items[i];
      assert Record(entry, ConditionFields)
          == map["field" := Prop(entry, "field"), "operator" := Prop(entry, "operator"), "value" := Prop(entry, "value")];
    }
  }

  /** `create` always sends name, type and conditions; the description only
      when truthy. */
  lemma CreateBodyFields(p: Dict)
    ensures var body := CreateBody(p);
      && body.Keys <= {"name", "type", "conditions", "description"}
      && "name" in body && body["name"] == Get(p, "name")
      && "type" in body && body["type"] == Get(p, "type")
      && "conditions" in body && body["conditions"] == Arr(Conditions(Group(p, "conditions")))
      && CopiedIfTruthy(body, "description", Group(p, "additionalFields"), "description")
  {
  }

  /** `update` sends each of name and description when truthy and the
      conditions when the `conditions` field is truthy, and nothing else. */
  lemma UpdateBodyFields(updateFields: Dict)
    ensures UpdateBody(updateFields).Keys <= {"name", "description", "conditions"}
    ensures CopiedIfTruthy(UpdateBody(updateFields), "name", updateFields, "name")
    ensures CopiedIfTruthy(UpdateBody(updateFields), "description", updateFields, "description")
    ensures IncludedIff(UpdateBody(updateFields), "conditions", Truthy(Get(updateFields, "conditions")),
                        Arr(Conditions(Group(updateFields, "conditions"))))
  {
  }

  /** `create` and `update` return `segment`, else the answer. */
  lemma WritesReturnSegment(ctx: Context, p: Dict)
    ensures var req := BuildRequest(ctx.creds, POST, "/segments", CreateBody(p), map[]);
      && req.body == Some(CreateBody(p))
      && (ctx.api(req).Answer? ==>
            RunPlan(ctx, CreatePlan(p)) == Returned(Or(Get(ctx.api(req).data, "segment"), Obj(ctx.api(req).data))))
    ensures var req := BuildRequest(ctx.creds, PATCH, SegmentPath(p), UpdateBody(Group(p, "updateFields")), map[]);
      ctx.api(req).Answer? ==>
        RunPlan(ctx, UpdatePlan(p)) == Returned(Or(Get(ctx.api(req).data, "segment"), Obj(ctx.api(req).data)))
  {
    assert "name" in CreateBody(p);
    FetchKeyResult(ctx, POST, "/segments", CreateBody(p), map[], "segment");
    FetchKeyResult(ctx, PATCH, SegmentPath(p), UpdateBody(Group(p, "updateFields")), map[], "segment");
  }

  /** `delete` returns `{ success: true, segmentId }` once the call succeeds. */
  lemma DeleteConfirms(ctx: Context, p: Dict)
    ensures var req := BuildRequest(ctx.creds, DELETE, SegmentPath(p), map[], map[]);
      && (ctx.api(req).Answer? ==>
            RunPlan(ctx, DeletePlan(p)) == Returned(Obj(map["success" := Bool(true), "segmentId" := Get(p, "segmentId")])))
      && req.body == None && req.qs == None
  {
    ConfirmPlanResult(ctx, DELETE, SegmentPath(p), Confirmation("segmentId", Get(p, "segmentId")));
  }

  /** The members of a segment are listed from its own path: `users`, else
      `data`, else `[]`, or every page of `users`. */
  lemma GetUsersResult(ctx: Context, p: Dict)
    ensures var run := AllItems(ctx.api, ctx.creds, "users", GET, SegmentPath(p) + "/users", map[], map[], ctx.fuel);
      ReturnAll(p) && run.Finished? ==> RunPlan(ctx, GetUsersPlan(p)) == Returned(Arr(run.items))
    ensures var req := BuildRequest(ctx.creds, GET, SegmentPath(p) + "/users", map[], map["limit" := Get(p, "limit")]);
      !ReturnAll(p) && ctx.api(req).Answer? ==>
        RunPlan(ctx, GetUsersPlan(p))
        == Returned(Or(Get(ctx.api(req).data, "users"), Or(Get(ctx.api(req).data, "data"), Arr([]))))
  {
    assert map[]["limit" := Get(p, "limit")] == map["limit" := Get(p, "limit")];
    ListKeyResult(ctx, p, "users", SegmentPath(p) + "/users", map[]);
  }

  /** `getAll` lists `segments`, else `data`, else `[]`; `get` returns
      `segment`, else the answer. */
  lemma GetAllAndGetResults(ctx: Context, p: Dict)
    ensures var req := BuildRequest(ctx.creds, GET, "/segments", map[], map["limit" := Get(p, "limit")]);
      !ReturnAll(p) && ctx.api(req).Answer? ==>
        RunPlan(ctx, GetAllPlan(p))
        == Returned(Or(Get(ctx.api(req).data, "segments"), Or(Get(ctx.api(req).data, "data"), Arr([]))))
    ensures var req := BuildRequest(ctx.creds, GET, SegmentPath(p), map[], map[]);
      ctx.api(req).Answer? ==>
        RunPlan(ctx, GetPlan(p)) == Returned(Or(Get(ctx.api(req).data, "segment"), Obj(ctx.api(req).data)))
  {
    assert map[]["limit" := Get(p, "limit")] == map["limit" := Get(p, "limit")];
    ListKeyResult(ctx, p, "segments", "/segments", map[]);
    FetchKeyResult(ctx, GET, SegmentPath(p), map[], map[], "segment");
  }
}
