/**
 * The alert handlers (nodes/LogRocket/actions/alert/index.ts).
 */
module AlertActions {
  import opened Json
  import opened Objects
  import opened Transport
  import opened Actions
  import opened Collections

  const Operations: set<string> := {"getAll", "get", "create", "update", "delete", "enable", "disable"}

  /** The fields copied from each notification channel entry. */
  const ChannelFields: seq<string> := ["type", "target"]

  /** One `{ type, target }` per entry of `channelValues`. */
  function Channels(channelsData: Dict): seq<Value>
  {
    Records(channelsData, "channelValues", ChannelFields)
  }

  function AlertPath(p: Dict): string
  {
    "/alerts/" + Text(p, "alertId")
  }

  /** `create`: the six settings always; `enabled` whenever it is defined,
      `false` included. */
  function CreateBody(p: Dict): Dict
  {
    var enabled := Get(Group(p, "additionalFields"), "enabled");
    PutIf(map["name" := Get(p, "name"), "type" := Get(p, "type"), "threshold" := Get(p, "threshold"),
              "comparison" := Get(p, "comparison"), "window" := Get(p, "window"),
              "channels" := Arr(Channels(Group(p, "channels")))],
          enabled != Undefined, "enabled", enabled)
  }

  /** The scalar fields of `update`: the texts when truthy, the threshold and
      the switch whenever defined. */
  const UpdateRules: seq<Rule> :=
    [Rule("name", "name", IfTruthy, AsIs), Rule("threshold", "threshold", IfDefined, AsIs),
     Rule("comparison", "comparison", IfTruthy, AsIs), Rule("window", "window", IfTruthy, AsIs),
     Rule("enabled", "enabled", IfDefined, AsIs)]

  /** `update`: the scalar fields, then the channels when the `channels`
      field is truthy. */
  function UpdateBody(updateFields: Dict): Dict
  {
    PutIf(Fill(map[], updateFields, UpdateRules, v => v), Truthy(Get(updateFields, "channels")), "channels",
          Arr(Channels(Group(updateFields, "channels"))))
  }

  function GetAllPlan(p: Dict): Plan
  {
    ListPlan(p, "alerts", ["alerts", "data"], "/alerts", map[], Keep)
  }

  function GetPlan(p: Dict): Plan
  {
    FetchPlan(GET, AlertPath(p), map[], map[], ["alert"], Keep)
  }

  function CreatePlan(p: Dict): Plan
  {
    FetchPlan(POST, "/alerts", CreateBody(p), map[], ["alert"], Keep)
  }

  function UpdatePlan(p: Dict): Plan
  {
    FetchPlan(PATCH, AlertPath(p), UpdateBody(Group(p, "updateFields")), map[], ["alert"], Keep)
  }

  function DeletePlan(p: Dict): Plan
  {
    ConfirmPlan(DELETE, AlertPath(p), Confirmation("alertId", Get(p, "alertId")))
  }

  /** `enable` and `disable`: a bodiless POST to the alert's `/enable` or
      `/disable` path. */
  function SwitchPlan(p: Dict, action: string): Plan
  {
    FetchPlan(POST, AlertPath(p) + "/" + action, map[], map[], ["alert"], Keep)
  }

  function PlanFor(operation: string, p: Dict): Plan
    requires operation in Operations
  {
    if operation == "getAll" then GetAllPlan(p)
    else if operation == "get" then GetPlan(p)
    else if operation == "create" then CreatePlan(p)
    else if operation == "update" then UpdatePlan(p)
    else if operation == "delete" then DeletePlan(p)
    else SwitchPlan(p, operation)
  }

  /** Each channel keeps exactly its type and target, in the order given;
      a missing or non-array `channelValues` gives none. */
  lemma ChannelsFields(channelsData: Dict)
    ensures !Get(channelsData, "channelValues").Arr? ==> Channels(channelsData) == []
    ensures Get(channelsData, "channelValues").Arr? ==>
              |Channels(channelsData)| == |Get(channelsData, "channelValues").items|
    ensures forall i :: 0 <= i < |Channels(channelsData)| ==>
              var entry := Get(channelsData, "channelValues").items[i];
              Channels(channelsData)[i] == Obj(map["type" := Prop(entry, "type"), "target" := Prop(entry, "target")])
  {
    forall i | 0 <= i < |Channels(channelsData)|
      ensures var entry := Get(channelsData, "channelValues").items[i];
              Channels(channelsData)[i] == Obj(map["type" := Prop(entry, "type"), "target" := Prop(entry, "target")])
    {
      var entry := Get(channelsData, "channelValues").items[i];
      assert Record(entry, ChannelFields) == map["type" := Prop(entry, "type"), "target" := Prop(entry, "target")];
    }
  }

  /** `create` always sends the six settings as given; `enabled` exactly
      when it is defined, so an explicit `false` is sent. */
  lemma CreateBodyFields(p: Dict)
    ensures var body := CreateBody(p);
      && body.Keys <= {"name", "type", "threshold", "comparison", "window", "channels", "enabled"}
      && "name" in body && body["name"] == Get(p, "name")
      && "type" in body && body["type"] == Get(p, "type")
      && "threshold" in body && body["threshold"] == Get(p, "threshold")
      && "comparison" in body && body["comparison"] == Get(p, "comparison")
      && "window" in body && body["window"] == Get(p, "window")
      && "channels" in body && body["channels"] == Arr(Channels(Group(p, "channels")))
      && CopiedIfDefined(body, "enabled", Group(p, "additionalFields"), "enabled")
  {
  }

  lemma UpdateRulesDistinct()
    ensures DistinctTargets(UpdateRules)
    ensures Targets(UpdateRules) == {"name", "threshold", "comparison", "window", "enabled"}
  {
  }

  /** `update` sends name, comparison and window when truthy, threshold and
      enabled whenever defined (so a threshold of 0 and `enabled: false` are
      sent), the channels when the `channels` field is truthy, and nothing
      else. */
  lemma UpdateBodyFields(updateFields: Dict)
    ensures var body := UpdateBody(updateFields);
      && body.Keys <= {"name", "threshold", "comparison", "window", "enabled", "channels"}
      && CopiedIfTruthy(body, "name", updateFields, "name")
      && CopiedIfDefined(body, "threshold", updateFields, "threshold")
      && CopiedIfTruthy(body, "comparison", updateFields, "comparison")
      && CopiedIfTruthy(body, "window", updateFields, "window")
      && CopiedIfDefined(body, "enabled", updateFields, "enabled")
      && IncludedIff(body, "channels", Truthy(Get(updateFields, "channels")),
                     Arr(Channels(Group(updateFields, "channels"))))
  {
    var id: Value -> Value := v => v;
    UpdateRulesDistinct();
    FillSpec(map[], updateFields, UpdateRules, id);
    var scalars := Fill(map[], updateFields, UpdateRules, id);
    assert Decided(scalars, updateFields, UpdateRules[0], id);
    assert Decided(scalars, updateFields, UpdateRules[1], id);
    assert Decided(scalars, updateFields, UpdateRules[2], id);
    assert Decided(scalars, updateFields, UpdateRules[3], id);
    assert Decided(scalars, updateFields, UpdateRules[4], id);
  }

  /** `create` and `update` return `alert`, else the answer; `create`
      always carries a body. */
  lemma WritesReturnAlert(ctx: Context, p: Dict)
    ensures var req := BuildRequest(ctx.creds, POST, "/alerts", CreateBody(p), map[]);
      && req.body == Some(CreateBody(p))
      && (ctx.api(req).Answer? ==>
            RunPlan(ctx, CreatePlan(p)) == Returned(Or(Get(ctx.api(req).data, "alert"), Obj(ctx.api(req).data))))
    ensures var req := BuildRequest(ctx.creds, PATCH, AlertPath(p), UpdateBody(Group(p, "updateFields")), map[]);
      ctx.api(req).Answer? ==>
        RunPlan(ctx, UpdatePlan(p)) == Returned(Or(Get(ctx.api(req).data, "alert"), Obj(ctx.api(req).data)))
  {
    assert "name" in CreateBody(p);
    FetchKeyResult(ctx, POST, "/alerts", CreateBody(p), map[], "alert");
    FetchKeyResult(ctx, PATCH, AlertPath(p), UpdateBody(Group(p, "updateFields")), map[], "alert");
  }

  /** `enable` and `disable` POST without body or query to their own path
      and return `alert`, else the answer. */
  lemma SwitchRequests(ctx: Context, p: Dict, action: string)
    requires action == "enable" || action == "disable"
    ensures PlanFor(action, p) == SwitchPlan(p, action)
    ensures var req := BuildRequest(ctx.creds, POST, AlertPath(p) + "/" + action, map[], map[]);
      && req.body == None && req.qs == None
      && (ctx.api(req).Answer? ==>
            RunPlan(ctx, SwitchPlan(p, action)) == Returned(Or(Get(ctx.api(req).data, "alert"), Obj(ctx.api(req).data))))
  {
    FetchKeyResult(ctx, POST, AlertPath(p) + "/" + action, map[], map[], "alert");
  }

  /** `delete` returns `{ success: true, alertId }` once the call succeeds. */
  lemma DeleteConfirms(ctx: Context, p: Dict)
    ensures var req := BuildRequest(ctx.creds, DELETE, AlertPath(p), map[], map[]);
      && (ctx.api(req).Answer? ==>
            RunPlan(ctx, DeletePlan(p)) == Returned(Obj(map["success" := Bool(true), "alertId" := Get(p, "alertId")])))
      && req.body == None && req.qs == None
  {
    ConfirmPlanResult(ctx, DELETE, AlertPath(p), Confirmation("alertId", Get(p, "alertId")));
  }

  /** `getAll` lists `alerts`, else `data`, else `[]`; `get` returns
      `alert`, else the answer. */
  lemma GetAllAndGetResults(ctx: Context, p: Dict)
    ensures var req := BuildRequest(ctx.creds, GET, "/alerts", map[], map["limit" := Get(p, "limit")]);
      !ReturnAll(p) && ctx.api(req).Answer? ==>
        RunPlan(ctx, GetAllPlan(p))
        == Returned(Or(Get(ctx.api(req).data, "alerts"), Or(Get(ctx.api(req).data, "data"), Arr([]))))
    ensures var req := BuildRequest(ctx.creds, GET, AlertPath(p), map[], map[]);
      ctx.api(req).Answer? ==>
        RunPlan(ctx, GetPlan(p)) == Returned(Or(Get(ctx.api(req).data, "alert"), Obj(ctx.api(req).data)))
  {
    assert map[]["limit" := Get(p, "limit")] == map["limit" := Get(p, "limit")];
    ListKeyResult(ctx, p, "alerts", "/alerts", map[]);
    FetchKeyResult(ctx, GET, AlertPath(p), map[], map[], "alert");
  }
}
