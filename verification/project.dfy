/**
 * The project handlers (nodes/LogRocket/actions/project/index.ts). The
 * server may call a project an app, so results fall back to `app` and
 * `apps`.
 */
module ProjectActions {
  import opened Json
  import opened Objects
  import opened Transport
  import opened Actions

  const Operations: set<string> := {"getAll", "get", "update", "getSDKConfig"}

  function ProjectPath(p: Dict): string
  {
    "/projects/" + Text(p, "projectId")
  }

  /** The fields of `update`, each sent when truthy. */
  const UpdateRules: seq<Rule> :=
    [Rule("name", "name", IfTruthy, AsIs), Rule("settings", "settings", IfTruthy, AsIs),
     Rule("privacy_settings", "privacySettings", IfTruthy, AsIs)]

  function UpdateBody(updateFields: Dict): Dict
  {
    Fill(map[], updateFields, UpdateRules, v => v)
  }

  function GetAllPlan(p: Dict): Plan
  {
    ListPlan(p, "projects", ["projects", "apps", "data"], "/projects", map[], Keep)
  }

  function GetPlan(p: Dict): Plan
  {
    FetchPlan(GET, ProjectPath(p), map[], map[], ["project", "app"], Keep)
  }

  function UpdatePlan(p: Dict): Plan
  {
    FetchPlan(PATCH, ProjectPath(p), UpdateBody(Group(p, "updateFields")), map[], ["project", "app"], Keep)
  }

  function GetSdkConfigPlan(p: Dict): Plan
  {
    FetchPlan(GET, ProjectPath(p) + "/sdk-config", map[], map[], ["config"], Keep)
  }

  function PlanFor(operation: string, p: Dict): Plan
    requires operation in Operations
  {
    if operation == "getAll" then GetAllPlan(p)
    else if operation == "get" then GetPlan(p)
    else if operation == "update" then UpdatePlan(p)
    else GetSdkConfigPlan(p)
  }

  /** `update` sends each of name, settings and `privacy_settings` (from
      `privacySettings`) exactly when truthy, and nothing else. */
  lemma UpdateBodyFields(updateFields: Dict)
    ensures var body := UpdateBody(updateFields);
      && body.Keys <= {"name", "settings", "privacy_settings"}
      && CopiedIfTruthy(body, "name", updateFields, "name")
      && CopiedIfTruthy(body, "settings", updateFields, "settings")
      && CopiedIfTruthy(body, "privacy_settings", updateFields, "privacySettings")
  {
    var id: Value -> Value := v => v;
    assert DistinctTargets(UpdateRules);
    FillSpec(map[], updateFields, UpdateRules, id);
    assert Targets(UpdateRules) == {"name", "settings", "privacy_settings"};
    var body := UpdateBody(updateFields);
    assert Decided(body, updateFields, UpdateRules[0], id);
    assert Decided(body, updateFields, UpdateRules[1], id);
    assert Decided(body, updateFields, UpdateRules[2], id);
  }

  /** `get` and `update` return `project`, else `app`, else the answer. */
  lemma ProjectOrAppOrAnswer(ctx: Context, p: Dict)
    ensures var req := BuildRequest(ctx.creds, GET, ProjectPath(p), map[], map[]);
      ctx.api(req).Answer? ==>
        RunPlan(ctx, GetPlan(p))
        == Returned(Or(Get(ctx.api(req).data, "project"), Or(Get(ctx.api(req).data, "app"), Obj(ctx.api(req).data))))
    ensures var req := BuildRequest(ctx.creds, PATCH, ProjectPath(p), UpdateBody(Group(p, "updateFields")), map[]);
      ctx.api(req).Answer? ==>
        RunPlan(ctx, UpdatePlan(p))
        == Returned(Or(Get(ctx.api(req).data, "project"), Or(Get(ctx.api(req).data, "app"), Obj(ctx.api(req).data))))
  {
    FetchEitherKeyResult(ctx, GET, ProjectPath(p), map[], map[], "project", "app");
    FetchEitherKeyResult(ctx, PATCH, ProjectPath(p), UpdateBody(Group(p, "updateFields")), map[], "project", "app");
  }

  /** `getAll` lists `projects`, else `apps`, else `data`, else `[]`. */
  lemma GetAllListsProjects(ctx: Context, p: Dict)
    ensures var req := BuildRequest(ctx.creds, GET, "/projects", map[], map["limit" := Get(p, "limit")]);
      !ReturnAll(p) && ctx.api(req).Answer? ==>
        RunPlan(ctx, GetAllPlan(p))
        == Returned(Or(Get(ctx.api(req).data, "projects"), Or(Get(ctx.api(req).data, "apps"),
                       Or(Get(ctx.api(req).data, "data"), Arr([])))))
    ensures var run := AllItems(ctx.api, ctx.creds, "projects", GET, "/projects", map[], map[], ctx.fuel);
      ReturnAll(p) && run.Finished? ==> RunPlan(ctx, GetAllPlan(p)) == Returned(Arr(run.items))
  {
    assert map[]["limit" := Get(p, "limit")] == map["limit" := Get(p, "limit")];
    ListPlanResult(ctx, p, "projects", ["projects", "apps", "data"], "/projects", map[], Keep);
    var req := BuildRequest(ctx.creds, GET, "/projects", map[], map["limit" := Get(p, "limit")]);
    if ctx.api(req).Answer? {
      FirstTruthyOfThree(ctx.api(req).data, "projects", "apps", "data", Arr([]));
    }
  }

  /** `getSDKConfig` returns `config`, else the answer. */
  lemma SdkConfigResult(ctx: Context, p: Dict)
    ensures var req := BuildRequest(ctx.creds, GET, ProjectPath(p) + "/sdk-config", map[], map[]);
      ctx.api(req).Answer? ==>
        RunPlan(ctx, GetSdkConfigPlan(p)) == Returned(Or(Get(ctx.api(req).data, "config"), Obj(ctx.api(req).data)))
  {
    FetchKeyResult(ctx, GET, ProjectPath(p) + "/sdk-config", map[], map[], "config");
  }
}
