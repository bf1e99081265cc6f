/**
 * The team handlers (nodes/LogRocket/actions/team/index.ts).
 */
module TeamActions {
  import opened Json
  import opened Transport
  import opened Actions

  const Operations: set<string> := {"getAll", "get", "invite", "remove", "updateRole"}

  function MemberPath(p: Dict): string
  {
    "/team/" + Text(p, "memberId")
  }

  /** `invite`: email and role always, a truthy name from the additional
      fields. */
  function InviteBody(p: Dict): Dict
  {
    var name := Get(Group(p, "additionalFields"), "name");
    PutIf(map["email" := Get(p, "email"), "role" := Get(p, "role")], Truthy(name), "name", name)
  }

  function GetAllPlan(p: Dict): Plan
  {
    ListPlan(p, "members", ["members", "data"], "/team", map[], Keep)
  }

  function GetPlan(p: Dict): Plan
  {
    FetchPlan(GET, MemberPath(p), map[], map[], ["member"], Keep)
  }

  function InvitePlan(p: Dict): Plan
  {
    FetchPlan(POST, "/team/invite", InviteBody(p), map[], ["invitation"], Keep)
  }

  function RemovePlan(p: Dict): Plan
  {
    ConfirmPlan(DELETE, MemberPath(p), Confirmation("memberId", Get(p, "memberId")))
  }

  function UpdateRolePlan(p: Dict): Plan
  {
    FetchPlan(PATCH, MemberPath(p) + "/role", map["role" := Get(p, "newRole")], map[], ["member"], Keep)
  }

  function PlanFor(operation: string, p: Dict): Plan
    requires operation in Operations
  {
    if operation == "getAll" then GetAllPlan(p)
    else if operation == "get" then GetPlan(p)
    else if operation == "invite" then InvitePlan(p)
    else if operation == "remove" then RemovePlan(p)
    else UpdateRolePlan(p)
  }

  /** `invite` always sends email and role as given and the name only when
      truthy; it returns `invitation`, else the answer. */
  lemma InviteSendsEmailAndRole(ctx: Context, p: Dict)
    ensures var body := InviteBody(p);
      && body.Keys <= {"email", "role", "name"}
      && "email" in body && body["email"] == Get(p, "email")
      && "role" in body && body["role"] == Get(p, "role")
      && CopiedIfTruthy(body, "name", Group(p, "additionalFields"), "name")
    ensures var req := BuildRequest(ctx.creds, POST, "/team/invite", InviteBody(p), map[]);
      && req.body == Some(InviteBody(p))
      && (ctx.api(req).Answer? ==>
            RunPlan(ctx, InvitePlan(p)) == Returned(Or(Get(ctx.api(req).data, "invitation"), Obj(ctx.api(req).data))))
  {
    assert "email" in InviteBody(p);
    FetchKeyResult(ctx, POST, "/team/invite", InviteBody(p), map[], "invitation");
  }

  /** `updateRole` sends exactly `{ role: newRole }` to the member's role
      path and returns `member`, else the answer. */
  lemma UpdateRoleSendsOnlyRole(ctx: Context, p: Dict)
    ensures var req := BuildRequest(ctx.creds, PATCH, MemberPath(p) + "/role", map["role" := Get(p, "newRole")], map[]);
      && req.body == Some(map["role" := Get(p, "newRole")]) && req.qs == None
      && (ctx.api(req).Answer? ==>
            RunPlan(ctx, UpdateRolePlan(p)) == Returned(Or(Get(ctx.api(req).data, "member"), Obj(ctx.api(req).data))))
  {
    FetchKeyResult(ctx, PATCH, MemberPath(p) + "/role", map["role" := Get(p, "newRole")], map[], "member");
  }

  /** `remove` returns `{ success: true, memberId }` once the call succeeds. */
  lemma RemoveConfirms(ctx: Context, p: Dict)
    ensures var req := BuildRequest(ctx.creds, DELETE, MemberPath(p), map[], map[]);
      && (ctx.api(req).Answer? ==>
            RunPlan(ctx, RemovePlan(p)) == Returned(Obj(map["success" := Bool(true), "memberId" := Get(p, "memberId")])))
      && req.body == None && req.qs == None
  {
    ConfirmPlanResult(ctx, DELETE, MemberPath(p), Confirmation("memberId", Get(p, "memberId")));
  }

  /** `getAll` lists `members`, else `data`, else `[]`; `get` returns
      `member`, else the answer. */
  lemma GetAllAndGetResults(ctx: Context, p: Dict)
    ensures var req := BuildRequest(ctx.creds, GET, "/team", map[], map["limit" := Get(p, "limit")]);
      !ReturnAll(p) && ctx.api(req).Answer? ==>
        RunPlan(ctx, GetAllPlan(p))
        == Returned(Or(Get(ctx.api(req).data, "members"), Or(Get(ctx.api(req).data, "data"), Arr([]))))
    ensures var req := BuildRequest(ctx.creds, GET, MemberPath(p), map[], map[]);
      ctx.api(req).Answer? ==>
        RunPlan(ctx, GetPlan(p)) == Returned(Or(Get(ctx.api(req).data, "member"), Obj(ctx.api(req).data)))
  {
    assert map[]["limit" := Get(p, "limit")] == map["limit" := Get(p, "limit")];
    ListKeyResult(ctx, p, "members", "/team", map[]);
    FetchKeyResult(ctx, GET, MemberPath(p), map[], map[], "member");
  }
}
