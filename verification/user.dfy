/**
 * The user handlers (nodes/LogRocket/actions/user/index.ts).
 */
module UserActions {
  import opened Json
  import opened Objects
  import opened Transport
  import opened Actions
  import opened Collections

  const Operations: set<string> := {"getAll", "get", "getSessions", "getTraits", "identify", "getActivity"}

  /** The `getAll` filters, in source order. */
  const UserRules: seq<Rule> := [Rule("email", "email", IfTruthy, AsIs)] + DateRules

  function UserQuery(filters: Dict, toIso: Value -> Value): Dict
  {
    Fill(map[], filters, UserRules, toIso)
  }

  function UserPath(p: Dict): string
  {
    "/users/" + Text(p, "userId")
  }

  function GetAllPlan(ctx: Context, p: Dict): Plan
  {
    ListPlan(p, "users", ["users", "data"], "/users", UserQuery(Group(p, "filters"), ctx.toIso), EachIf(p, UserView))
  }

  function GetPlan(p: Dict): Plan
  {
    FetchPlan(GET, UserPath(p), map[], map[], ["user"], OneIf(p, UserView))
  }

  function GetSessionsPlan(p: Dict): Plan
  {
    ListPlan(p, "sessions", ["sessions", "data"], UserPath(p) + "/sessions", map[], Keep)
  }

  function GetTraitsPlan(p: Dict): Plan
  {
    FetchPlan(GET, UserPath(p) + "/traits", map[], map[], ["traits"], Keep)
  }

  /** The `identify` body: `user_id`, then `email` and `name` when non-empty,
      then `traits` folded from `traits.traitValues` when that is an array. */
  function IdentifyBody(p: Dict): Dict
  {
    var base := map["user_id" := Get(p, "userId")];
    var withEmail := PutIf(base, Truthy(Get(p, "email")), "email", Get(p, "email"));
    var withName := PutIf(withEmail, Truthy(Get(p, "name")), "name", Get(p, "name"));
    var traitValues := Get(Group(p, "traits"), "traitValues");
    if traitValues.Arr? then withName["traits" := Obj(Traits(traitValues.items))] else withName
  }

  function IdentifyPlan(p: Dict): Plan
  {
    FetchPlan(POST, UserPath(p) + "/identify", IdentifyBody(p), map[], ["user"], Keep)
  }

  function GetActivityPlan(ctx: Context, p: Dict): Plan
  {
    FetchPlan(GET, UserPath(p) + "/activity", map[], DateQuery(Group(p, "options"), ctx.toIso), ["activity"], Keep)
  }

  function PlanFor(operation: string, ctx: Context, p: Dict): Plan
    requires operation in Operations
  {
    if operation == "getAll" then GetAllPlan(ctx, p)
    else if operation == "get" then GetPlan(p)
    else if operation == "getSessions" then GetSessionsPlan(p)
    else if operation == "getTraits" then GetTraitsPlan(p)
    else if operation == "identify" then IdentifyPlan(p)
    else GetActivityPlan(ctx, p)
  }

  /** The `getAll` filters reach the query exactly when truthy: `email` as
      is, the dates converted; nothing else does. */
  lemma UserQueryFields(filters: Dict, toIso: Value -> Value)
    ensures var q := UserQuery(filters, toIso);
      && q.Keys <= {"email", "start_date", "end_date"}
      && CopiedIfTruthy(q, "email", filters, "email")
      && IncludedIff(q, "start_date", Truthy(Get(filters, "startDate")), toIso(Get(filters, "startDate")))
      && IncludedIff(q, "end_date", Truthy(Get(filters, "endDate")), toIso(Get(filters, "endDate")))
  {
    SeriesRulesDistinct();
    FillSpec(map[], filters, UserRules, toIso);
    assert Targets(UserRules) == {"email", "start_date", "end_date"};
    assert Decided(UserQuery(filters, toIso), filters, UserRules[0], toIso);
    assert Decided(UserQuery(filters, toIso), filters, UserRules[1], toIso);
    assert Decided(UserQuery(filters, toIso), filters, UserRules[2], toIso);
  }

  /** `getAll` GETs `/users` with that query: through the cursor loop over
      `users` when returning all, which adds no `limit` of its own; otherwise
      once, with `limit` set to the `limit` parameter. */
  lemma GetAllQuery(ctx: Context, p: Dict)
    ensures var q := UserQuery(Group(p, "filters"), ctx.toIso);
      var call := GetAllPlan(ctx, p).call;
      && (ReturnAll(p) ==> call == SendAll("users", GET, "/users", map[], q) && "limit" !in call.query)
      && (!ReturnAll(p) ==> call == Send(GET, "/users", map[], q["limit" := Get(p, "limit")]))
  {
    UserQueryFields(Group(p, "filters"), ctx.toIso);
    ListPlanQuery(p, "users", ["users", "data"], "/users", UserQuery(Group(p, "filters"), ctx.toIso), EachIf(p, UserView));
  }

  /** `identify` always sends `user_id`; `email` and `name` only when
      non-empty; `traits` exactly when `traitValues` is an array, holding the
      folded entries; nothing else. */
  lemma IdentifyBodyFields(p: Dict)
    ensures var body := IdentifyBody(p);
      var traitValues := Get(Group(p, "traits"), "traitValues");
      && body.Keys <= {"user_id", "email", "name", "traits"}
      && "user_id" in body && body["user_id"] == Get(p, "userId")
      && CopiedIfTruthy(body, "email", p, "email")
      && CopiedIfTruthy(body, "name", p, "name")
      && ("traits" in body <==> traitValues.Arr?)
      && (traitValues.Arr? ==> body["traits"] == Obj(Traits(traitValues.items)))
  {
  }

  /** A trait entry reaches the body under its key unless a later entry has
      the same key. */
  lemma IdentifyTraitOverwrite(p: Dict, i: nat)
    requires Get(Group(p, "traits"), "traitValues").Arr?
    requires i < |Get(Group(p, "traits"), "traitValues").items|
    requires var entries := Get(Group(p, "traits"), "traitValues").items;
      forall j :: i < j < |entries| ==> KeyOf(entries[j]) != KeyOf(entries[i])
    ensures var entries := Get(Group(p, "traits"), "traitValues").items;
      var traits := IdentifyBody(p)["traits"];
      traits.Obj? && KeyOf(entries[i]) in traits.fields && traits.fields[KeyOf(entries[i])] == Prop(entries[i], "value")
  {
    TraitsLastWins(Get(Group(p, "traits"), "traitValues").items);
  }

  /** `getSessions` loops over `sessions` of the user's path with an empty
      query, or sends exactly `{limit}` and falls back `sessions`, `data`,
      `[]`. */
  lemma GetSessionsRequests(ctx: Context, p: Dict)
    ensures ReturnAll(p) ==> GetSessionsPlan(p).call == SendAll("sessions", GET, UserPath(p) + "/sessions", map[], map[])
    ensures !ReturnAll(p) ==>
      GetSessionsPlan(p).call == Send(GET, UserPath(p) + "/sessions", map[], map["limit" := Get(p, "limit")])
    ensures var req := BuildRequest(ctx.creds, GET, UserPath(p) + "/sessions", map[], map["limit" := Get(p, "limit")]);
      !ReturnAll(p) && ctx.api(req).Answer? ==>
        RunPlan(ctx, GetSessionsPlan(p))
        == Returned(Or(Get(ctx.api(req).data, "sessions"), Or(Get(ctx.api(req).data, "data"), Arr([]))))
  {
    var req := BuildRequest(ctx.creds, GET, UserPath(p) + "/sessions", map[], map["limit" := Get(p, "limit")]);
    ListPlanResult(ctx, p, "sessions", ["sessions", "data"], UserPath(p) + "/sessions", map[], Keep);
    if ctx.api(req).Answer? {
      FirstTruthyOfTwo(ctx.api(req).data, "sessions", "data", Arr([]));
    }
  }

  /** The activity query holds only the truthy dates, converted; the result
      is `activity`, else the whole answer. */
  lemma GetActivityResult(ctx: Context, p: Dict)
    ensures var options := Group(p, "options");
      var q := GetActivityPlan(ctx, p).call.query;
      && q.Keys <= {"start_date", "end_date"}
      && IncludedIff(q, "start_date", Truthy(Get(options, "startDate")), ctx.toIso(Get(options, "startDate")))
      && IncludedIff(q, "end_date", Truthy(Get(options, "endDate")), ctx.toIso(Get(options, "endDate")))
    ensures var req := BuildRequest(ctx.creds, GET, UserPath(p) + "/activity", map[],
                                    DateQuery(Group(p, "options"), ctx.toIso));
      ctx.api(req).Answer? ==>
        RunPlan(ctx, GetActivityPlan(ctx, p)) == Returned(Or(Get(ctx.api(req).data, "activity"), Obj(ctx.api(req).data)))
  {
    DateQueryFields(Group(p, "options"), ctx.toIso);
    var q := DateQuery(Group(p, "options"), ctx.toIso);
    var req := BuildRequest(ctx.creds, GET, UserPath(p) + "/activity", map[], q);
    FetchPlanResult(ctx, GET, UserPath(p) + "/activity", map[], q, ["activity"], Keep);
    if ctx.api(req).Answer? {
      FirstTruthyOfTwo(ctx.api(req).data, "activity", "activity", Obj(ctx.api(req).data));
    }
  }

  /** `get` returns `user`, else the whole answer, through `simplifyUser`
      exactly when `simplify` is on; `getTraits` returns `traits`, else the
      answer. */
  lemma GetAndGetTraitsResults(ctx: Context, p: Dict)
    ensures var req := BuildRequest(ctx.creds, GET, UserPath(p), map[], map[]);
      ctx.api(req).Answer? ==>
        var user := Or(Get(ctx.api(req).data, "user"), Obj(ctx.api(req).data));
        && (Simplify(p) ==> RunPlan(ctx, GetPlan(p)) == Returned(Obj(Simplified(UserView, AsDict(user), ctx.creds.appId))))
        && (!Simplify(p) ==> RunPlan(ctx, GetPlan(p)) == Returned(user))
    ensures var req := BuildRequest(ctx.creds, GET, UserPath(p) + "/traits", map[], map[]);
      ctx.api(req).Answer? ==>
        RunPlan(ctx, GetTraitsPlan(p)) == Returned(Or(Get(ctx.api(req).data, "traits"), Obj(ctx.api(req).data)))
  {
    FetchPlanResult(ctx, GET, UserPath(p), map[], map[], ["user"], OneIf(p, UserView));
    FetchKeyResult(ctx, GET, UserPath(p) + "/traits", map[], map[], "traits");
  }
}
