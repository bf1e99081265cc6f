/**
 * The error handlers (nodes/LogRocket/actions/error/index.ts).
 */
module ErrorActions {
  import opened Json
  import opened Objects
  import opened Transport
  import opened Helpers
  import opened Actions

  const Operations: set<string> := {"getAll", "get", "getSessions", "getStackTrace", "getOccurrences"}

  /** The `getAll` filters, in source order: two renames, two pass-throughs,
      `resolved` whenever defined, and the dates. */
  const ErrorRules: seq<Rule> :=
    [ Rule("message", "errorMessage", IfTruthy, AsIs),
      Rule("type", "errorType", IfTruthy, AsIs),
      Rule("url", "url", IfTruthy, AsIs),
      Rule("browser", "browser", IfTruthy, AsIs),
      Rule("resolved", "resolved", IfDefined, AsIs) ] + DateRules

  /** The occurrence options: the dates and `interval`. */
  const OccurrenceRules: seq<Rule> := DateRules + [IntervalRule]

  function ErrorQuery(filters: Dict, toIso: Value -> Value): Dict
  {
    Fill(map[], filters, ErrorRules, toIso)
  }

  function OccurrenceQuery(options: Dict, toIso: Value -> Value): Dict
  {
    Fill(map[], options, OccurrenceRules, toIso)
  }

  function ErrorPath(p: Dict): string
  {
    "/errors/" + Text(p, "errorId")
  }

  function GetAllPlan(ctx: Context, p: Dict): Plan
  {
    ListPlan(p, "errors", ["errors", "data"], "/errors", ErrorQuery(Group(p, "filters"), ctx.toIso), EachIf(p, ErrorView))
  }

  function GetPlan(p: Dict): Plan
  {
    FetchPlan(GET, ErrorPath(p), map[], map[], ["error"], OneIf(p, ErrorView))
  }

  function GetSessionsPlan(p: Dict): Plan
  {
    ListPlan(p, "sessions", ["sessions", "data"], ErrorPath(p) + "/sessions", map[], Keep)
  }

  function GetStackTracePlan(p: Dict): Plan
  {
    FetchPlan(GET, ErrorPath(p) + "/stacktrace", map[], map[], ["stacktrace"], Keep)
  }

  function GetOccurrencesPlan(ctx: Context, p: Dict): Plan
  {
    ListFetchPlan(ErrorPath(p) + "/occurrences", OccurrenceQuery(Group(p, "options"), ctx.toIso),
                  ["occurrences", "data"], Keep)
  }

  function PlanFor(operation: string, ctx: Context, p: Dict): Plan
    requires operation in Operations
  {
    if operation == "getAll" then GetAllPlan(ctx, p)
    else if operation == "get" then GetPlan(p)
    else if operation == "getSessions" then GetSessionsPlan(p)
    else if operation == "getStackTrace" then GetStackTracePlan(p)
    else GetOccurrencesPlan(ctx, p)
  }

  lemma ErrorRulesDistinct()
    ensures DistinctTargets(ErrorRules)
  {
  }

  lemma ErrorRulesTargets()
    ensures Targets(ErrorRules) == {"message", "type", "url", "browser", "resolved", "start_date", "end_date"}
  {
  }

  /** `errorMessage` and `errorType` are sent as `message` and `type`, `url`
      and `browser` as themselves, each only when truthy; nothing else but
      `resolved` and the dates is sent. */
  lemma ErrorQueryRenames(filters: Dict, toIso: Value -> Value)
    ensures var q := ErrorQuery(filters, toIso);
      && q.Keys <= {"message", "type", "url", "browser", "resolved", "start_date", "end_date"}
      && CopiedIfTruthy(q, "message", filters, "errorMessage")
      && CopiedIfTruthy(q, "type", filters, "errorType")
      && CopiedIfTruthy(q, "url", filters, "url")
      && CopiedIfTruthy(q, "browser", filters, "browser")
  {
    ErrorRulesDistinct();
    ErrorRulesTargets();
    FillSpec(map[], filters, ErrorRules, toIso);
    var q := ErrorQuery(filters, toIso);
    assert Decided(q, filters, ErrorRules[0], toIso) && Decided(q, filters, ErrorRules[1], toIso);
    assert Decided(q, filters, ErrorRules[2], toIso) && Decided(q, filters, ErrorRules[3], toIso);
  }

  /** `resolved` is sent whenever it is defined, `false` included; the dates
      only when truthy, converted. */
  lemma ErrorQueryResolvedAndDates(filters: Dict, toIso: Value -> Value)
    ensures var q := ErrorQuery(filters, toIso);
      && CopiedIfDefined(q, "resolved", filters, "resolved")
      && (Get(filters, "resolved") == Bool(false) ==> "resolved" in q && q["resolved"] == Bool(false))
      && IncludedIff(q, "start_date", Truthy(Get(filters, "startDate")), toIso(Get(filters, "startDate")))
      && IncludedIff(q, "end_date", Truthy(Get(filters, "endDate")), toIso(Get(filters, "endDate")))
  {
    ErrorRulesDistinct();
    ErrorRulesTargets();
    FillSpec(map[], filters, ErrorRules, toIso);
    var q := ErrorQuery(filters, toIso);
    assert Decided(q, filters, ErrorRules[4], toIso);
    assert Decided(q, filters, ErrorRules[5], toIso) && Decided(q, filters, ErrorRules[6], toIso);
  }

  /** The listed errors fall back `errors`, `data`, `[]`, with `limit` added
      to the query when not returning all; with `simplify` each goes through
      `simplifyError`, in order. */
  lemma GetAllListsErrors(ctx: Context, p: Dict)
    ensures var req := BuildRequest(ctx.creds, GET, "/errors", map[], ErrorQuery(Group(p, "filters"), ctx.toIso)["limit" := Get(p, "limit")]);
      var out := RunPlan(ctx, GetAllPlan(ctx, p));
      !ReturnAll(p) && ctx.api(req).Answer? ==>
        var list := Or(Get(ctx.api(req).data, "errors"), Or(Get(ctx.api(req).data, "data"), Arr([])));
        && (!Simplify(p) ==> out == Returned(list))
        && (Simplify(p) && list.Arr? ==>
              && out.Returned? && out.v.Arr? && |out.v.items| == |list.items|
              && forall i :: 0 <= i < |list.items| ==> out.v.items[i] == Obj(SimplifyError(AsDict(list.items[i]))))
  {
    ListViewResult(ctx, p, "errors", "/errors", ErrorQuery(Group(p, "filters"), ctx.toIso), ErrorView);
  }

  /** `getSessions` without `returnAll` sends only `{limit}`. */
  lemma GetSessionsSendsOnlyLimit(p: Dict)
    ensures !ReturnAll(p) ==> GetSessionsPlan(p).call.query == map["limit" := Get(p, "limit")]
    ensures ReturnAll(p) ==> GetSessionsPlan(p).call == SendAll("sessions", GET, ErrorPath(p) + "/sessions", map[], map[])
  {
  }

  /** The occurrence query holds only the truthy dates and interval; the list
      falls back `occurrences`, `data`, `[]`. */
  lemma GetOccurrencesResult(ctx: Context, p: Dict)
    ensures var options := Group(p, "options");
      var q := OccurrenceQuery(options, ctx.toIso);
      && q.Keys <= {"start_date", "end_date", "interval"}
      && IncludedIff(q, "start_date", Truthy(Get(options, "startDate")), ctx.toIso(Get(options, "startDate")))
      && IncludedIff(q, "end_date", Truthy(Get(options, "endDate")), ctx.toIso(Get(options, "endDate")))
      && CopiedIfTruthy(q, "interval", options, "interval")
    ensures var req := BuildRequest(ctx.creds, GET, ErrorPath(p) + "/occurrences", map[],
                                    OccurrenceQuery(Group(p, "options"), ctx.toIso));
      ctx.api(req).Answer? ==>
        RunPlan(ctx, GetOccurrencesPlan(ctx, p))
        == Returned(Or(Get(ctx.api(req).data, "occurrences"), Or(Get(ctx.api(req).data, "data"), Arr([]))))
  {
    var options := Group(p, "options");
    var q := OccurrenceQuery(options, ctx.toIso);
    SeriesRulesDistinct();
    FillSpec(map[], options, OccurrenceRules, ctx.toIso);
    assert Targets(OccurrenceRules) == {"start_date", "end_date", "interval"};
    assert Decided(q, options, OccurrenceRules[0], ctx.toIso) && Decided(q, options, OccurrenceRules[1], ctx.toIso);
    assert Decided(q, options, OccurrenceRules[2], ctx.toIso);
    var req := BuildRequest(ctx.creds, GET, ErrorPath(p) + "/occurrences", map[], q);
    ListFetchPlanResult(ctx, ErrorPath(p) + "/occurrences", q, ["occurrences", "data"], Keep);
    if ctx.api(req).Answer? {
      FirstTruthyOfTwo(ctx.api(req).data, "occurrences", "data", Arr([]));
    }
  }

  /** The stack trace is `stacktrace`, else the whole answer. */
  lemma GetStackTraceResult(ctx: Context, p: Dict)
    ensures var req := BuildRequest(ctx.creds, GET, ErrorPath(p) + "/stacktrace", map[], map[]);
      ctx.api(req).Answer? ==>
        RunPlan(ctx, GetStackTracePlan(p)) == Returned(Or(Get(ctx.api(req).data, "stacktrace"), Obj(ctx.api(req).data)))
  {
    var req := BuildRequest(ctx.creds, GET, ErrorPath(p) + "/stacktrace", map[], map[]);
    FetchPlanResult(ctx, GET, ErrorPath(p) + "/stacktrace", map[], map[], ["stacktrace"], Keep);
    if ctx.api(req).Answer? {
      FirstTruthyOfTwo(ctx.api(req).data, "stacktrace", "stacktrace", Obj(ctx.api(req).data));
    }
  }

  /** `get` returns `error`, else the whole answer, through `simplifyError`
      exactly when `simplify` is on. */
  lemma GetReturnsErrorOrAnswer(ctx: Context, p: Dict)
    ensures var req := BuildRequest(ctx.creds, GET, ErrorPath(p), map[], map[]);
      ctx.api(req).Answer? ==>
        var error := Or(Get(ctx.api(req).data, "error"), Obj(ctx.api(req).data));
        && (Simplify(p) ==> RunPlan(ctx, GetPlan(p)) == Returned(Obj(SimplifyError(AsDict(error)))))
        && (!Simplify(p) ==> RunPlan(ctx, GetPlan(p)) == Returned(error))
  {
    FetchPlanResult(ctx, GET, ErrorPath(p), map[], map[], ["error"], OneIf(p, ErrorView));
  }
}
