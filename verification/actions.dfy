/**
 * What the twelve `actions/<resource>/index.ts` handler tables share.
 *
 * Every handler reads the node parameters of one item, makes at most one
 * server call (a single request or the cursor loop) and derives its result
 * from the answer. A handler is modelled as a `Plan`: the call it makes, how
 * the result is picked from the answer (`x || data || []`, `x || response`,
 * the answer itself, or a value fixed in advance) and what is done to it
 * afterwards (nothing, or a `simplify*` projection of the one result or of
 * each listed item). `RunPlan` carries a plan out against the server.
 */
module Actions {
  import opened Json
  import opened Objects
  import opened Transport
  import opened Helpers

  /** What every handler runs against: the credentials, the server, the date
      conversion `toIsoString` (left abstract) and the page bound of the
      cursor loop. */
  datatype Context = Context(creds: Credentials, api: Api, toIso: Value -> Value, fuel: nat)

  /** The one server call of a handler. */
  datatype Call =
    | Send(m: HttpMethod, endpoint: string, body: Dict, query: Dict)
    | SendAll(property: string, m: HttpMethod, endpoint: string, body: Dict, query: Dict)
    | Offline

  /** The `simplify*` projections. */
  datatype View = SessionView | UserView | IssueView | ErrorView | EventView | MetricView

  /** How the result is taken from the answer: the answer itself; the first
      truthy field among `keys`, else `[]` (`orEmpty`) or the whole answer; or
      a value fixed by the handler. */
  datatype Pick = Whole | FirstOf(keys: seq<string>, orEmpty: bool) | Constant(v: Value)

  /** What is done to the picked result: nothing, a projection of each listed
      item (`.map(simplify*)`), or a projection of the one result. */
  datatype Post = Keep | EachAs(view: View) | OneAs(view: View)

  datatype Plan = Plan(call: Call, pick: Pick, post: Post)

  /** How one handler call ends. `Unfinished` means the cursor loop was still
      being handed cursors when the model's page bound ran out. */
  datatype Outcome = Returned(v: Value) | Threw(message: string) | Unfinished

  function Simplified(view: View, d: Dict, appId: string): Dict
  {
    match view
    case SessionView => SimplifySession(d, appId)
    case UserView => SimplifyUser(d)
    case IssueView => SimplifyIssue(d)
    case ErrorView => SimplifyError(d)
    case EventView => SimplifyEvent(d)
    case MetricView => SimplifyMetric(d)
  }

  /** What the call hands back: the answer object, the items of every page
      as an array, or an empty object when nothing is sent. */
  function Fetched(ctx: Context, call: Call): Outcome
  {
    match call
    case Offline => Returned(Obj(map[]))
    case Send(m, endpoint, body, query) =>
      var r := ApiRequest(ctx.api, ctx.creds, m, endpoint, body, query);
      if r.Ok? then Returned(Obj(r.value)) else Threw(r.message)
    case SendAll(property, m, endpoint, body, query) =>
      var run := AllItems(ctx.api, ctx.creds, property, m, endpoint, body, query, ctx.fuel);
      if run.Finished? then Returned(Arr(run.items))
      else if run.Failed? then Threw(run.message)
      else Unfinished
  }

  function Picked(pick: Pick, response: Value): Value
  {
    match pick
    case Whole => response
    case FirstOf(keys, orEmpty) => FirstTruthy(AsDict(response), keys, if orEmpty then Arr([]) else response)
    case Constant(v) => v
  }

  /** The post-processing step. `.map` on a picked value that is not an
      array throws. */
  function Finish(post: Post, v: Value, appId: string): Outcome
  {
    match post
    case Keep => Returned(v)
    case OneAs(view) => Returned(Obj(Simplified(view, AsDict(v), appId)))
    case EachAs(view) =>
      var mapped := MapItems(v, x => Obj(Simplified(view, AsDict(x), appId)));
      if mapped.Ok? then Returned(Arr(mapped.value)) else Threw(mapped.message)
  }

  /** Carries a plan out: a failed call ends the handler with the call's
      error; otherwise the result is picked from the answer and processed. */
  function RunPlan(ctx: Context, plan: Plan): Outcome
  {
    var fetched := Fetched(ctx, plan.call);
    if fetched.Returned? then Finish(plan.post, Picked(plan.pick, fetched.v), ctx.creds.appId) else fetched
  }

  // Reading the node parameters of one item.

  /** `getNodeParameter(name, i, {}) as IDataObject`: a collection parameter,
      empty when missing or not an object. */
  function Group(p: Dict, name: string): Dict
  {
    AsDict(Get(p, name))
  }

  /** A parameter written into a path: `${p[name]}`. */
  function Text(p: Dict, name: string): string
  {
    ToText(Get(p, name))
  }

  /** `getNodeParameter('simplify', i, true)`: on unless set falsy. */
  predicate Simplify(p: Dict)
  {
    Get(p, "simplify") == Undefined || Truthy(Get(p, "simplify"))
  }

  predicate ReturnAll(p: Dict)
  {
    Truthy(Get(p, "returnAll"))
  }

  /** `simplify ? items.map(view) : items`. */
  function EachIf(p: Dict, view: View): Post
  {
    if Simplify(p) then EachAs(view) else Keep
  }

  /** `simplify ? view(x) : x`. */
  function OneIf(p: Dict, view: View): Post
  {
    if Simplify(p) then OneAs(view) else Keep
  }

  /** The list handlers: with `returnAll`, the cursor loop over `property`;
      otherwise one request whose query gains the `limit` parameter, with the
      list taken from the first truthy of `keys`, else `[]`. */
  function ListPlan(p: Dict, property: string, keys: seq<string>, endpoint: string, query: Dict, post: Post): Plan
  {
    if ReturnAll(p) then Plan(SendAll(property, GET, endpoint, map[], query), Whole, post)
    else Plan(Send(GET, endpoint, map[], query["limit" := Get(p, "limit")]), FirstOf(keys, true), post)
  }

  /** One request whose result is the first truthy of `keys`, else the whole
      answer. */
  function FetchPlan(m: HttpMethod, endpoint: string, body: Dict, query: Dict, keys: seq<string>, post: Post): Plan
  {
    Plan(Send(m, endpoint, body, query), FirstOf(keys, false), post)
  }

  /** One request whose result is the first truthy of `keys`, else `[]`. */
  function ListFetchPlan(endpoint: string, query: Dict, keys: seq<string>, post: Post): Plan
  {
    Plan(Send(GET, endpoint, map[], query), FirstOf(keys, true), post)
  }

  /** A request whose answer is dropped: the handler returns `result` once
      the call succeeds. */
  function ConfirmPlan(m: HttpMethod, endpoint: string, result: Value): Plan
  {
    Plan(Send(m, endpoint, map[], map[]), Constant(result), Keep)
  }

  /** `{ success: true, <idKey>: id }`. */
  function Confirmation(idKey: string, id: Value): Value
  {
    Obj(map["success" := Bool(true), idKey := id])
  }

  // Guarded assignments several handlers repeat.

  /** `start_date` and `end_date`, converted, from truthy `startDate` and
      `endDate`. */
  const DateRules: seq<Rule> :=
    [Rule("start_date", "startDate", IfTruthy, Date), Rule("end_date", "endDate", IfTruthy, Date)]

  const IntervalRule: Rule := Rule("interval", "interval", IfTruthy, AsIs)

  /** `group_by` from a truthy `groupBy`: the "None" choice `''` is left out. */
  const GroupByRule: Rule := Rule("group_by", "groupBy", IfTruthy, AsIs)

  /** The time-series options: the dates, `interval` and `group_by`. */
  const SeriesRules: seq<Rule> := DateRules + [IntervalRule, GroupByRule]

  /** `webhook_url` from a truthy `webhookUrl`. */
  const WebhookRule: Rule := Rule("webhook_url", "webhookUrl", IfTruthy, AsIs)

  lemma SeriesRulesDistinct()
    ensures DistinctTargets(DateRules) && DistinctTargets(SeriesRules)
    ensures DistinctTargets(DateRules + [IntervalRule])
  {
  }

  /** The date-range query: only the truthy dates, converted. */
  function DateQuery(options: Dict, toIso: Value -> Value): Dict
  {
    Fill(map[], options, DateRules, toIso)
  }

  lemma DateQueryFields(options: Dict, toIso: Value -> Value)
    ensures DateQuery(options, toIso).Keys <= {"start_date", "end_date"}
    ensures IncludedIff(DateQuery(options, toIso), "start_date", Truthy(Get(options, "startDate")),
                        toIso(Get(options, "startDate")))
    ensures IncludedIff(DateQuery(options, toIso), "end_date", Truthy(Get(options, "endDate")),
                        toIso(Get(options, "endDate")))
  {
    SeriesRulesDistinct();
    FillSpec(map[], options, DateRules, toIso);
    assert Decided(DateQuery(options, toIso), options, DateRules[0], toIso);
    assert Decided(DateQuery(options, toIso), options, DateRules[1], toIso);
  }

  /** The time-series options written on top of `q`, which holds none of
      their keys: `q` is kept, each option key is present exactly when its
      option is truthy, and no other key is added. */
  lemma SeriesFields(q: Dict, options: Dict, toIso: Value -> Value)
    requires "start_date" !in q && "end_date" !in q && "interval" !in q && "group_by" !in q
    ensures var r := Fill(q, options, SeriesRules, toIso);
      && r.Keys <= q.Keys + {"start_date", "end_date", "interval", "group_by"}
      && (forall k :: k in q ==> k in r && r[k] == q[k])
      && IncludedIff(r, "start_date", Truthy(Get(options, "startDate")), toIso(Get(options, "startDate")))
      && IncludedIff(r, "end_date", Truthy(Get(options, "endDate")), toIso(Get(options, "endDate")))
      && CopiedIfTruthy(r, "interval", options, "interval")
      && CopiedIfTruthy(r, "group_by", options, "groupBy")
  {
    SeriesRulesDistinct();
    assert forall i :: 0 <= i < |SeriesRules| ==> SeriesRules[i].to !in q;
    FillSpec(q, options, SeriesRules, toIso);
    assert Targets(SeriesRules) == {"start_date", "end_date", "interval", "group_by"};
    var r := Fill(q, options, SeriesRules, toIso);
    assert Decided(r, options, SeriesRules[0], toIso);
    assert Decided(r, options, SeriesRules[1], toIso);
    assert Decided(r, options, SeriesRules[2], toIso);
    assert Decided(r, options, SeriesRules[3], toIso);
  }

  // What running a plan gives.

  /** A single request that fails ends the handler with the wrapped transport
      message, whatever the plan does with answers. */
  lemma SendFailureThrows(ctx: Context, plan: Plan)
    requires plan.call.Send?
    requires ctx.api(BuildRequest(ctx.creds, plan.call.m, plan.call.endpoint, plan.call.body, plan.call.query)).Failure?
    ensures RunPlan(ctx, plan)
         == Threw(FailureMessage(ctx.api(BuildRequest(ctx.creds, plan.call.m, plan.call.endpoint, plan.call.body,
                                                      plan.call.query)).message))
  {
  }

  /** `x || data || []`: the result of a list request that is answered is the
      first truthy of the listed fields of the answer, else `[]`; every
      earlier field was falsy. */
  lemma FirstOfEmptyPicksFirstTruthy(response: Dict, keys: seq<string>)
    ensures (forall i :: 0 <= i < |keys| ==> !Truthy(Get(response, keys[i]))) ==>
              Picked(FirstOf(keys, true), Obj(response)) == Arr([])
    ensures forall i :: 0 <= i < |keys| && Truthy(Get(response, keys[i]))
                        && (forall j :: 0 <= j < i ==> !Truthy(Get(response, keys[j])))
              ==> Picked(FirstOf(keys, true), Obj(response)) == Get(response, keys[i])
  {
    FirstTruthyPicksFirst(response, keys, Arr([]));
  }

  /** `x || response`: the first truthy of the listed fields, else the whole
      answer. */
  lemma FirstOfWholePicksFirstTruthy(response: Dict, keys: seq<string>)
    ensures (forall i :: 0 <= i < |keys| ==> !Truthy(Get(response, keys[i]))) ==>
              Picked(FirstOf(keys, false), Obj(response)) == Obj(response)
    ensures forall i :: 0 <= i < |keys| && Truthy(Get(response, keys[i]))
                        && (forall j :: 0 <= j < i ==> !Truthy(Get(response, keys[j])))
              ==> Picked(FirstOf(keys, false), Obj(response)) == Get(response, keys[i])
  {
    FirstTruthyPicksFirst(response, keys, Obj(response));
  }

  /** Projecting each item keeps the length and order of the list; a picked
      value that is not an array throws. */
  lemma EachAsKeepsOrder(view: View, v: Value, appId: string)
    ensures v.Arr? ==> Finish(EachAs(view), v, appId).Returned?
    ensures v.Arr? ==> Finish(EachAs(view), v, appId).v.Arr?
    ensures v.Arr? ==> |Finish(EachAs(view), v, appId).v.items| == |v.items|
    ensures v.Arr? ==> forall i :: 0 <= i < |v.items| ==>
              Finish(EachAs(view), v, appId).v.items[i] == Obj(Simplified(view, AsDict(v.items[i]), appId))
    ensures !v.Arr? ==> Finish(EachAs(view), v, appId).Threw?
  {
  }

  /** A list plan without `returnAll` sends the caller's query with `limit`
      set to the `limit` parameter, whatever limit the query held; with
      `returnAll` it hands the query to the cursor loop unchanged. */
  lemma ListPlanQuery(p: Dict, property: string, keys: seq<string>, endpoint: string, query: Dict, post: Post)
    ensures var call := ListPlan(p, property, keys, endpoint, query, post).call;
      && (ReturnAll(p) ==> call == SendAll(property, GET, endpoint, map[], query))
      && (!ReturnAll(p) ==> call.Send? && call.m == GET && call.endpoint == endpoint && call.body == map[])
      && (!ReturnAll(p) ==> "limit" in call.query && call.query["limit"] == Get(p, "limit"))
      && (!ReturnAll(p) ==> forall k :: k in query && k != "limit" ==> k in call.query && call.query[k] == query[k])
      && (!ReturnAll(p) ==> call.query.Keys == query.Keys + {"limit"})
  {
  }

  /** A list plan run with `returnAll` returns every page's items in order,
      projected when asked; a single page is picked by the fallback chain. */
  lemma ListPlanResult(ctx: Context, p: Dict, property: string, keys: seq<string>, endpoint: string, query: Dict,
                       post: Post)
    ensures var run := AllItems(ctx.api, ctx.creds, property, GET, endpoint, map[], query, ctx.fuel);
      ReturnAll(p) && run.Finished? ==>
        RunPlan(ctx, ListPlan(p, property, keys, endpoint, query, post)) == Finish(post, Arr(run.items), ctx.creds.appId)
    ensures var req := BuildRequest(ctx.creds, GET, endpoint, map[], query["limit" := Get(p, "limit")]);
      !ReturnAll(p) && ctx.api(req).Answer? ==>
        RunPlan(ctx, ListPlan(p, property, keys, endpoint, query, post))
        == Finish(post, FirstTruthy(ctx.api(req).data, keys, Arr([])), ctx.creds.appId)
  {
  }

  /** A list handler without `returnAll` returns `key`, else `data`, else
      `[]`; with `simplify` each listed item goes through the projection, in
      order. */
  lemma ListViewResult(ctx: Context, p: Dict, key: string, endpoint: string, query: Dict, view: View)
    ensures var req := BuildRequest(ctx.creds, GET, endpoint, map[], query["limit" := Get(p, "limit")]);
      var out := RunPlan(ctx, ListPlan(p, key, [key, "data"], endpoint, query, EachIf(p, view)));
      !ReturnAll(p) && ctx.api(req).Answer? ==>
        var list := Or(Get(ctx.api(req).data, key), Or(Get(ctx.api(req).data, "data"), Arr([])));
        && (!Simplify(p) ==> out == Returned(list))
        && (Simplify(p) && list.Arr? ==>
              && out.Returned? && out.v.Arr? && |out.v.items| == |list.items|
              && forall i :: 0 <= i < |list.items| ==>
                   out.v.items[i] == Obj(Simplified(view, AsDict(list.items[i]), ctx.creds.appId)))
  {
    ListPlanResult(ctx, p, key, [key, "data"], endpoint, query, EachIf(p, view));
    var req := BuildRequest(ctx.creds, GET, endpoint, map[], query["limit" := Get(p, "limit")]);
    if ctx.api(req).Answer? {
      FirstTruthyOfTwo(ctx.api(req).data, key, "data", Arr([]));
      EachAsKeepsOrder(view, FirstTruthy(ctx.api(req).data, [key, "data"], Arr([])), ctx.creds.appId);
    }
  }

  /** A fetch plan that is answered returns the first truthy of the listed
      fields, else the whole answer, projected when asked. */
  lemma FetchPlanResult(ctx: Context, m: HttpMethod, endpoint: string, body: Dict, query: Dict, keys: seq<string>,
                        post: Post)
    ensures var req := BuildRequest(ctx.creds, m, endpoint, body, query);
      ctx.api(req).Answer? ==>
        RunPlan(ctx, FetchPlan(m, endpoint, body, query, keys, post))
        == Finish(post, FirstTruthy(ctx.api(req).data, keys, Obj(ctx.api(req).data)), ctx.creds.appId)
  {
  }

  /** `(response.key || response)`, projected when `simplify` is on: the
      result of a handler that fetches one object. */
  lemma FetchOneResult(ctx: Context, endpoint: string, key: string, view: View, simplify: bool)
    ensures var req := BuildRequest(ctx.creds, GET, endpoint, map[], map[]);
      ctx.api(req).Answer? ==>
        var one := Or(Get(ctx.api(req).data, key), Obj(ctx.api(req).data));
        && (simplify ==> RunPlan(ctx, FetchPlan(GET, endpoint, map[], map[], [key], OneAs(view)))
                         == Returned(Obj(Simplified(view, AsDict(one), ctx.creds.appId))))
        && (!simplify ==> RunPlan(ctx, FetchPlan(GET, endpoint, map[], map[], [key], Keep)) == Returned(one))
  {
    var req := BuildRequest(ctx.creds, GET, endpoint, map[], map[]);
    if ctx.api(req).Answer? {
      FirstTruthyOfTwo(ctx.api(req).data, key, key, Obj(ctx.api(req).data));
    }
  }

  /** `(response.key || response)` for a request of any verb, body and
      query. */
  lemma FetchKeyResult(ctx: Context, m: HttpMethod, endpoint: string, body: Dict, query: Dict, key: string)
    ensures var req := BuildRequest(ctx.creds, m, endpoint, body, query);
      ctx.api(req).Answer? ==>
        RunPlan(ctx, FetchPlan(m, endpoint, body, query, [key], Keep))
        == Returned(Or(Get(ctx.api(req).data, key), Obj(ctx.api(req).data)))
  {
    var req := BuildRequest(ctx.creds, m, endpoint, body, query);
    if ctx.api(req).Answer? {
      FirstTruthyOfTwo(ctx.api(req).data, key, key, Obj(ctx.api(req).data));
    }
  }

  /** `(response.a || response.b || response)`. */
  lemma FetchEitherKeyResult(ctx: Context, m: HttpMethod, endpoint: string, body: Dict, query: Dict, a: string,
                             b: string)
    ensures var req := BuildRequest(ctx.creds, m, endpoint, body, query);
      ctx.api(req).Answer? ==>
        RunPlan(ctx, FetchPlan(m, endpoint, body, query, [a, b], Keep))
        == Returned(Or(Get(ctx.api(req).data, a), Or(Get(ctx.api(req).data, b), Obj(ctx.api(req).data))))
  {
    var req := BuildRequest(ctx.creds, m, endpoint, body, query);
    if ctx.api(req).Answer? {
      FirstTruthyOfTwo(ctx.api(req).data, a, b, Obj(ctx.api(req).data));
    }
  }

  /** A list handler without projection and without `returnAll` returns
      `key`, else `data`, else `[]`; with `returnAll`, every page's items. */
  lemma ListKeyResult(ctx: Context, p: Dict, key: string, endpoint: string, query: Dict)
    ensures var run := AllItems(ctx.api, ctx.creds, key, GET, endpoint, map[], query, ctx.fuel);
      ReturnAll(p) && run.Finished? ==>
        RunPlan(ctx, ListPlan(p, key, [key, "data"], endpoint, query, Keep)) == Returned(Arr(run.items))
    ensures var req := BuildRequest(ctx.creds, GET, endpoint, map[], query["limit" := Get(p, "limit")]);
      !ReturnAll(p) && ctx.api(req).Answer? ==>
        RunPlan(ctx, ListPlan(p, key, [key, "data"], endpoint, query, Keep))
        == Returned(Or(Get(ctx.api(req).data, key), Or(Get(ctx.api(req).data, "data"), Arr([]))))
  {
    ListPlanResult(ctx, p, key, [key, "data"], endpoint, query, Keep);
    var req := BuildRequest(ctx.creds, GET, endpoint, map[], query["limit" := Get(p, "limit")]);
    if ctx.api(req).Answer? {
      FirstTruthyOfTwo(ctx.api(req).data, key, "data", Arr([]));
    }
  }

  /** A list fetch that is answered returns the first truthy of `keys` in
      the answer, else `[]`, then post-processes it. */
  lemma ListFetchPlanResult(ctx: Context, endpoint: string, query: Dict, keys: seq<string>, post: Post)
    ensures var req := BuildRequest(ctx.creds, GET, endpoint, map[], query);
      ctx.api(req).Answer? ==>
        RunPlan(ctx, ListFetchPlan(endpoint, query, keys, post))
        == Finish(post, FirstTruthy(ctx.api(req).data, keys, Arr([])), ctx.creds.appId)
  {
  }

  /** A confirming handler returns its fixed value exactly when the call
      succeeds, whatever the answer holds. */
  lemma ConfirmPlanResult(ctx: Context, m: HttpMethod, endpoint: string, result: Value)
    ensures var req := BuildRequest(ctx.creds, m, endpoint, map[], map[]);
      && (ctx.api(req).Answer? ==> RunPlan(ctx, ConfirmPlan(m, endpoint, result)) == Returned(result))
      && (ctx.api(req).Failure? ==> RunPlan(ctx, ConfirmPlan(m, endpoint, result)) == Threw(FailureMessage(ctx.api(req).message)))
      && req.body == None && req.qs == None
  {
  }
}
