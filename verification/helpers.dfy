/**
 * Response projections and query helpers (nodes/LogRocket/utils/helpers.ts).
 *
 * Every `simplify*` projection is an object literal: its output always has
 * exactly the listed keys (a key whose source field is missing holds
 * `undefined`), and a field with two spellings takes the snake_case value
 * when it is truthy and the camelCase value otherwise.
 */
module Helpers {
  import opened Json
  import opened Objects
  import opened Transport

  /** The replay link `simplifySession` writes for a session id. */
  function ReplayLink(appId: string, id: Value): string
  {
    ReplayBase + appId + "/sessions/" + ToText(id)
  }

  /** The entries of the `simplifySession` literal. The replay link is
      computed from the session id and the organisation/app id. */
  function SessionEntries(session: Dict, appId: string): seq<Entry>
  {
    [ Entry("id", Field("id")),
      Entry("userId", Either("user_id", "userId")),
      Entry("email", Field("email")),
      Entry("sessionUrl", Fixed(Str(ReplayLink(appId, Get(session, "id"))))),
      Entry("startTime", Either("start_time", "startTime")),
      Entry("endTime", Either("end_time", "endTime")),
      Entry("duration", Field("duration")),
      Entry("browser", Field("browser")),
      Entry("os", Field("os")),
      Entry("device", Field("device")),
      Entry("url", Field("url")),
      Entry("hasError", Either("has_error", "hasError")),
      Entry("errorCount", Either("error_count", "errorCount")),
      Entry("pageCount", Either("page_count", "pageCount")) ]
  }

  lemma SessionEntriesDistinct(session: Dict, appId: string)
    ensures DistinctOuts(SessionEntries(session, appId))
  {
  }

  /** `simplifySession`: the object literal of its entries. */
  function SimplifySession(session: Dict, appId: string): Dict
  {
    Literal(session, SessionEntries(session, appId))
  }

  /** `simplifySession`: exactly fourteen keys, each holding its entry's
      value. */
  lemma SimplifySessionFields(session: Dict, appId: string)
    ensures SimplifySession(session, appId).Keys == Outs(SessionEntries(session, appId))
    ensures forall i :: 0 <= i < |SessionEntries(session, appId)| ==>
              && SessionEntries(session, appId)[i].out in SimplifySession(session, appId)
              && SimplifySession(session, appId)[SessionEntries(session, appId)[i].out]
                 == Eval(session, SessionEntries(session, appId)[i].from)
  {
    SessionEntriesDistinct(session, appId);
    LiteralFields(session, SessionEntries(session, appId));
  }

  /** The `sessionUrl` of a simplified session is the replay link of that
      session without a timestamp. */
  lemma SimplifySessionUrl(session: Dict, appId: string)
    ensures Get(SimplifySession(session, appId), "sessionUrl")
         == Str(BuildSessionUrl(appId, ToText(Get(session, "id")), Undefined))
  {
    SimplifySessionFields(session, appId);
    var entries := SessionEntries(session, appId);
    assert entries[3].out == "sessionUrl";
    assert ReplayLink(appId, Get(session, "id")) == BuildSessionUrl(appId, ToText(Get(session, "id")), Undefined);
  }

  /** `userId` and `hasError` take the snake_case field when it is truthy
      and the camelCase one otherwise. */
  lemma SimplifySessionAliases(session: Dict, appId: string)
    ensures Get(SimplifySession(session, appId), "userId") == Or(Get(session, "user_id"), Get(session, "userId"))
    ensures Get(SimplifySession(session, appId), "hasError") == Or(Get(session, "has_error"), Get(session, "hasError"))
  {
    var entries := SessionEntries(session, appId);
    SimplifySessionFields(session, appId);
    assert entries[1] == Entry("userId", Either("user_id", "userId"));
    assert entries[11] == Entry("hasError", Either("has_error", "hasError"));
    assert SimplifySession(session, appId)[entries[1].out] == Eval(session, entries[1].from);
    assert SimplifySession(session, appId)[entries[11].out] == Eval(session, entries[11].from);
  }

  /** Input keys that `simplifySession` does not read are dropped. */
  lemma SimplifySessionReadsOnlyItsKeys(a: Dict, b: Dict, appId: string)
    requires forall k :: k in AllReads(SessionEntries(a, appId)) ==> Get(a, k) == Get(b, k)
    requires Get(a, "id") == Get(b, "id")
    ensures SimplifySession(a, appId) == SimplifySession(b, appId)
  {
    assert SessionEntries(a, appId) == SessionEntries(b, appId);
    LiteralReadsOnly(a, b, SessionEntries(a, appId));
  }

  /** The camelCase unit-test case: the camelCase spelling is read when
      the snake_case one is missing, so `hasError: false` comes through as
      `false`. */
  lemma SimplifySessionCamelCaseExample()
    ensures var r := SimplifySession(map["userId" := Str("user-456"), "hasError" := Bool(false)], "org/app");
      && Get(r, "userId") == Str("user-456")
      && Get(r, "hasError") == Bool(false)
  {
    var s := map["userId" := Str("user-456"), "hasError" := Bool(false)];
    SimplifySessionAliases(s, "org/app");
    assert Get(s, "user_id") == Undefined && Get(s, "has_error") == Undefined;
  }

  const UserEntries: seq<Entry> :=
    [ Entry("id", Field("id")),
      Entry("userId", Either("user_id", "userId")),
      Entry("email", Field("email")),
      Entry("name", Field("name")),
      Entry("traits", Field("traits")),
      Entry("firstSeen", Either("first_seen", "firstSeen")),
      Entry("lastSeen", Either("last_seen", "lastSeen")),
      Entry("sessionCount", Either("session_count", "sessionCount")) ]

  lemma UserEntriesDistinct()
    ensures DistinctOuts(UserEntries)
  {
  }

  /** `simplifyUser`: the object literal of its entries. */
  function SimplifyUser(user: Dict): Dict
  {
    Literal(user, UserEntries)
  }

  /** `simplifyUser`: exactly eight keys, each holding its entry's value. */
  lemma SimplifyUserFields(user: Dict)
    ensures SimplifyUser(user).Keys == Outs(UserEntries)
    ensures forall i :: 0 <= i < |UserEntries| ==>
              UserEntries[i].out in SimplifyUser(user)
              && SimplifyUser(user)[UserEntries[i].out] == Eval(user, UserEntries[i].from)
  {
    UserEntriesDistinct();
    LiteralFields(user, UserEntries);
  }

  /** Input keys that `simplifyUser` does not read are dropped. */
  lemma SimplifyUserReadsOnlyItsKeys(a: Dict, b: Dict)
    requires forall k :: k in AllReads(UserEntries) ==> Get(a, k) == Get(b, k)
    ensures SimplifyUser(a) == SimplifyUser(b)
  {
    LiteralReadsOnly(a, b, UserEntries);
  }

  const IssueEntries: seq<Entry> :=
    [ Entry("id", Field("id")),
      Entry("type", Field("type")),
      Entry("status", Field("status")),
      Entry("severity", Field("severity")),
      Entry("title", Field("title")),
      Entry("message", Field("message")),
      Entry("firstOccurrence", Either("first_occurrence", "firstOccurrence")),
      Entry("lastOccurrence", Either("last_occurrence", "lastOccurrence")),
      Entry("occurrenceCount", Either("occurrence_count", "occurrenceCount")),
      Entry("affectedUsers", Either("affected_users", "affectedUsers")),
      Entry("assignee", Field("assignee")) ]

  lemma IssueEntriesDistinct()
    ensures DistinctOuts(IssueEntries)
  {
  }

  /** `simplifyIssue`: the object literal of its entries. */
  function SimplifyIssue(issue: Dict): Dict
  {
    Literal(issue, IssueEntries)
  }

  /** `simplifyIssue`: exactly eleven keys, each holding its entry's value. */
  lemma SimplifyIssueFields(issue: Dict)
    ensures SimplifyIssue(issue).Keys == Outs(IssueEntries)
    ensures forall i :: 0 <= i < |IssueEntries| ==>
              IssueEntries[i].out in SimplifyIssue(issue)
              && SimplifyIssue(issue)[IssueEntries[i].out] == Eval(issue, IssueEntries[i].from)
  {
    IssueEntriesDistinct();
    LiteralFields(issue, IssueEntries);
  }

  lemma SimplifyIssueReadsOnlyItsKeys(a: Dict, b: Dict)
    requires forall k :: k in AllReads(IssueEntries) ==> Get(a, k) == Get(b, k)
    ensures SimplifyIssue(a) == SimplifyIssue(b)
  {
    LiteralReadsOnly(a, b, IssueEntries);
  }

  const ErrorEntries: seq<Entry> :=
    [ Entry("id", Field("id")),
      Entry("message", Field("message")),
      Entry("type", Field("type")),
      Entry("url", Field("url")),
      Entry("browser", Field("browser")),
      Entry("os", Field("os")),
      Entry("firstOccurrence", Either("first_occurrence", "firstOccurrence")),
      Entry("lastOccurrence", Either("last_occurrence", "lastOccurrence")),
      Entry("occurrenceCount", Either("occurrence_count", "occurrenceCount")),
      Entry("affectedUsers", Either("affected_users", "affectedUsers")),
      Entry("resolved", Field("resolved")) ]

  lemma ErrorEntriesDistinct()
    ensures DistinctOuts(ErrorEntries)
  {
  }

  /** `simplifyError`: the object literal of its entries. */
  function SimplifyError(error: Dict): Dict
  {
    Literal(error, ErrorEntries)
  }

  /** `simplifyError`: exactly eleven keys, each holding its entry's value;
      `resolved` is copied as it is, `false` included. */
  lemma SimplifyErrorFields(error: Dict)
    ensures SimplifyError(error).Keys == Outs(ErrorEntries)
    ensures forall i :: 0 <= i < |ErrorEntries| ==>
              ErrorEntries[i].out in SimplifyError(error)
              && SimplifyError(error)[ErrorEntries[i].out] == Eval(error, ErrorEntries[i].from)
  {
    ErrorEntriesDistinct();
    LiteralFields(error, ErrorEntries);
  }

  lemma SimplifyErrorReadsOnlyItsKeys(a: Dict, b: Dict)
    requires forall k :: k in AllReads(ErrorEntries) ==> Get(a, k) == Get(b, k)
    ensures SimplifyError(a) == SimplifyError(b)
  {
    LiteralReadsOnly(a, b, ErrorEntries);
  }

  const EventEntries: seq<Entry> :=
    [ Entry("id", Field("id")),
      Entry("name", Field("name")),
      Entry("type", Field("type")),
      Entry("timestamp", Field("timestamp")),
      Entry("properties", Field("properties")),
      Entry("userId", Either("user_id", "userId")),
      Entry("sessionId", Either("session_id", "sessionId")) ]

  lemma EventEntriesDistinct()
    ensures DistinctOuts(EventEntries)
  {
  }

  /** `simplifyEvent`: the object literal of its entries. */
  function SimplifyEvent(event: Dict): Dict
  {
    Literal(event, EventEntries)
  }

  /** `simplifyEvent`: exactly seven keys, each holding its entry's value. */
  lemma SimplifyEventFields(event: Dict)
    ensures SimplifyEvent(event).Keys == Outs(EventEntries)
    ensures forall i :: 0 <= i < |EventEntries| ==>
              EventEntries[i].out in SimplifyEvent(event)
              && SimplifyEvent(event)[EventEntries[i].out] == Eval(event, EventEntries[i].from)
  {
    EventEntriesDistinct();
    LiteralFields(event, EventEntries);
  }

  lemma SimplifyEventReadsOnlyItsKeys(a: Dict, b: Dict)
    requires forall k :: k in AllReads(EventEntries) ==> Get(a, k) == Get(b, k)
    ensures SimplifyEvent(a) == SimplifyEvent(b)
  {
    LiteralReadsOnly(a, b, EventEntries);
  }

  const MetricEntries: seq<Entry> :=
    [ Entry("name", Field("name")),
      Entry("value", Field("value")),
      Entry("timestamp", Field("timestamp")),
      Entry("groupBy", Either("group_by", "groupBy")),
      Entry("count", Field("count")),
      Entry("average", Field("average")),
      Entry("percentile50", Field("p50")),
      Entry("percentile95", Field("p95")),
      Entry("percentile99", Field("p99")) ]

  lemma MetricEntriesDistinct()
    ensures DistinctOuts(MetricEntries)
  {
  }

  /** `simplifyMetric`: the object literal of its entries. */
  function SimplifyMetric(metric: Dict): Dict
  {
    Literal(metric, MetricEntries)
  }

  /** `simplifyMetric`: exactly nine keys, each holding its entry's value. */
  lemma SimplifyMetricFields(metric: Dict)
    ensures SimplifyMetric(metric).Keys == Outs(MetricEntries)
    ensures forall i :: 0 <= i < |MetricEntries| ==>
              MetricEntries[i].out in SimplifyMetric(metric)
              && SimplifyMetric(metric)[MetricEntries[i].out] == Eval(metric, MetricEntries[i].from)
  {
    MetricEntriesDistinct();
    LiteralFields(metric, MetricEntries);
  }

  /** The percentiles are renamed from `p50`, `p95` and `p99`, and `groupBy`
      is `group_by || groupBy`. */
  lemma SimplifyMetricRenames(metric: Dict)
    ensures Get(SimplifyMetric(metric), "percentile50") == Get(metric, "p50")
    ensures Get(SimplifyMetric(metric), "percentile95") == Get(metric, "p95")
    ensures Get(SimplifyMetric(metric), "percentile99") == Get(metric, "p99")
    ensures Get(SimplifyMetric(metric), "groupBy") == Or(Get(metric, "group_by"), Get(metric, "groupBy"))
  {
    SimplifyMetricFields(metric);
    assert MetricEntries[6].out == "percentile50" && MetricEntries[7].out == "percentile95";
    assert MetricEntries[8].out == "percentile99" && MetricEntries[3].out == "groupBy";
  }

  lemma SimplifyMetricReadsOnlyItsKeys(a: Dict, b: Dict)
    requires forall k :: k in AllReads(MetricEntries) ==> Get(a, k) == Get(b, k)
    ensures SimplifyMetric(a) == SimplifyMetric(b)
  {
    LiteralReadsOnly(a, b, MetricEntries);
  }

  /** The guarded assignments of `buildSessionQuery`, in source order. */
  const SessionRules: seq<Rule> :=
    [ Rule("user_id", "userId", IfTruthy, AsIs),
      Rule("email", "email", IfTruthy, AsIs),
      Rule("start_date", "startDate", IfTruthy, Date),
      Rule("end_date", "endDate", IfTruthy, Date),
      Rule("has_error", "hasError", IfDefined, AsIs),
      Rule("min_duration", "minDuration", IfTruthy, AsIs),
      Rule("url", "url", IfTruthy, AsIs),
      Rule("browser", "browser", IfTruthy, AsIs),
      Rule("os", "os", IfTruthy, AsIs),
      Rule("device", "device", IfTruthy, AsIs),
      Rule("limit", "limit", IfTruthy, AsIs) ]

  /** The query `buildSessionQuery` returns, as a value. `toIso` is the date
      conversion, which the model leaves abstract. */
  function SessionQuery(filters: Dict, toIso: Value -> Value): Dict
  {
    Fill(map[], filters, SessionRules, toIso)
  }

  lemma SessionRulesDistinct()
    ensures DistinctTargets(SessionRules)
  {
  }

  /** The eleven query keys `buildSessionQuery` may write. */
  const SessionKeys: set<string> :=
    {"user_id", "email", "start_date", "end_date", "has_error", "min_duration", "url", "browser", "os", "device", "limit"}

  lemma SessionRulesTargets()
    ensures Targets(SessionRules) == SessionKeys
  {
    SessionTargetsWithin();
    SessionTargetsCovered();
  }

  lemma SessionTargetsWithin()
    ensures Targets(SessionRules) <= SessionKeys
  {
  }

  lemma SessionTargetsCovered()
    ensures SessionKeys <= Targets(SessionRules)
  {
    var r := SessionRules;
    assert r[0] in r && r[1] in r && r[2] in r && r[3] in r && r[4] in r && r[5] in r;
    assert r[6] in r && r[7] in r && r[8] in r && r[9] in r && r[10] in r;
  }

  /** Each filter reaches the query under its snake_case key exactly when it
      is truthy, `has_error` whenever `hasError` is defined (`false`
      included), the dates through the conversion, and no other key ever
      appears. */
  lemma SessionQueryInclusion(filters: Dict, toIso: Value -> Value)
    ensures SessionQuery(filters, toIso).Keys <= Targets(SessionRules)
    ensures Targets(SessionRules) == SessionKeys
    ensures forall rule :: rule in SessionRules ==> Decided(SessionQuery(filters, toIso), filters, rule, toIso)
  {
    SessionRulesDistinct();
    SessionRulesTargets();
    FillSpec(map[], filters, SessionRules, toIso);
  }

  /** `has_error: false` is sent; `min_duration: 0` and `limit: 0` are not. */
  lemma SessionQueryFalsyFilters(filters: Dict, toIso: Value -> Value)
    ensures Get(filters, "hasError") == Bool(false) ==>
              "has_error" in SessionQuery(filters, toIso) && SessionQuery(filters, toIso)["has_error"] == Bool(false)
    ensures Get(filters, "minDuration") == Num(0) ==> "min_duration" !in SessionQuery(filters, toIso)
    ensures Get(filters, "limit") == Num(0) ==> "limit" !in SessionQuery(filters, toIso)
  {
    SessionRulesDistinct();
    FillSpec(map[], filters, SessionRules, toIso);
    var q := SessionQuery(filters, toIso);
    assert Decided(q, filters, SessionRules[4], toIso);
    assert Decided(q, filters, SessionRules[5], toIso);
    assert Decided(q, filters, SessionRules[10], toIso);
  }

  /** The query depends on the listed filters only. */
  lemma SessionQueryReadsOnlyFilters(a: Dict, b: Dict, toIso: Value -> Value)
    requires forall rule :: rule in SessionRules ==> Get(a, rule.from) == Get(b, rule.from)
    ensures SessionQuery(a, toIso) == SessionQuery(b, toIso)
  {
    FillReadsOnly(map[], a, b, SessionRules, toIso);
  }

  /** The unit-test case: no filters give `{}`. */
  lemma SessionQueryOfNoFilters(toIso: Value -> Value)
    ensures SessionQuery(map[], toIso) == map[]
  {
    assert forall i :: 0 <= i < |SessionRules| ==> SessionRules[i].test != Always;
    FillOfNothing(map[], SessionRules, toIso);
  }

  /** One output item of a node: its JSON and, for an item that reports an
      error, the index of the input item it belongs to. */
  datatype ExecutionItem = ExecutionItem(json: Value, pairedItem: Option<nat>)

  /** `processExecutionData`: each item, simplified when a projection is given,
      wrapped as `{json}`. */
  function ProcessExecutionData(items: seq<Dict>, simplify: Option<(Dict, Option<string>) -> Dict>,
                                appId: Option<string>): (r: seq<ExecutionItem>)
    ensures |r| == |items|
    ensures forall i :: 0 <= i < |items| ==> r[i].pairedItem == None
    ensures simplify.None? ==> forall i :: 0 <= i < |items| ==> r[i].json == Obj(items[i])
    ensures simplify.Some? ==> forall i :: 0 <= i < |items| ==> r[i].json == Obj(simplify.value(items[i], appId))
  {
    seq(|items|, i requires 0 <= i < |items| =>
      ExecutionItem(Obj(if simplify.Some? then simplify.value(items[i], appId) else items[i]), None))
  }

  /** Processing a concatenation is the concatenation of the processed parts:
      the order of the items is kept. */
  lemma ProcessExecutionDataKeepsOrder(a: seq<Dict>, b: seq<Dict>, simplify: Option<(Dict, Option<string>) -> Dict>,
                                       appId: Option<string>)
    ensures ProcessExecutionData(a + b, simplify, appId)
         == ProcessExecutionData(a, simplify, appId) + ProcessExecutionData(b, simplify, appId)
  {
    assert forall i :: 0 <= i < |a| ==> (a + b)[i] == a[i];
    assert forall i :: 0 <= i < |b| ==> (a + b)[|a| + i] == b[i];
  }

  function MissingMessage(param: string): string
  {
    "Missing required parameter: " + param
  }

  /** `validateRequired`: the error thrown for the first name, in list order,
      whose parameter is missing or falsy; `None` when every one is truthy. */
  method ValidateRequired(params: Dict, required: seq<string>) returns (error: Option<string>)
    ensures error.None? <==> forall i :: 0 <= i < |required| ==> Truthy(Get(params, required[i]))
    ensures error.Some? ==> exists i ::
      && 0 <= i < |required|
      && !Truthy(Get(params, required[i]))
      && (forall j :: 0 <= j < i ==> Truthy(Get(params, required[j])))
      && error.value == MissingMessage(required[i])
  {
    var i := 0;
    while i < |required|
      invariant 0 <= i <= |required|
      invariant forall j :: 0 <= j < i ==> Truthy(Get(params, required[j]))
    {
      if !Truthy(Get(params, required[i])) {
        return Some(MissingMessage(required[i]));
      }
      i := i + 1;
    }
    return None;
  }
}
