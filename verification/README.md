# LogRocket connector for n8n, modelled in Dafny

This project models the core of the n8n LogRocket node, an action node plus a
webhook trigger that talk to the LogRocket REST API. It covers:

- **Transport.** The authenticated request descriptor, and the wrapped error a
  failed request throws. Cursor pagination, with its do-while loop. The
  replay-link builder and the API error-message parser.
- **Helpers.** The six `simplify*` projections, the session query builder,
  `processExecutionData` and `validateRequired`.
- **The twelve resource handler tables.** Session, user, issue, error, event,
  highlight, metric, funnel, segment, alert, team and project. Each handler is
  a pure function of its parameters that yields a `Plan`: the request to send,
  which field of the answer to pick, and how to post-process it. `RunPlan`
  executes a plan against a server.
- **The execute loop** of the action node. It dispatches items to handlers,
  flattens array results, and either records each failure or stops at it,
  depending on continue-on-fail.
- **The trigger.** The event filter, with its type table and normalisation.
  The gathering of replay links and the enrichment of the payload.

JavaScript values are the datatype `Json.Value`. Truthiness, `||`, a missing
key reading as `undefined`, spreading and `String(v)` are all written out.

Two kinds of object-building code get a table each:

- object literals whose entries read fields (`Objects.Literal`);
- runs of guarded assignments `if (test(src.from)) q.to = v` (`Objects.Fill`).

One general lemma says what each kind produces.

The server is a parameter (`Api`, a total function from request descriptor
to answer or failure). So is `toIsoString`.

The loops of the source are `method`s, each proved equal to a specification
function. These are the pagination loop, the projection loops over
steps, conditions and channels, the traits fold, the link-gathering loop of
the trigger, and the execute loop.

## Model

| member | source | states |
|---|---|---|
| Json.Or | nodes/LogRocket/utils/helpers.ts:16 | `a \|\| b` is `a` when `a` is truthy and `b` otherwise |
| Json.Get | nodes/LogRocket/utils/helpers.ts:15-28 | reading a missing key gives `undefined`, a present key its value |
| Json.Prop | nodes/LogRocket/transport/index.ts:91-92 | a field read on an object is that object's field; on any other value it is `undefined` |
| Json.AsDict | nodes/LogRocket/actions/session/index.ts:280-284 | an object value is viewed as its own fields; any other value has none |
| Json.FirstTruthyPicksFirst | nodes/LogRocket/transport/index.ts:87-88 | an `\|\|` chain over fields yields the first truthy field, every earlier one being falsy, or the final default when none is truthy |
| Json.FirstTruthyIsTruthy | nodes/LogRocket/transport/index.ts:87-88 | a chain ending in a truthy default is truthy |
| Json.FirstTruthyOfTwo | nodes/LogRocket/actions/session/index.ts:261 | the table-driven chain equals `m.a \|\| last` and `m.a \|\| m.b \|\| last` written out |
| Json.FirstTruthyOfThree | nodes/LogRocket/actions/session/index.ts:313 | the table-driven chain equals `m.a \|\| m.b \|\| m.c \|\| last` written out |
| Json.Spread | nodes/LogRocket/LogRocketTrigger.node.ts:120 | spreading an array gives its elements and a string its characters; any other value throws |
| Json.MapItems | nodes/LogRocket/actions/session/index.ts:265 | `.map` on an array applies the function to each element, keeping length and order; on a non-array it throws |
| Json.NatText | nodes/LogRocket/transport/index.ts:108 | the decimal digits of a natural number are non-empty and are all digits |
| Json.IntText | nodes/LogRocket/transport/index.ts:108 | a non-negative integer writes as its digits; a negative one as `-` followed by the digits of its magnitude |
| Json.ToText | nodes/LogRocket/transport/index.ts:108 | `String(v)`: a string is written as itself |
| Json.PutIf | nodes/LogRocket/utils/helpers.ts:137-139 | a guarded assignment adds the key with the value exactly when the guard holds, and keeps every other key |
| Strings.LowerChar | nodes/LogRocket/LogRocketTrigger.node.ts:107 | an upper-case ASCII letter maps to its lower-case letter; every other character is unchanged |
| Strings.Lower | nodes/LogRocket/LogRocketTrigger.node.ts:107 | lower-casing keeps the length and maps each character on its own, by `LowerChar` |
| Strings.ContainsOnlyCharsOf | nodes/LogRocket/LogRocketTrigger.node.ts:109 | a substring of `s` only uses characters that occur in `s` |
| Strings.ContainsSlice | nodes/LogRocket/LogRocketTrigger.node.ts:109 | `includes` holds for every piece that starts at a position of `s` |
| Strings.HexDigit | nodes/LogRocket/actions/event/index.ts:300 | a value below 16 gives an upper-case hexadecimal digit |
| Strings.Utf8 | nodes/LogRocket/actions/event/index.ts:300 | a scalar value encodes as one to four bytes, each below 256 |
| Strings.PercentBytes | nodes/LogRocket/actions/event/index.ts:300 | three characters per byte, each one `%` or an upper-case hexadecimal digit |
| Strings.EncodeChar | nodes/LogRocket/actions/event/index.ts:300 | an unreserved character is kept; any other becomes at least three characters starting with `%`; only unreserved characters, `%` and hexadecimal digits appear |
| Strings.EncodedChars | nodes/LogRocket/actions/event/index.ts:300 | `encodeURIComponent` produces only unreserved characters, `%` and hexadecimal digits |
| Strings.EncodedHasNoDelimiters | nodes/LogRocket/actions/event/index.ts:300 | an encoded name holds no `/`, `?`, `#` or `&`, whatever the name |
| Strings.Utf8Injective | nodes/LogRocket/actions/event/index.ts:300 | distinct scalar values have distinct UTF-8 bytes |
| Strings.EncodeCharPrefixFree | nodes/LogRocket/actions/event/index.ts:300 | no character's encoding is a prefix of another's: equal encodings followed by anything come from equal characters |
| Strings.EncodeInjective | nodes/LogRocket/actions/event/index.ts:300 | `encodeURIComponent` is injective: distinct names give distinct path segments |
| Strings.EncodeUnreservedIsIdentity | nodes/LogRocket/actions/metric/index.ts:341 | a name made only of unreserved characters is sent unchanged |
| Objects.Eval | nodes/LogRocket/utils/helpers.ts:15-28 | a literal entry is a field read, a `snake \|\| camel` pair that takes the snake_case field when it is truthy and the camelCase one otherwise, or a fixed value |
| Objects.LiteralFields | nodes/LogRocket/utils/helpers.ts:14-29 | an object literal with distinct keys has exactly those keys, each holding its own entry's value |
| Objects.LiteralReadsOnly | nodes/LogRocket/utils/helpers.ts:14-29 | an object literal depends only on the source fields its entries read |
| Objects.FillFrame | nodes/LogRocket/utils/helpers.ts:134-172 | guarded assignments keep every key already present and write only their targets |
| Objects.FillSpec | nodes/LogRocket/utils/helpers.ts:134-172 | with distinct targets, each target is present exactly when its guard passes, holds the converted field, and no other key appears |
| Objects.FillNothingPasses | nodes/LogRocket/utils/helpers.ts:134-172 | when no guard passes, nothing is written |
| Objects.FillOfNothing | nodes/LogRocket/utils/helpers.ts:134-172 | guarded assignments none of which is unconditional write nothing from an empty source |
| Objects.FillReadsOnly | nodes/LogRocket/utils/helpers.ts:134-172 | guarded assignments depend only on the fields they read |
| Collections.Record | nodes/LogRocket/actions/funnel/index.ts:309-315 | a projected entry has exactly the listed fields as keys |
| Collections.Records | nodes/LogRocket/actions/funnel/index.ts:308-316 | an array gives one record per entry, keeping length and order; any other value gives none |
| Collections.RecordsFields | nodes/LogRocket/actions/segment/index.ts:355-362 | every projected entry has exactly the listed fields, each holding the entry's field, and nothing else of the entry is kept |
| Collections.CollectRecords | nodes/LogRocket/actions/alert/index.ts:420-427 | the guarded `for … of` push loop returns exactly the records of the specification function |
| Collections.TraitsHasEveryKey | nodes/LogRocket/actions/user/index.ts:360-366 | every trait entry's key is a key of the folded object |
| Collections.TraitsHasOnlyEntryKeys | nodes/LogRocket/actions/user/index.ts:360-366 | the folded object has no key that no entry carries |
| Collections.TraitsLastWins | nodes/LogRocket/actions/user/index.ts:362-364 | each key holds the value of the last entry with that key |
| Collections.LastInPrefix | nodes/LogRocket/actions/user/index.ts:362-364 | an entry that no later entry overrides is also the last of its key within any prefix that holds it |
| Collections.FoldTraits | nodes/LogRocket/actions/user/index.ts:361-365 | the assignment loop returns exactly the folded traits object |
| Transport.BuildRequest | nodes/LogRocket/transport/index.ts:33-49 | the descriptor has the method, the URI under the app id, the token and JSON headers; a body exactly when the body is non-empty and the method is not GET; a query string exactly when the query is non-empty |
| Transport.GetNeverCarriesBody | nodes/LogRocket/transport/index.ts:43-45 | a GET never carries a body, whatever body the caller passes |
| Transport.FailureMessage | nodes/LogRocket/transport/index.ts:55-59 | a failure is wrapped as `LogRocket API request failed: <message>`, with `Unknown error` when the message is empty |
| Transport.ApiRequest | nodes/LogRocket/transport/index.ts:51-60 | the request succeeds exactly when the server answers, returns that answer, and otherwise fails with the wrapped message |
| Transport.WithDefaultLimit | nodes/LogRocket/transport/index.ts:78 | `limit` is kept when truthy and becomes 100 otherwise; every other key is unchanged |
| Transport.CollectedStep | nodes/LogRocket/transport/index.ts:87-89 | one more request appends its page's items at the end |
| Transport.SameCallExtends | nodes/LogRocket/transport/index.ts:85 | the next request keeps the same method, URI, body and limit |
| Transport.CursorChainExtends | nodes/LogRocket/transport/index.ts:81-83 | a request that carries the last answer's cursor keeps the cursor chain |
| Transport.PagesSent | nodes/LogRocket/transport/index.ts:80-93 | every request of the loop goes to the same call; each one after the first carries the cursor of the answer before it; a loop cut short by the page bound sent one request per page |
| Transport.PagesFinished | nodes/LogRocket/transport/index.ts:80-95 | a finished loop has gathered every page's items in order and stopped on an answer without a truthy cursor |
| Transport.AllItemsProperties | nodes/LogRocket/transport/index.ts:66-96 | every request is the same call, with limit `query.limit \|\| 100`, and each one after the first carries the previous answer's cursor; a finished loop returns every page's items in order and ended on an answer without a truthy cursor |
| Transport.FirstRequestHasCallerQuery | nodes/LogRocket/transport/index.ts:78-85 | the first request carries the caller's query with the default limit applied |
| Transport.RequestAllItems | nodes/LogRocket/transport/index.ts:66-96 | the do-while loop returns exactly the pagination specification function |
| Transport.BuildSessionUrl | nodes/LogRocket/transport/index.ts:101-111 | the replay link, with `?t=<timestamp>` exactly when a timestamp is given, 0 included |
| Transport.BuildSessionUrlWithoutTimestamp | test/unit/transport.test.ts:12-15 | no timestamp gives the bare link |
| Transport.BuildSessionUrlWithTimestamp | test/unit/transport.test.ts:17-20 | a timestamp of 5000 gives `?t=5000` |
| Transport.FiveThousandText | nodes/LogRocket/transport/index.ts:108 | 5000 writes as `5000` |
| Transport.BuildSessionUrlWithZeroTimestamp | test/unit/transport.test.ts:22-25 | a timestamp of 0 is not dropped as falsy |
| Transport.ParseErrorMessage | nodes/LogRocket/transport/index.ts:126-132 | a truthy object `error` gives its `message`, else its `code`, else `Unknown error`; otherwise the flat `message`, else `Unknown error`; the result is always truthy |
| Helpers.SimplifySessionFields | nodes/LogRocket/utils/helpers.ts:13-30 | `simplifySession` has exactly its fourteen keys, each holding its entry's value |
| Helpers.SimplifySessionUrl | nodes/LogRocket/utils/helpers.ts:18 | `sessionUrl` is the replay link of the session's id without a timestamp |
| Helpers.SimplifySessionAliases | nodes/LogRocket/utils/helpers.ts:16-26 | `userId` and `hasError` take the snake_case field when truthy and the camelCase one otherwise |
| Helpers.SimplifySessionReadsOnlyItsKeys | nodes/LogRocket/utils/helpers.ts:13-30 | input keys that `simplifySession` does not read are dropped |
| Helpers.SimplifySessionCamelCaseExample | test/unit/helpers.test.ts:59-74 | camelCase input is read when snake_case is missing, so `hasError: false` comes through as `false` |
| Helpers.SimplifyUserFields | nodes/LogRocket/utils/helpers.ts:35-46 | `simplifyUser` has exactly eight keys, each holding its entry's value |
| Helpers.SimplifyUserReadsOnlyItsKeys | nodes/LogRocket/utils/helpers.ts:35-46 | input keys that `simplifyUser` does not read are dropped |
| Helpers.SimplifyIssueFields | nodes/LogRocket/utils/helpers.ts:51-65 | `simplifyIssue` has exactly eleven keys, each holding its entry's value |
| Helpers.SimplifyIssueReadsOnlyItsKeys | nodes/LogRocket/utils/helpers.ts:51-65 | input keys that `simplifyIssue` does not read are dropped |
| Helpers.SimplifyErrorFields | nodes/LogRocket/utils/helpers.ts:70-84 | `simplifyError` has exactly eleven keys, each holding its entry's value; `resolved` is copied as is, `false` included |
| Helpers.SimplifyErrorReadsOnlyItsKeys | nodes/LogRocket/utils/helpers.ts:70-84 | input keys that `simplifyError` does not read are dropped |
| Helpers.SimplifyEventFields | nodes/LogRocket/utils/helpers.ts:89-99 | `simplifyEvent` has exactly seven keys, each holding its entry's value |
| Helpers.SimplifyEventReadsOnlyItsKeys | nodes/LogRocket/utils/helpers.ts:89-99 | input keys that `simplifyEvent` does not read are dropped |
| Helpers.SimplifyMetricFields | nodes/LogRocket/utils/helpers.ts:104-116 | `simplifyMetric` has exactly nine keys, each holding its entry's value |
| Helpers.SimplifyMetricRenames | nodes/LogRocket/utils/helpers.ts:109-114 | the percentiles come from `p50`, `p95` and `p99`; `groupBy` is `group_by \|\| groupBy` |
| Helpers.SimplifyMetricReadsOnlyItsKeys | nodes/LogRocket/utils/helpers.ts:104-116 | input keys that `simplifyMetric` does not read are dropped |
| Helpers.SessionQueryInclusion | nodes/LogRocket/utils/helpers.ts:134-172 | each filter reaches the query under its snake_case key exactly when truthy; `has_error` whenever `hasError` is defined; the dates through the conversion; no other key |
| Helpers.SessionQueryFalsyFilters | nodes/LogRocket/utils/helpers.ts:149-169 | `has_error: false` is sent; `min_duration: 0` and `limit: 0` are not |
| Helpers.SessionQueryReadsOnlyFilters | nodes/LogRocket/utils/helpers.ts:134-172 | the query depends only on the listed filters |
| Helpers.SessionQueryOfNoFilters | test/unit/helpers.test.ts:215-218 | no filters give `{}` |
| Helpers.ProcessExecutionData | nodes/LogRocket/utils/helpers.ts:177-185 | each item is wrapped as `{json}` without a paired item, simplified when a projection is given, keeping length and order |
| Helpers.ProcessExecutionDataKeepsOrder | nodes/LogRocket/utils/helpers.ts:182-184 | processing a concatenation is the concatenation of the processed parts |
| Helpers.ValidateRequired | nodes/LogRocket/utils/helpers.ts:190-196 | the error names the first parameter, in list order, that is missing or falsy; none when every one is truthy |
| Actions.DateQueryFields | nodes/LogRocket/actions/user/index.ts:372-390 | the date query holds only `start_date` and `end_date`, each exactly when truthy, converted |
| Actions.SeriesFields | nodes/LogRocket/actions/metric/index.ts:191-225 | the time-series options keep the query they extend; each option key is present exactly when its option is truthy; nothing else is added |
| Actions.SendFailureThrows | nodes/LogRocket/transport/index.ts:51-60 | a handler whose single request fails ends with the wrapped transport message |
| Actions.FirstOfEmptyPicksFirstTruthy | nodes/LogRocket/actions/session/index.ts:261 | `x \|\| data \|\| []` is the first truthy listed field, else `[]` |
| Actions.FirstOfWholePicksFirstTruthy | nodes/LogRocket/actions/session/index.ts:281 | `x \|\| response` is the first truthy listed field, else the whole answer |
| Actions.EachAsKeepsOrder | nodes/LogRocket/actions/session/index.ts:264-266 | projecting each item keeps the length and order of the list; a picked value that is not an array throws |
| Actions.ListPlanQuery | nodes/LogRocket/actions/session/index.ts:255-260 | without `returnAll` the query gets `limit` set to the `limit` parameter, whatever it held; with it the query goes to the cursor loop unchanged |
| Actions.ListPlanResult | nodes/LogRocket/actions/session/index.ts:255-267 | with `returnAll` every page's items, in order; otherwise the fallback chain of the single answer; projected when asked |
| Actions.ListViewResult | nodes/LogRocket/actions/session/index.ts:255-267 | a list handler without `returnAll` returns `key`, else `data`, else `[]`, and with `simplify` each item projected in order |
| Actions.FetchPlanResult | nodes/LogRocket/actions/session/index.ts:279-286 | a fetch returns the first truthy listed field, else the whole answer, projected when asked |
| Actions.FetchOneResult | nodes/LogRocket/actions/session/index.ts:279-286 | `(response.key \|\| response)`, projected when `simplify` is on |
| Actions.FetchKeyResult | nodes/LogRocket/actions/team/index.ts:204-211 | `(response.key \|\| response)` for a request of any verb, body and query |
| Actions.FetchEitherKeyResult | nodes/LogRocket/actions/project/index.ts:209-216 | `(response.a \|\| response.b \|\| response)` |
| Actions.ListKeyResult | nodes/LogRocket/actions/team/index.ts:187-202 | a list without projection returns `key`, else `data`, else `[]`, or every page's items with `returnAll` |
| Actions.ListFetchPlanResult | nodes/LogRocket/actions/session/index.ts:289-296 | a list fetch returns the first truthy of the listed fields, else `[]`, then post-processes it |
| Actions.ConfirmPlanResult | nodes/LogRocket/actions/funnel/index.ts:358-365 | a confirming handler returns its fixed value exactly when the call succeeds, and throws the wrapped message otherwise |
| SessionActions.GetAllSendsSessionQuery | nodes/LogRocket/actions/session/index.ts:241-260 | `getAll` sends `buildSessionQuery` of the filters; without `returnAll`, `limit` is overridden by the parameter and every other key is kept |
| SessionActions.GetAllListsSessions | nodes/LogRocket/actions/session/index.ts:255-267 | sessions fall back `sessions`, `data`, `[]`; with `simplify` each goes through `simplifySession` with the app id, in order |
| SessionActions.GetReturnsSessionOrAnswer | nodes/LogRocket/actions/session/index.ts:270-287 | `get` returns `session`, else the answer, simplified exactly when `simplify` is on |
| SessionActions.NetworkAndConsoleFallbacks | nodes/LogRocket/actions/session/index.ts:307-323 | network requests fall back `requests`, `network`, `data`, `[]`; console logs `logs`, `console`, `data`, `[]` |
| SessionActions.SessionDetailFallbacks | nodes/LogRocket/actions/session/index.ts:289-332 | events and errors fall back their key, `data`, `[]`; performance is `performance`, else the answer |
| SessionActions.SessionUrlOmitsZeroTimestamp | nodes/LogRocket/actions/session/index.ts:334-350 | `getSessionUrl` sends nothing; a falsy timestamp gives the bare link and `timestamp: null` |
| SessionActions.SessionUrlWithTimestamp | nodes/LogRocket/actions/session/index.ts:334-350 | a truthy timestamp is appended as `?t=` and returned as given |
| UserActions.UserQueryFields | nodes/LogRocket/actions/user/index.ts:261-295 | the `getAll` filters reach the query exactly when truthy, the dates converted; nothing else does |
| UserActions.GetAllQuery | nodes/LogRocket/actions/user/index.ts:261-295 | `getAll` GETs `/users` with the filters' query: with `returnAll` through the cursor loop over `users`, adding no `limit`; otherwise once, with `limit` set to the `limit` parameter |
| UserActions.GetAndGetTraitsResults | nodes/LogRocket/actions/user/index.ts:297-338 | `get` returns `user`, else the answer, simplified exactly when `simplify` is on; `getTraits` returns `traits`, else the answer |
| UserActions.IdentifyBodyFields | nodes/LogRocket/actions/user/index.ts:340-370 | `identify` always sends `user_id`; `email` and `name` only when non-empty; `traits` exactly when `traitValues` is an array; nothing else |
| UserActions.IdentifyTraitOverwrite | nodes/LogRocket/actions/user/index.ts:360-366 | a trait reaches the body under its key unless a later entry has the same key |
| UserActions.GetSessionsRequests | nodes/LogRocket/actions/user/index.ts:313-329 | `getSessions` pages over `sessions` with an empty query, or sends exactly `{limit}` and falls back `sessions`, `data`, `[]` |
| UserActions.GetActivityResult | nodes/LogRocket/actions/user/index.ts:372-390 | the activity query holds only the truthy dates; the result is `activity`, else the answer |
| IssueActions.IssueQueryFields | nodes/LogRocket/actions/issue/index.ts:219-262 | each filter reaches the query exactly when truthy, the dates converted; nothing else does |
| IssueActions.GetAllIssueCall | nodes/LogRocket/actions/issue/index.ts:219-262 | without `returnAll` the query also gets `limit`; with it the cursor loop runs over `issues` with the filter query alone |
| IssueActions.GetAllListsIssues | nodes/LogRocket/actions/issue/index.ts:219-262 | issues fall back `issues`, `data`, `[]`; with `simplify` each goes through `simplifyIssue`, in order |
| IssueActions.GetReturnsIssueOrAnswer | nodes/LogRocket/actions/issue/index.ts:264-278 | `get` returns `issue`, else the answer, simplified exactly when `simplify` is on |
| IssueActions.GetSessionsResult | nodes/LogRocket/actions/issue/index.ts:280-296 | the sessions of an issue are `sessions`, else `data`, else `[]`, or every page of `sessions` |
| IssueActions.ResolveAndIgnoreRequests | nodes/LogRocket/actions/issue/index.ts:298-314 | `resolve` and `ignore` POST with no body to their own path and return `issue`, else the answer |
| IssueActions.AssignBody | nodes/LogRocket/actions/issue/index.ts:316-326 | `assign` POSTs exactly `{assignee}` |
| ErrorActions.ErrorQueryRenames | nodes/LogRocket/actions/error/index.ts:238-284 | `errorMessage` and `errorType` are sent as `message` and `type`, `url` and `browser` as themselves, each only when truthy |
| ErrorActions.ErrorQueryResolvedAndDates | nodes/LogRocket/actions/error/index.ts:238-284 | `resolved` is sent whenever defined, `false` included; the dates only when truthy, converted |
| ErrorActions.GetAllListsErrors | nodes/LogRocket/actions/error/index.ts:238-284 | errors fall back `errors`, `data`, `[]`; with `simplify` each goes through `simplifyError`, in order |
| ErrorActions.GetReturnsErrorOrAnswer | nodes/LogRocket/actions/error/index.ts:286-300 | `get` returns `error`, else the answer, simplified exactly when `simplify` is on |
| ErrorActions.GetSessionsSendsOnlyLimit | nodes/LogRocket/actions/error/index.ts:302-318 | `getSessions` without `returnAll` sends only `{limit}` |
| ErrorActions.GetStackTraceResult | nodes/LogRocket/actions/error/index.ts:320-327 | the stack trace is `stacktrace`, else the answer |
| ErrorActions.GetOccurrencesResult | nodes/LogRocket/actions/error/index.ts:329-350 | the query holds only the truthy dates and interval; the list falls back `occurrences`, `data`, `[]` |
| EventActions.EventQueryRenames | nodes/LogRocket/actions/event/index.ts:251-291 | `eventName`, `eventType` and `userId` are sent as `name`, `type` and `user_id` only when truthy; the dates only when truthy; nothing else |
| EventActions.EventPathsEncoded | nodes/LogRocket/actions/event/index.ts:293-363 | every event path carries the encoded name as one whole segment, which holds no `/`, `?` or `#` |
| EventActions.GetReturnsEventOrAnswer | nodes/LogRocket/actions/event/index.ts:293-307 | `get` returns `event`, else the answer, unchanged when `simplify` is off |
| EventActions.GetSimplifiesEvent | nodes/LogRocket/actions/event/index.ts:293-307 | with `simplify`, `get` returns the picked event through `simplifyEvent` |
| EventActions.GetAllListsEvents | nodes/LogRocket/actions/event/index.ts:251-291 | without `simplify`, `getAll` lists `events`, else `data`, else `[]` |
| EventActions.GetAllSimplifiesEvents | nodes/LogRocket/actions/event/index.ts:251-291 | with `simplify`, each listed event goes through `simplifyEvent`, in order |
| EventActions.GetSessionsQuery | nodes/LogRocket/actions/event/index.ts:309-337 | `getSessions` sends the truthy dates, plus `limit` when not returning all |
| EventActions.GetMetricsQuery | nodes/LogRocket/actions/event/index.ts:339-363 | the metrics query holds `start_date` and `end_date` (each the formatted date, exactly when that option is truthy), `interval`, and `group_by` from `groupBy`, each only when truthy |
| EventActions.GetMetricsResult | nodes/LogRocket/actions/event/index.ts:339-363 | the metrics fall back `metrics`, `data`, `[]` |
| HighlightActions.ForUserQueryFields | nodes/LogRocket/actions/highlight/index.ts:162-183 | `getForUser` sends `start_ms`, `end_ms` and `webhook_url` each only when truthy, so a bound of 0 is left out |
| HighlightActions.ForSessionQueryFields | nodes/LogRocket/actions/highlight/index.ts:185-199 | `getForSession` sends `webhook_url` only when truthy, and nothing else |
| HighlightActions.ForTimeRangeAlwaysHasBounds | nodes/LogRocket/actions/highlight/index.ts:201-219 | `getForTimeRange` always sends both bounds, even 0 or missing, and `webhook_url` only when truthy |
| HighlightActions.HighlightsReturnedUnchanged | nodes/LogRocket/actions/highlight/index.ts:162-219 | each highlight handler returns the answer unchanged, from its own path |
| MetricActions.SeriesQueryFields | nodes/LogRocket/actions/metric/index.ts:263-287 | the options-only query holds the time-series keys and nothing else |
| MetricActions.FilteredQueryFields | nodes/LogRocket/actions/metric/index.ts:191-261 | page views and sessions add each page filter exactly when truthy, on top of the options, which they keep |
| MetricActions.PerformanceQueryFields | nodes/LogRocket/actions/metric/index.ts:289-317 | `metric` is sent exactly when the choice is truthy and not `all`; `start_date` and `end_date` are the formatted dates exactly when those options are truthy; `interval` and `group_by` follow the options |
| MetricActions.CustomPathEncoded | nodes/LogRocket/actions/metric/index.ts:319-344 | the custom metric's name is one percent-encoded path segment |
| MetricActions.MetricsSimplified | nodes/LogRocket/actions/metric/index.ts:191-344 | every metric handler returns `metrics`, else `data`, else `[]`, each point through `simplifyMetric`, in order; a truthy non-array makes `.map` throw |
| FunnelActions.StepsFields | nodes/LogRocket/actions/funnel/index.ts:306-316 | each step keeps exactly its name, type and value, in order; a missing or non-array `stepValues` gives none |
| FunnelActions.CreateSendsNameAndSteps | nodes/LogRocket/actions/funnel/index.ts:301-325 | `create` posts the name and the steps, and returns `funnel`, else the answer |
| FunnelActions.UpdateBodyFields | nodes/LogRocket/actions/funnel/index.ts:327-356 | `update` sends a truthy name, and the steps exactly when the `steps` field is truthy; nothing else |
| FunnelActions.UpdateWithNothingSendsNoBody | nodes/LogRocket/actions/funnel/index.ts:327-356 | an update with neither field sends its PATCH with no body |
| FunnelActions.DeleteConfirms | nodes/LogRocket/actions/funnel/index.ts:358-365 | `delete` returns `{ success: true, funnelId }` once the call succeeds |
| FunnelActions.GetAllAndGetResults | nodes/LogRocket/actions/funnel/index.ts:275-299 | `getAll` lists `funnels`, else `data`, else `[]`; `get` returns `funnel`, else the answer |
| FunnelActions.GetResultsResult | nodes/LogRocket/actions/funnel/index.ts:367-385 | `getResults` sends only the truthy dates and returns `results`, else the answer |
| SegmentActions.ConditionsFields | nodes/LogRocket/actions/segment/index.ts:353-363 | each condition keeps exactly its field, operator and value, in order; a missing or non-array `conditionValues` gives none |
| SegmentActions.CreateBodyFields | nodes/LogRocket/actions/segment/index.ts:346-377 | `create` always sends name, type and conditions; the description only when truthy |
| SegmentActions.UpdateBodyFields | nodes/LogRocket/actions/segment/index.ts:379-411 | `update` sends name and description when truthy, the conditions when the `conditions` field is truthy, and nothing else |
| SegmentActions.WritesReturnSegment | nodes/LogRocket/actions/segment/index.ts:346-411 | `create` and `update` return `segment`, else the answer |
| SegmentActions.DeleteConfirms | nodes/LogRocket/actions/segment/index.ts:413-420 | `delete` returns `{ success: true, segmentId }` once the call succeeds |
| SegmentActions.GetUsersResult | nodes/LogRocket/actions/segment/index.ts:422-438 | the users of a segment are `users`, else `data`, else `[]`, or every page of `users` |
| SegmentActions.GetAllAndGetResults | nodes/LogRocket/actions/segment/index.ts:320-344 | `getAll` lists `segments`, else `data`, else `[]`; `get` returns `segment`, else the answer |
| AlertActions.ChannelsFields | nodes/LogRocket/actions/alert/index.ts:418-427 | each channel keeps exactly its type and target, in order; a missing or non-array `channelValues` gives none |
| AlertActions.CreateBodyFields | nodes/LogRocket/actions/alert/index.ts:408-444 | `create` always sends the six settings; `enabled` exactly when defined, so `false` is sent |
| AlertActions.UpdateBodyFields | nodes/LogRocket/actions/alert/index.ts:446-486 | `update` sends name, comparison and window when truthy, threshold and enabled whenever defined, the channels when `channels` is truthy, and nothing else |
| AlertActions.WritesReturnAlert | nodes/LogRocket/actions/alert/index.ts:408-486 | `create` and `update` return `alert`, else the answer; `create` always carries a body |
| AlertActions.SwitchRequests | nodes/LogRocket/actions/alert/index.ts:497-513 | `enable` and `disable` POST with no body or query to their own path and return `alert`, else the answer |
| AlertActions.DeleteConfirms | nodes/LogRocket/actions/alert/index.ts:488-495 | `delete` returns `{ success: true, alertId }` once the call succeeds |
| AlertActions.GetAllAndGetResults | nodes/LogRocket/actions/alert/index.ts:382-406 | `getAll` lists `alerts`, else `data`, else `[]`; `get` returns `alert`, else the answer |
| TeamActions.InviteSendsEmailAndRole | nodes/LogRocket/actions/team/index.ts:213-231 | `invite` always sends email and role and the name only when truthy; it returns `invitation`, else the answer |
| TeamActions.UpdateRoleSendsOnlyRole | nodes/LogRocket/actions/team/index.ts:242-252 | `updateRole` sends exactly `{ role: newRole }` to the role path and returns `member`, else the answer |
| TeamActions.RemoveConfirms | nodes/LogRocket/actions/team/index.ts:233-240 | `remove` returns `{ success: true, memberId }` once the call succeeds |
| TeamActions.GetAllAndGetResults | nodes/LogRocket/actions/team/index.ts:187-211 | `getAll` lists `members`, else `data`, else `[]`; `get` returns `member`, else the answer |
| ProjectActions.UpdateBodyFields | nodes/LogRocket/actions/project/index.ts:218-240 | `update` sends name, settings and `privacy_settings` (from `privacySettings`) exactly when truthy, and nothing else |
| ProjectActions.ProjectOrAppOrAnswer | nodes/LogRocket/actions/project/index.ts:209-240 | `get` and `update` return `project`, else `app`, else the answer |
| ProjectActions.GetAllListsProjects | nodes/LogRocket/actions/project/index.ts:192-207 | `getAll` lists `projects`, else `apps`, else `data`, else `[]` |
| ProjectActions.SdkConfigResult | nodes/LogRocket/actions/project/index.ts:242-249 | `getSDKConfig` returns `config`, else the answer |
| LogRocketNode.Handle | nodes/LogRocket/LogRocket.node.ts:175-181 | an unregistered resource/operation pair throws `Operation "<op>" not found for resource "<res>"` |
| LogRocketNode.Outcomes | nodes/LogRocket/LogRocket.node.ts:154-181 | one outcome per item, in order, all for the pair read from the first item |
| LogRocketNode.Flatten | nodes/LogRocket/LogRocket.node.ts:183-187 | an array result gives one output per element, in order; any other result gives itself |
| LogRocketNode.StoppedStaysStopped | nodes/LogRocket/LogRocket.node.ts:173-200 | once the batch has aborted or stalled, later items change nothing |
| LogRocketNode.BatchStep | nodes/LogRocket/LogRocket.node.ts:173-200 | one more item extends the batch by one step |
| LogRocketNode.Execute | nodes/LogRocket/LogRocket.node.ts:150-203 | the item loop returns exactly the batch specification function |
| LogRocketNode.ContinueOnFailEmitsEveryItem | nodes/LogRocket/LogRocket.node.ts:188-197 | with continue-on-fail the batch never aborts: outputs are each item's contribution in order, one `{error}` output paired with each failing item |
| LogRocketNode.FirstFailureAborts | nodes/LogRocket/LogRocket.node.ts:198 | without continue-on-fail the first failing item ends the batch with its error, whatever later items do |
| LogRocketNode.SucceedingPrefixEmits | nodes/LogRocket/LogRocket.node.ts:181-187 | items that all succeed emit their flattened results in order |
| LogRocketNode.UnknownOperationFails | nodes/LogRocket/LogRocket.node.ts:175-179 | an unregistered pair fails every item: one error output per item with continue-on-fail, otherwise the batch ends at the first item |
| LogRocketNode.AllFailing | nodes/LogRocket/LogRocket.node.ts:188-197 | items that all fail with one message contribute one paired error output each |
| LogRocketNode.RegistryResources | nodes/LogRocket/LogRocket.node.ts:158-171 | the handler table holds exactly the twelve resources; `session`/`getAll` and `metric`/`getCustomMetrics` are registered, `session`/`create` and an unknown resource are not |
| Trigger.AlertType | nodes/LogRocket/LogRocketTrigger.node.ts:95 | the type is `alert_type`, else `type`, else `unknown` |
| Trigger.Underscored | nodes/LogRocket/LogRocketTrigger.node.ts:107 | every `-` becomes `_`, one for one, and every other character is kept |
| Trigger.NormalizeShape | nodes/LogRocket/LogRocketTrigger.node.ts:107 | a normalised type keeps the length, has no upper-case ASCII letter and no `-`, and keeps every other character in place |
| Trigger.NormalizeIdempotent | nodes/LogRocket/LogRocketTrigger.node.ts:107 | normalising twice is normalising once |
| Trigger.NormalizeExample | nodes/LogRocket/LogRocketTrigger.node.ts:107 | `Error-Spike` normalises to `error_spike` |
| Trigger.Tokens | nodes/LogRocket/LogRocketTrigger.node.ts:99-106 | a filter outside the type table accepts only its own name |
| Trigger.TableTokensHoldROrC | nodes/LogRocket/LogRocketTrigger.node.ts:99-104 | every token of the table holds an `r` or a `c` |
| Trigger.NoMatchWithoutROrC | nodes/LogRocket/LogRocketTrigger.node.ts:106-109 | a type with neither `r` nor `c` passes no table filter |
| Trigger.UnknownAndDeployNeverMatch | nodes/LogRocket/LogRocketTrigger.node.ts:95-114 | `unknown` and `deploy` pass no table filter |
| Trigger.ErrorSpikeMatches | nodes/LogRocket/LogRocketTrigger.node.ts:100-109 | `Error-Spike` passes the `error_spike` filter |
| Trigger.ReplayUrls | nodes/LogRocket/LogRocketTrigger.node.ts:121-127 | one replay link per session id, in id order |
| Trigger.Webhook | nodes/LogRocket/LogRocketTrigger.node.ts:89-147 | the filter test, the link-gathering loop and the enrichment, step by step, return exactly the webhook specification function |
| Trigger.AnyNeverSuppresses | nodes/LogRocket/LogRocketTrigger.node.ts:98 | with filter `any` nothing is suppressed |
| Trigger.SuppressedIffNoToken | nodes/LogRocket/LogRocketTrigger.node.ts:106-114 | for another filter and a string type, the alert is suppressed exactly when no token occurs in the normalised type |
| Trigger.NonStringTypeThrows | nodes/LogRocket/LogRocketTrigger.node.ts:107 | a type that is not a string throws for every filter but `any` |
| Trigger.UntypedPayloadSuppressed | nodes/LogRocket/LogRocketTrigger.node.ts:95-114 | a payload with no type is suppressed by every table filter |
| Trigger.EmitsOneEnrichedObject | nodes/LogRocket/LogRocketTrigger.node.ts:130-146 | an emission holds one object that keeps every payload key but `_webhook` (and `session_urls` when links were made), carries the receipt, and adds nothing else |
| Trigger.EmittedSessionUrls | nodes/LogRocket/LogRocketTrigger.node.ts:118-140 | `session_urls` is the payload's own when truthy; otherwise, with truthy `session_ids` and `app_id`, one replay link per spread id (per array element, or per character of a string) when there are any; in every other case the payload's falsy value |

## Left out

- The HTTP client, credentials store and node parameters are inputs: the server is a total function from request descriptor to answer or failure, and a handler's parameters are one dictionary.
- `toIsoString` and `formatDateForApi` are a parameter `toIso`: date parsing and formatting are not modelled.
- `receivedAt` of the trigger is a parameter: the clock is not modelled.
- The cursor loop in the source may run forever against a server that always answers with a cursor. The model bounds it by a page count (`fuel`). A run that hits the bound ends as `Unfinished`, and the batch then ends as `Stalled`; the source would not return.
- Reading a field of `null` or `undefined` throws in JavaScript. The model reads such a field as `undefined` (`Json.Prop`), so a handler that would throw there is modelled as going on.
- `getNodeParameter` throwing on a missing required parameter is not modelled: a missing parameter reads as `undefined`.
- Prototype-inherited names are not modelled. A trait key `__proto__` is modelled as an ordinary key. A handler name such as `toString`, inherited by the handler tables, is modelled as not found.
- `Strings.Lower`: lower-cases ASCII letters only, not the full Unicode case mapping of `toLowerCase`.
- Numbers are integers. `String(n)` is modelled for integers only; fractions, `NaN` and infinities are left out.
- `Json.Spread` and `Json.MapItems`: their error texts (`object is not iterable`, `map is not a function`) are placeholders for the JavaScript engine's `TypeError` message, which depends on the value and the call site; so the failure of the trigger and the `error` item of continue-on-fail carry that placeholder for these failures.
- The key order of JSON bodies and queries is not modelled: they are maps.
- The guarded-assignment query builders, `buildSessionQuery` among them, are modelled as rule tables on values, not as the source's statement sequences that update a dictionary.
- `EventActions.GetReturnsEventOrAnswer` and `EventActions.GetSimplifiesEvent` are stated for any path. `EventActions.EventPathsEncoded` ties that path to the encoded event name.
- `MetricActions.MetricsSimplified` is stated for any endpoint and query. The per-handler query lemmas pin those down.
- `Trigger.AnyNeverSuppresses`: a truthy `session_urls` or `session_ids` that cannot be iterated still throws under `any`, so the webhook emits only when those fields are iterable or falsy.
- `Transport.ParseErrorMessage` follows the code. When `error.error` is a truthy object, the flat `message` is never consulted, even if the nested object has neither `message` nor `code`.
- The type normalisation follows the code: each `_` or `-` becomes one `_`, and runs are not collapsed.
- The action node reads the resource and operation from the first item only (`getNodeParameter(..., 0)`). An empty batch therefore runs no handler and emits nothing.
- The licensing notice printed on load is not modelled: it is console output only.
- The node and trigger descriptions (display names, options, field definitions) are not modelled: they are user-interface metadata.
- `NodeApiError` and `Error` objects are modelled by their message only.
