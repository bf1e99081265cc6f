/**
 * The request executor and the pagination driver
 * (nodes/LogRocket/transport/index.ts).
 *
 * The HTTP call itself is foreign: the server is a total function from the
 * request descriptor to either an answer (a JSON object) or a transport
 * failure carrying its message.
 */
module Transport {
  import opened Json

  datatype Credentials = Credentials(apiKey: string, appId: string)

  datatype HttpMethod = GET | POST | PATCH | PUT | DELETE | HEAD

  /** The options object handed to the host's HTTP helper. An absent body or
      query string is `None`. */
  datatype Request = Request(
    verb: HttpMethod,
    uri: string,
    headers: map<string, string>,
    json: bool,
    body: Option<Dict>,
    qs: Option<Dict>)

  datatype Response = Answer(data: Dict) | Failure(message: string)

  type Api = Request -> Response

  const ApiBase: string := "https://api.logrocket.com/v1/orgs/"
  const ReplayBase: string := "https://app.logrocket.com/"
  const DefaultPageSize: int := 100

  /** The request descriptor of `logrocketApiRequest`. */
  function BuildRequest(c: Credentials, m: HttpMethod, endpoint: string, body: Dict, query: Dict): (r: Request)
    ensures r.verb == m && r.json
    ensures r.uri == ApiBase + c.appId + endpoint
    ensures "Authorization" in r.headers && r.headers["Authorization"] == "Token " + c.apiKey
    ensures "Content-Type" in r.headers && r.headers["Content-Type"] == "application/json"
    ensures r.body.Some? <==> |body| > 0 && m != GET
    ensures r.body.Some? ==> r.body.value == body
    ensures r.qs.Some? <==> |query| > 0
    ensures r.qs.Some? ==> r.qs.value == query
  {
    Request(
      m,
      ApiBase + c.appId + endpoint,
      map["Authorization" := "Token " + c.apiKey, "Content-Type" := "application/json"],
      true,
      if |body| > 0 && m != GET then Some(body) else None,
      if |query| > 0 then Some(query) else None)
  }

  /** A GET never carries a body, whatever body the caller passes. */
  lemma GetNeverCarriesBody(c: Credentials, endpoint: string, body: Dict, query: Dict)
    ensures BuildRequest(c, GET, endpoint, body, query).body == None
  {
  }

  /** The message of the error that wraps a transport failure. */
  function FailureMessage(transportMessage: string): (r: string)
    ensures transportMessage != "" ==> r == "LogRocket API request failed: " + transportMessage
    ensures transportMessage == "" ==> r == "LogRocket API request failed: Unknown error"
  {
    "LogRocket API request failed: " + (if transportMessage == "" then "Unknown error" else transportMessage)
  }

  /** `logrocketApiRequest`: send the descriptor, return the answer, or fail
      with the wrapped message. */
  function ApiRequest(api: Api, c: Credentials, m: HttpMethod, endpoint: string, body: Dict, query: Dict): (r: Result<Dict>)
    ensures api(BuildRequest(c, m, endpoint, body, query)).Answer? <==> r.Ok?
    ensures r.Ok? ==> r.value == api(BuildRequest(c, m, endpoint, body, query)).data
    ensures r.Err? ==> r.message == FailureMessage(api(BuildRequest(c, m, endpoint, body, query)).message)
  {
    match api(BuildRequest(c, m, endpoint, body, query))
    case Answer(d) => Ok(d)
    case Failure(msg) => Err(FailureMessage(msg))
  }

  /** `query.limit = query.limit || 100`. */
  function WithDefaultLimit(query: Dict): (r: Dict)
    ensures r.Keys == query.Keys + {"limit"}
    ensures Truthy(Get(query, "limit")) ==> r["limit"] == query["limit"]
    ensures !Truthy(Get(query, "limit")) ==> r["limit"] == Num(DefaultPageSize)
    ensures forall k :: k in query && k != "limit" ==> r[k] == query[k]
  {
    query["limit" := Or(Get(query, "limit"), Num(DefaultPageSize))]
  }

  /** The items of one page: `response[propertyName] || response.data || []`. */
  function PageItems(response: Dict, propertyName: string): Value
  {
    FirstTruthy(response, [propertyName, "data"], Arr([]))
  }

  /** `response.pagination?.next_cursor`. */
  function NextCursor(response: Dict): Value
  {
    Prop(Get(response, "pagination"), "next_cursor")
  }

  /** How a cursor loop ends, with every request it sent, in order. `Finished`
      carries the caller's query as the loop left it (it gains `limit` and,
      after the first page, `cursor`). `OutOfPages` means the server was still
      returning a cursor when the page bound of the model ran out: the source
      itself has no bound and would keep asking. */
  datatype PageRun =
    | Finished(items: seq<Value>, query: Dict, sent: seq<Request>)
    | Failed(message: string, sent: seq<Request>)
    | OutOfPages(sent: seq<Request>)

  /** The rest of the cursor loop, from a state where `query` is the next
      query to send, `acc` the items gathered and `sent` the requests sent. */
  function Pages(api: Api, c: Credentials, propertyName: string, m: HttpMethod, endpoint: string,
                 body: Dict, query: Dict, acc: seq<Value>, sent: seq<Request>, fuel: nat): PageRun
    decreases fuel
  {
    if fuel == 0 then OutOfPages(sent)
    else
      var req := BuildRequest(c, m, endpoint, body, query);
      match ApiRequest(api, c, m, endpoint, body, query)
      case Err(msg) => Failed(msg, sent + [req])
      case Ok(response) =>
        match Spread(PageItems(response, propertyName))
        case Err(msg) => Failed(msg, sent + [req])
        case Ok(items) =>
          var cursor := NextCursor(response);
          if Truthy(cursor) then
            Pages(api, c, propertyName, m, endpoint, body, query["cursor" := cursor], acc + items, sent + [req], fuel - 1)
          else
            Finished(acc + items, query, sent + [req])
  }

  /** `logrocketApiRequestAllItems`, with at most `fuel` pages. */
  function AllItems(api: Api, c: Credentials, propertyName: string, m: HttpMethod, endpoint: string,
                    body: Dict, query: Dict, fuel: nat): PageRun
  {
    Pages(api, c, propertyName, m, endpoint, body, WithDefaultLimit(query), [], [], fuel)
  }

  /** The items one request contributes: the spread page items of its answer. */
  function AnswerItems(api: Api, propertyName: string, req: Request): seq<Value>
  {
    var response := api(req);
    if response.Failure? then []
    else
      var items := Spread(PageItems(response.data, propertyName));
      if items.Ok? then items.value else []
  }

  /** The items of every request in `sent`, concatenated in sending order. */
  function Collected(api: Api, propertyName: string, sent: seq<Request>): seq<Value>
  {
    if sent == [] then []
    else Collected(api, propertyName, sent[..|sent| - 1]) + AnswerItems(api, propertyName, sent[|sent| - 1])
  }

  /** Sending one more request adds its items at the end. */
  lemma CollectedStep(api: Api, propertyName: string, sent: seq<Request>, req: Request)
    ensures Collected(api, propertyName, sent + [req]) == Collected(api, propertyName, sent) + AnswerItems(api, propertyName, req)
  {
    assert (sent + [req])[..|sent|] == sent;
  }

  /** The query string of `req` holds `key` with value `v`. */
  predicate Carries(req: Request, key: string, v: Value)
  {
    req.qs.Some? && key in req.qs.value && req.qs.value[key] == v
  }

  /** The cursor the answer to `req` carries; `undefined` for a failure. */
  function CursorAfter(api: Api, req: Request): Value
  {
    var response := api(req);
    if response.Answer? then NextCursor(response.data) else Undefined
  }

  /** Every request after the first carries, verbatim, the truthy cursor the
      previous answer returned. */
  ghost predicate CursorChained(api: Api, sent: seq<Request>)
  {
    forall k :: 0 <= k < |sent| - 1 ==>
      Truthy(CursorAfter(api, sent[k])) && Carries(sent[k + 1], "cursor", CursorAfter(api, sent[k]))
  }

  /** Every request goes to the same endpoint with the same method and body
      and carries the query string with the given `limit`. */
  ghost predicate SameCall(sent: seq<Request>, c: Credentials, m: HttpMethod, endpoint: string, body: Dict, limit: Value)
  {
    forall k :: 0 <= k < |sent| ==>
      && sent[k].verb == m
      && sent[k].uri == ApiBase + c.appId + endpoint
      && sent[k].body == (if |body| > 0 && m != GET then Some(body) else None)
      && Carries(sent[k], "limit", limit)
  }

  function LastOf<T>(s: seq<T>): T
    requires s != []
  {
    s[|s| - 1]
  }

  /** Sending the next query keeps every request on the same call. */
  lemma SameCallExtends(sent: seq<Request>, c: Credentials, m: HttpMethod, endpoint: string, body: Dict,
                        query: Dict, limit: Value)
    requires "limit" in query && query["limit"] == limit
    requires SameCall(sent, c, m, endpoint, body, limit)
    ensures SameCall(sent + [BuildRequest(c, m, endpoint, body, query)], c, m, endpoint, body, limit)
  {
    assert |query| > 0 by { assert "limit" in query.Keys; }
  }

  /** Sending a query that carries the last answer's cursor keeps the chain. */
  lemma CursorChainExtends(api: Api, sent: seq<Request>, c: Credentials, m: HttpMethod, endpoint: string,
                           body: Dict, query: Dict)
    requires CursorChained(api, sent)
    requires sent != [] ==>
      && Truthy(CursorAfter(api, LastOf(sent)))
      && "cursor" in query
      && query["cursor"] == CursorAfter(api, LastOf(sent))
    ensures CursorChained(api, sent + [BuildRequest(c, m, endpoint, body, query)])
  {
    var req := BuildRequest(c, m, endpoint, body, query);
    var sent' := sent + [req];
    forall k | 0 <= k < |sent'| - 1
      ensures Truthy(CursorAfter(api, sent'[k])) && Carries(sent'[k + 1], "cursor", CursorAfter(api, sent'[k]))
    {
      if k == |sent| - 1 {
        assert sent'[k] == LastOf(sent);
        assert sent'[k + 1] == req;
        assert |query| > 0 by { assert "cursor" in query.Keys; }
      } else {
        assert sent'[k] == sent[k] && sent'[k + 1] == sent[k + 1];
      }
    }
  }

  /** Every request the loop sends goes to the same call; each one after
      the first carries the cursor of the answer before it; the loop sends
      its current query first; a loop cut short by the page bound sent one
      request per page. */
  lemma {:induction false} PagesSent(api: Api, c: Credentials, propertyName: string, m: HttpMethod, endpoint: string,
                                      body: Dict, query: Dict, acc: seq<Value>, sent: seq<Request>, fuel: nat, limit: Value)
    requires "limit" in query && query["limit"] == limit
    requires CursorChained(api, sent)
    requires SameCall(sent, c, m, endpoint, body, limit)
    requires sent != [] ==>
      && Truthy(CursorAfter(api, LastOf(sent)))
      && "cursor" in query
      && query["cursor"] == CursorAfter(api, LastOf(sent))
    ensures var r := Pages(api, c, propertyName, m, endpoint, body, query, acc, sent, fuel);
      && sent <= r.sent
      && CursorChained(api, r.sent)
      && SameCall(r.sent, c, m, endpoint, body, limit)
      && (fuel > 0 ==> sent + [BuildRequest(c, m, endpoint, body, query)] <= r.sent)
      && (r.OutOfPages? ==> |r.sent| == |sent| + fuel)
    decreases fuel
  {
    if fuel > 0 {
      var req := BuildRequest(c, m, endpoint, body, query);
      var sent' := sent + [req];
      SameCallExtends(sent, c, m, endpoint, body, query, limit);
      CursorChainExtends(api, sent, c, m, endpoint, body, query);
      assert sent'[..|sent'| - 1] == sent;
      var response := ApiRequest(api, c, m, endpoint, body, query);
      if response.Ok? {
        var items := Spread(PageItems(response.value, propertyName));
        if items.Ok? {
          var cursor := NextCursor(response.value);
          if Truthy(cursor) {
            PagesSent(api, c, propertyName, m, endpoint, body, query["cursor" := cursor],
                      acc + items.value, sent', fuel - 1, limit);
          }
        }
      }
    }
  }

  /** A loop that finishes has gathered the items of every request it sent,
      in order, and stopped on an answer without a truthy cursor. */
  lemma {:induction false} PagesFinished(api: Api, c: Credentials, propertyName: string, m: HttpMethod, endpoint: string,
                                          body: Dict, query: Dict, acc: seq<Value>, sent: seq<Request>, fuel: nat)
    requires acc == Collected(api, propertyName, sent)
    ensures var r := Pages(api, c, propertyName, m, endpoint, body, query, acc, sent, fuel);
      r.Finished? ==>
        && r.items == Collected(api, propertyName, r.sent)
        && r.sent != []
        && api(LastOf(r.sent)).Answer?
        && !Truthy(CursorAfter(api, LastOf(r.sent)))
    decreases fuel
  {
    if fuel > 0 {
      var req := BuildRequest(c, m, endpoint, body, query);
      var sent' := sent + [req];
      assert sent'[..|sent'| - 1] == sent;
      var response := ApiRequest(api, c, m, endpoint, body, query);
      if response.Ok? {
        var items := Spread(PageItems(response.value, propertyName));
        if items.Ok? {
          CollectedStep(api, propertyName, sent, req);
          var cursor := NextCursor(response.value);
          if Truthy(cursor) {
            PagesFinished(api, c, propertyName, m, endpoint, body, query["cursor" := cursor],
                          acc + items.value, sent', fuel - 1);
          }
        }
      }
    }
  }

  /** The pagination result is the in-order concatenation of every page's
      items; the loop asks again exactly while the answer carries a truthy
      `pagination.next_cursor`, and the next request carries that cursor
      verbatim; every request has the same method, URI, body and `limit`,
      which is the caller's limit when truthy and 100 otherwise. */
  lemma AllItemsProperties(api: Api, c: Credentials, propertyName: string, m: HttpMethod, endpoint: string,
                           body: Dict, query: Dict, fuel: nat)
    ensures var r := AllItems(api, c, propertyName, m, endpoint, body, query, fuel);
      && CursorChained(api, r.sent)
      && SameCall(r.sent, c, m, endpoint, body, Or(Get(query, "limit"), Num(DefaultPageSize)))
      && (r.Finished? ==>
            && r.items == Collected(api, propertyName, r.sent)
            && r.sent != []
            && api(LastOf(r.sent)).Answer?
            && !Truthy(CursorAfter(api, LastOf(r.sent))))
  {
    PagesSent(api, c, propertyName, m, endpoint, body, WithDefaultLimit(query), [], [], fuel,
              Or(Get(query, "limit"), Num(DefaultPageSize)));
    PagesFinished(api, c, propertyName, m, endpoint, body, WithDefaultLimit(query), [], [], fuel);
  }

  /** The first request carries no cursor unless the caller's query had one. */
  lemma FirstRequestHasCallerQuery(api: Api, c: Credentials, propertyName: string, m: HttpMethod, endpoint: string,
                                   body: Dict, query: Dict, fuel: nat)
    requires fuel > 0
    ensures var r := AllItems(api, c, propertyName, m, endpoint, body, query, fuel);
      && r.sent != []
      && r.sent[0] == BuildRequest(c, m, endpoint, body, WithDefaultLimit(query))
  {
    PagesSent(api, c, propertyName, m, endpoint, body, WithDefaultLimit(query), [], [], fuel,
              Or(Get(query, "limit"), Num(DefaultPageSize)));
  }

  /** `logrocketApiRequestAllItems` as the source runs it: a do-while loop that
      sets the cursor, sends, appends the page's items and reads the next
      cursor. `fuel` bounds the number of pages the model will send. */
  method RequestAllItems(api: Api, c: Credentials, propertyName: string, m: HttpMethod, endpoint: string,
                         body: Dict, query: Dict, fuel: nat) returns (r: PageRun)
    ensures r == AllItems(api, c, propertyName, m, endpoint, body, query, fuel)
  {
    var returnData: seq<Value> := [];
    var sent: seq<Request> := [];
    var cursor: Value := Undefined;
    var q := query;
    q := q["limit" := Or(Get(q, "limit"), Num(DefaultPageSize))];
    var pages: nat := 0;
    while true
      invariant pages <= fuel
      invariant pages == 0 ==> !Truthy(cursor) && sent == [] && returnData == [] && q == WithDefaultLimit(query)
      invariant Pages(api, c, propertyName, m, endpoint, body,
                      if Truthy(cursor) then q["cursor" := cursor] else q, returnData, sent, fuel - pages)
                == AllItems(api, c, propertyName, m, endpoint, body, query, fuel)
      decreases fuel - pages
    {
      if Truthy(cursor) {
        q := q["cursor" := cursor];
      }
      if pages == fuel {
        return OutOfPages(sent);
      }
      var req := BuildRequest(c, m, endpoint, body, q);
      sent := sent + [req];
      var response := ApiRequest(api, c, m, endpoint, body, q);
      if response.Err? {
        return Failed(response.message, sent);
      }
      var items := Spread(PageItems(response.value, propertyName));
      if items.Err? {
        return Failed(items.message, sent);
      }
      returnData := returnData + items.value;
      pages := pages + 1;
      cursor := NextCursor(response.value);
      if !Truthy(cursor) {
        return Finished(returnData, q, sent);
      }
    }
  }

  /** `buildSessionUrl`: the replay link, with `?t=<timestamp>` exactly when a
      timestamp is given, `0` included. */
  function BuildSessionUrl(appId: string, sessionId: string, timestamp: Value): (r: string)
    ensures ReplayBase + appId + "/sessions/" + sessionId <= r
    ensures timestamp == Undefined <==> r == ReplayBase + appId + "/sessions/" + sessionId
    ensures timestamp != Undefined ==> r[|ReplayBase + appId + "/sessions/" + sessionId|..] == "?t=" + ToText(timestamp)
  {
    var url := ReplayBase + appId + "/sessions/" + sessionId;
    if timestamp != Undefined then url + "?t=" + ToText(timestamp) else url
  }

  /** The unit-test cases of `buildSessionUrl`: no timestamp gives the bare
      link. */
  lemma BuildSessionUrlWithoutTimestamp()
    ensures BuildSessionUrl("org/app", "session-123", Undefined) == "https://app.logrocket.com/org/app/sessions/session-123"
  {
  }

  /** A timestamp is appended as `?t=` and its decimal digits. */
  lemma BuildSessionUrlWithTimestamp()
    ensures BuildSessionUrl("org/app", "session-123", Num(5000)) == "https://app.logrocket.com/org/app/sessions/session-123?t=5000"
  {
    var url := ReplayBase + "org/app" + "/sessions/" + "session-123";
    assert url == "https://app.logrocket.com/org/app/sessions/session-123";
    FiveThousandText();
    assert BuildSessionUrl("org/app", "session-123", Num(5000)) == url + "?t=" + "5000";
  }

  lemma FiveThousandText()
    ensures ToText(Num(5000)) == "5000"
  {
    assert NatText(5) == "5";
    assert NatText(50) == NatText(5) + "0";
    assert NatText(500) == NatText(50) + "0";
  }

  /** A zero timestamp is still a timestamp: it is not dropped as falsy. */
  lemma BuildSessionUrlWithZeroTimestamp()
    ensures BuildSessionUrl("org/app", "session-123", Num(0)) == "https://app.logrocket.com/org/app/sessions/session-123?t=0"
  {
    var url := ReplayBase + "org/app" + "/sessions/" + "session-123";
    assert url == "https://app.logrocket.com/org/app/sessions/session-123";
    assert ToText(Num(0)) == "0";
    assert BuildSessionUrl("org/app", "session-123", Num(0)) == url + "?t=" + "0";
  }

  /** `typeof v === 'object'` for a truthy `v`: objects and arrays. */
  predicate IsObjectLike(v: Value)
  {
    v.Obj? || v.Arr?
  }

  /** `parseErrorMessage`: when `error.error` is a truthy object, its `message`,
      else its `code`, else "Unknown error" (the flat `message` is then not
      consulted); otherwise the flat `message`, else "Unknown error". */
  function ParseErrorMessage(error: Dict): (r: Value)
    ensures Truthy(r)
    ensures IsObjectLike(Get(error, "error")) ==>
      var nested := Get(error, "error");
      && (Truthy(Prop(nested, "message")) ==> r == Prop(nested, "message"))
      && (!Truthy(Prop(nested, "message")) && Truthy(Prop(nested, "code")) ==> r == Prop(nested, "code"))
      && (!Truthy(Prop(nested, "message")) && !Truthy(Prop(nested, "code")) ==> r == Str("Unknown error"))
    ensures !IsObjectLike(Get(error, "error")) ==>
      && (Truthy(Get(error, "message")) ==> r == Get(error, "message"))
      && (!Truthy(Get(error, "message")) ==> r == Str("Unknown error"))
  {
    var nested := Get(error, "error");
    if Truthy(nested) && IsObjectLike(nested) then
      Or(Prop(nested, "message"), Or(Prop(nested, "code"), Str("Unknown error")))
    else
      Or(Get(error, "message"), Str("Unknown error"))
  }
}
