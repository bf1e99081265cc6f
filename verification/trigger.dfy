/**
 * The LogRocket webhook trigger (nodes/LogRocket/LogRocketTrigger.node.ts).
 *
 * An incoming alert is either suppressed, because its type does not match the
 * node's event filter, or emitted as exactly one object: the payload, a
 * `_webhook` record of when and with which headers it arrived, and, when the
 * payload lists session ids instead of replay links, the links it synthesises.
 */
module Trigger {
  import opened Json
  import opened Strings
  import opened Transport

  /** The filter that admits every alert. */
  const AnyEvent: string := "any"

  /** The filters with an entry in the type table. */
  const TableEvents: set<string> := {"error_spike", "rage_click", "performance_regression", "custom_alert"}

  /** The raw alert type: `alert_type || type || "unknown"`. */
  function AlertType(body: Dict): (r: Value)
    ensures Truthy(r)
    ensures Truthy(Get(body, "alert_type")) ==> r == Get(body, "alert_type")
    ensures !Truthy(Get(body, "alert_type")) && Truthy(Get(body, "type")) ==> r == Get(body, "type")
    ensures !Truthy(Get(body, "alert_type")) && !Truthy(Get(body, "type")) ==> r == Str("unknown")
  {
    Or(Or(Get(body, "alert_type"), Get(body, "type")), Str("unknown"))
  }

  /** `s.replace(/[_-]/g, '_')`: every `-` becomes `_`, one for one. */
  function Underscored(s: string): (r: string)
    ensures |r| == |s|
    ensures forall i :: 0 <= i < |s| ==> r[i] == (if s[i] == '-' then '_' else s[i])
  {
    seq(|s|, i requires 0 <= i < |s| => if s[i] == '-' then '_' else s[i])
  }

  /** The normalised alert type: lower-cased, then each `_` or `-` written as `_`. */
  function Normalize(s: string): string
  {
    Underscored(Lower(s))
  }

  /** A normalised type has no upper-case letter and no `-`, and every other
      character is kept in place. */
  lemma NormalizeShape(s: string)
    ensures |Normalize(s)| == |s|
    ensures forall i :: 0 <= i < |s| ==> !('A' <= Normalize(s)[i] <= 'Z') && Normalize(s)[i] != '-'
    ensures forall i :: 0 <= i < |s| && !('A' <= s[i] <= 'Z') && s[i] != '-' ==> Normalize(s)[i] == s[i]
  {
  }

  /** Normalising twice is normalising once. */
  lemma NormalizeIdempotent(s: string)
    ensures Normalize(Normalize(s)) == Normalize(s)
  {
    NormalizeShape(s);
    NormalizeShape(Normalize(s));
  }

  /** `"Error-Spike"` normalises to `"error_spike"`. */
  lemma NormalizeExample()
    ensures Normalize("Error-Spike") == "error_spike"
  {
    var n := Normalize("Error-Spike");
    assert |n| == 11;
    assert n[0] == 'e' && n[5] == '_' && n[6] == 's';
  }

  /** The type tokens a filter accepts: its table entry, or the filter name
      itself when the table has none. */
  function Tokens(event: string): (r: seq<string>)
    ensures event !in TableEvents ==> r == [event]
  {
    if event == "error_spike" then ["error_spike", "error", "errors"]
    else if event == "rage_click" then ["rage_click", "rage_click_spike", "rage"]
    else if event == "performance_regression" then ["performance_regression", "performance", "perf"]
    else if event == "custom_alert" then ["custom", "custom_alert"]
    else [event]
  }

  /** `tokens.some(t => normalized.includes(t))`. */
  predicate Matches(normalized: string, tokens: seq<string>)
  {
    exists i :: 0 <= i < |tokens| && Contains(normalized, tokens[i])
  }

  /** Whether the filter lets the alert through. A type that is not a string
      has no `toLowerCase`, so any filter but `any` throws on it. */
  function Admits(event: string, alertType: Value): (r: Result<bool>)
  {
    if event == AnyEvent then Ok(true)
    else if !alertType.Str? then Err("alertType.toLowerCase is not a function")
    else Ok(Matches(Normalize(alertType.s), Tokens(event)))
  }

  /** Every token of the type table holds an `r` or a `c`. */
  lemma TableTokensHoldROrC(event: string, i: int)
    requires event in TableEvents
    requires 0 <= i < |Tokens(event)|
    ensures 'r' in Tokens(event)[i] || 'c' in Tokens(event)[i]
  {
    var t := Tokens(event)[i];
    if event == "custom_alert" {
      assert t[0] == 'c';
    } else if event == "performance_regression" {
      assert t[2] == 'r';
    } else if event == "rage_click" {
      assert t[0] == 'r';
    } else {
      assert t[1] == 'r';
    }
  }

  /** A normalised type with neither `r` nor `c` matches no table filter. */
  lemma NoMatchWithoutROrC(event: string, normalized: string)
    requires event in TableEvents
    requires 'r' !in normalized && 'c' !in normalized
    ensures !Matches(normalized, Tokens(event))
  {
    forall i | 0 <= i < |Tokens(event)|
      ensures !Contains(normalized, Tokens(event)[i])
    {
      TableTokensHoldROrC(event, i);
      if Contains(normalized, Tokens(event)[i]) {
        if 'r' in Tokens(event)[i] {
          ContainsOnlyCharsOf(normalized, Tokens(event)[i], 'r');
        } else {
          ContainsOnlyCharsOf(normalized, Tokens(event)[i], 'c');
        }
      }
    }
  }

  /** `"unknown"` and `"deploy"` pass no table filter. */
  lemma UnknownAndDeployNeverMatch(event: string)
    requires event in TableEvents
    ensures Admits(event, Str("unknown")) == Ok(false)
    ensures Admits(event, Str("deploy")) == Ok(false)
  {
    var u := Normalize("unknown");
    assert u == "unknown" by {
      NormalizeShape("unknown");
    }
    NoMatchWithoutROrC(event, u);
    var d := Normalize("deploy");
    assert d == "deploy" by {
      NormalizeShape("deploy");
    }
    NoMatchWithoutROrC(event, d);
  }

  /** `"Error-Spike"` passes the `error_spike` filter. */
  lemma ErrorSpikeMatches()
    ensures Admits("error_spike", Str("Error-Spike")) == Ok(true)
  {
    NormalizeExample();
    assert Contains("error_spike", "error_spike");
    assert Tokens("error_spike")[0] == "error_spike";
  }

  /** The replay link the trigger synthesises for each session id, in id order. */
  function ReplayUrls(appId: Value, ids: seq<Value>): (r: seq<Value>)
    ensures |r| == |ids|
    ensures forall i :: 0 <= i < |ids| ==> r[i] == Str(BuildSessionUrl(ToText(appId), ToText(ids[i]), Undefined))
  {
    seq(|ids|, i requires 0 <= i < |ids| => Str(ReplayBase + ToText(appId) + "/sessions/" + ToText(ids[i])))
  }

  /** The session links gathered from the payload: `session_urls` spread as
      given, else one link per `session_ids` entry when `app_id` is set too,
      else none. A truthy value that cannot be iterated throws. */
  function SessionUrls(body: Dict): Result<seq<Value>>
  {
    if Truthy(Get(body, "session_urls")) then Spread(Get(body, "session_urls"))
    else if Truthy(Get(body, "session_ids")) && Truthy(Get(body, "app_id")) then
      var ids := Spread(Get(body, "session_ids"));
      if ids.Err? then Err(ids.message) else Ok(ReplayUrls(Get(body, "app_id"), ids.value))
    else Ok([])
  }

  /** The `_webhook` record: arrival time and request headers. */
  function Receipt(headers: Dict, receivedAt: string): Value
  {
    Obj(map["receivedAt" := Str(receivedAt), "headers" := Obj(headers)])
  }

  /** Whether the enriched object gets synthesised links. */
  predicate AddsUrls(body: Dict, urls: seq<Value>)
  {
    |urls| > 0 && !Truthy(Get(body, "session_urls"))
  }

  /** The emitted object: the payload with `_webhook` set and, when links
      were synthesised, `session_urls`. */
  function Enriched(body: Dict, headers: Dict, receivedAt: string, urls: seq<Value>): Dict
  {
    var e := body["_webhook" := Receipt(headers, receivedAt)];
    if AddsUrls(body, urls) then e["session_urls" := Arr(urls)] else e
  }

  /** What the webhook answers: nothing to the workflow, or the items it
      starts the workflow with. */
  datatype WebhookResponse = NoWebhookResponse | WorkflowData(items: seq<Dict>)

  /** The webhook's answer for a filter, a payload, its headers and its
      arrival time. */
  function Respond(event: string, body: Dict, headers: Dict, receivedAt: string): Result<WebhookResponse>
  {
    var admits := Admits(event, AlertType(body));
    if admits.Err? then Err(admits.message)
    else if !admits.value then Ok(NoWebhookResponse)
    else
      var urls := SessionUrls(body);
      if urls.Err? then Err(urls.message)
      else Ok(WorkflowData([Enriched(body, headers, receivedAt, urls.value)]))
  }

  /** `webhook`: the filter test, the link-gathering loop and the enrichment,
      step by step. */
  method Webhook(event: string, body: Dict, headers: Dict, receivedAt: string) returns (r: Result<WebhookResponse>)
    ensures r == Respond(event, body, headers, receivedAt)
  {
    var alertType := AlertType(body);
    if event != AnyEvent {
      var validTypes := Tokens(event);
      if !alertType.Str? {
        return Err("alertType.toLowerCase is not a function");
      }
      var normalized := Normalize(alertType.s);
      if !Matches(normalized, validTypes) {
        return Ok(NoWebhookResponse);
      }
    }
    var sessionUrls: seq<Value> := [];
    if Truthy(Get(body, "session_urls")) {
      var given := Spread(Get(body, "session_urls"));
      if given.Err? {
        return Err(given.message);
      }
      sessionUrls := sessionUrls + given.value;
    } else if Truthy(Get(body, "session_ids")) && Truthy(Get(body, "app_id")) {
      var ids := Spread(Get(body, "session_ids"));
      if ids.Err? {
        return Err(ids.message);
      }
      var appId := Get(body, "app_id");
      var i := 0;
      while i < |ids.value|
        invariant 0 <= i <= |ids.value|
        invariant sessionUrls == ReplayUrls(appId, ids.value[..i])
      {
        sessionUrls := sessionUrls + [Str(ReplayBase + ToText(appId) + "/sessions/" + ToText(ids.value[i]))];
        i := i + 1;
      }
      assert ids.value[..i] == ids.value;
    }
    var enriched := body["_webhook" := Receipt(headers, receivedAt)];
    if |sessionUrls| > 0 && !Truthy(Get(body, "session_urls")) {
      enriched := enriched["session_urls" := Arr(sessionUrls)];
    }
    return Ok(WorkflowData([enriched]));
  }

  /** With filter `any` nothing is suppressed: the payload is emitted unless
      its session fields cannot be iterated. */
  lemma AnyNeverSuppresses(body: Dict, headers: Dict, receivedAt: string)
    ensures Respond(AnyEvent, body, headers, receivedAt) != Ok(NoWebhookResponse)
    ensures SessionUrls(body).Ok? ==>
              Respond(AnyEvent, body, headers, receivedAt).Ok? && Respond(AnyEvent, body, headers, receivedAt).value.WorkflowData?
  {
  }

  /** For any other filter and a string type, the alert is suppressed exactly
      when no token of the filter occurs in the normalised type. */
  lemma SuppressedIffNoToken(event: string, body: Dict, headers: Dict, receivedAt: string)
    requires event != AnyEvent && AlertType(body).Str?
    ensures Respond(event, body, headers, receivedAt) == Ok(NoWebhookResponse)
        <==> !Matches(Normalize(AlertType(body).s), Tokens(event))
  {
  }

  /** A type that is not a string throws for every filter but `any`. */
  lemma NonStringTypeThrows(event: string, body: Dict, headers: Dict, receivedAt: string)
    requires event != AnyEvent && !AlertType(body).Str?
    ensures Respond(event, body, headers, receivedAt).Err?
  {
  }

  /** A payload with neither `alert_type` nor `type` is suppressed by every
      table filter. */
  lemma UntypedPayloadSuppressed(event: string, body: Dict, headers: Dict, receivedAt: string)
    requires event in TableEvents
    requires !Truthy(Get(body, "alert_type")) && !Truthy(Get(body, "type"))
    ensures Respond(event, body, headers, receivedAt) == Ok(NoWebhookResponse)
  {
    UnknownAndDeployNeverMatch(event);
  }

  /** An emission holds exactly one object. That object keeps every payload
      key but `_webhook` unchanged (and `session_urls` unless links were
      synthesised), carries the receipt under `_webhook`, and has no key of
      its own beyond those two. */
  lemma EmitsOneEnrichedObject(event: string, body: Dict, headers: Dict, receivedAt: string)
    requires Respond(event, body, headers, receivedAt).Ok?
    requires Respond(event, body, headers, receivedAt).value.WorkflowData?
    ensures var items := Respond(event, body, headers, receivedAt).value.items;
      && |items| == 1
      && items[0].Keys <= body.Keys + {"_webhook", "session_urls"}
      && Get(items[0], "_webhook") == Receipt(headers, receivedAt)
      && (forall k :: k in body && k != "_webhook" && k != "session_urls" ==> k in items[0] && items[0][k] == body[k])
  {
  }

  /** `session_urls` in the emitted object: the payload's own when truthy;
      otherwise the synthesised links when there are any; otherwise whatever
      (falsy) value the payload had. Synthesised links are one per spread
      id, in order: one per element of an array, one per character of a
      string. */
  lemma EmittedSessionUrls(event: string, body: Dict, headers: Dict, receivedAt: string)
    requires Respond(event, body, headers, receivedAt).Ok?
    requires Respond(event, body, headers, receivedAt).value.WorkflowData?
    ensures var item := Respond(event, body, headers, receivedAt).value.items[0];
      && (Truthy(Get(body, "session_urls")) ==> Get(item, "session_urls") == Get(body, "session_urls"))
      && (!Truthy(Get(body, "session_urls")) && Truthy(Get(body, "session_ids")) && Truthy(Get(body, "app_id"))
          ==> var ids := Spread(Get(body, "session_ids"));
              && ids.Ok?
              && (|ids.value| > 0 ==> Get(item, "session_urls") == Arr(ReplayUrls(Get(body, "app_id"), ids.value)))
              && (|ids.value| == 0 ==> Get(item, "session_urls") == Get(body, "session_urls")))
      && (!Truthy(Get(body, "session_urls")) && !(Truthy(Get(body, "session_ids")) && Truthy(Get(body, "app_id")))
          ==> Get(item, "session_urls") == Get(body, "session_urls"))
  {
  }
}
