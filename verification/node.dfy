/**
 * The action node's `execute` (nodes/LogRocket/LogRocket.node.ts): the
 * resource and operation are read once, from the first item; the handler
 * registered for the pair runs on every item in turn; an array result
 * becomes one output per element; a failing item either ends the batch or,
 * when the node continues on failure, becomes one error output.
 */
module LogRocketNode {
  import opened Json
  import opened Helpers
  import opened Actions
  import SessionActions
  import UserActions
  import IssueActions
  import ErrorActions
  import EventActions
  import HighlightActions
  import MetricActions
  import FunnelActions
  import SegmentActions
  import AlertActions
  import TeamActions
  import ProjectActions

  /** The handler table: each resource with the operations it registers. */
  const Registry: map<string, set<string>> :=
    map["session" := SessionActions.Operations, "user" := UserActions.Operations, "issue" := IssueActions.Operations,
        "error" := ErrorActions.Operations, "event" := EventActions.Operations,
        "highlight" := HighlightActions.Operations, "metric" := MetricActions.Operations,
        "funnel" := FunnelActions.Operations, "segment" := SegmentActions.Operations,
        "alert" := AlertActions.Operations, "team" := TeamActions.Operations, "project" := ProjectActions.Operations]

  predicate Registered(resource: string, operation: string)
  {
    resource in Registry && operation in Registry[resource]
  }

  /** The registered handler's plan for one item's parameters. */
  function Dispatch(ctx: Context, resource: string, operation: string, p: Dict): Plan
    requires Registered(resource, operation)
  {
    if resource == "session" then SessionActions.PlanFor(operation, ctx, p)
    else if resource == "user" then UserActions.PlanFor(operation, ctx, p)
    else if resource == "issue" then IssueActions.PlanFor(operation, ctx, p)
    else if resource == "error" then ErrorActions.PlanFor(operation, ctx, p)
    else if resource == "event" then EventActions.PlanFor(operation, ctx, p)
    else if resource == "highlight" then HighlightActions.PlanFor(operation, ctx, p)
    else if resource == "metric" then MetricActions.PlanFor(operation, ctx, p)
    else if resource == "funnel" then FunnelActions.PlanFor(operation, ctx, p)
    else if resource == "segment" then SegmentActions.PlanFor(operation, p)
    else if resource == "alert" then AlertActions.PlanFor(operation, p)
    else if resource == "team" then TeamActions.PlanFor(operation, p)
    else ProjectActions.PlanFor(operation, p)
  }

  function NotFoundMessage(operation: string, resource: string): string
  {
    "Operation \"" + operation + "\" not found for resource \"" + resource + "\""
  }

  /** One item: the handler's outcome, or the not-found error. */
  function Handle(ctx: Context, resource: string, operation: string, p: Dict): (r: Outcome)
    ensures !Registered(resource, operation) ==> r == Threw(NotFoundMessage(operation, resource))
  {
    if Registered(resource, operation) then RunPlan(ctx, Dispatch(ctx, resource, operation, p))
    else Threw(NotFoundMessage(operation, resource))
  }

  /** Every item's outcome, all with the pair read from the first item. */
  function Outcomes(ctx: Context, items: seq<Dict>): (r: seq<Outcome>)
    ensures |r| == |items|
    ensures forall i :: 0 <= i < |items| ==>
              r[i] == Handle(ctx, Text(items[0], "resource"), Text(items[0], "operation"), items[i])
  {
    if items == [] then []
    else
      var resource := Text(items[0], "resource");
      var operation := Text(items[0], "operation");
      seq(|items|, i requires 0 <= i < |items| => Handle(ctx, resource, operation, items[i]))
  }

  /** The outputs of one successful item: one per element of an array,
      otherwise the result itself. */
  function Flatten(v: Value): (r: seq<ExecutionItem>)
    ensures v.Arr? ==> |r| == |v.items| && forall i :: 0 <= i < |r| ==> r[i] == ExecutionItem(v.items[i], None)
    ensures !v.Arr? ==> r == [ExecutionItem(v, None)]
  {
    if v.Arr? then seq(|v.items|, i requires 0 <= i < |v.items| => ExecutionItem(v.items[i], None))
    else [ExecutionItem(v, None)]
  }

  /** The output a failing item leaves when the node continues on failure. */
  function ErrorItem(message: string, i: nat): ExecutionItem
  {
    ExecutionItem(Obj(map["error" := Str(message)]), Some(i))
  }

  /** How a batch ends: with its outputs, with the error that ended it, or
      with a handler whose page bound ran out. */
  datatype BatchRun = Emitted(items: seq<ExecutionItem>) | Aborted(message: string) | Stalled

  /** The batch after item `i` with outcome `out`. */
  function Step(acc: BatchRun, i: nat, out: Outcome, continueOnFail: bool): BatchRun
  {
    if !acc.Emitted? then acc
    else match out
      case Returned(v) => Emitted(acc.items + Flatten(v))
      case Threw(message) => if continueOnFail then Emitted(acc.items + [ErrorItem(message, i)]) else Aborted(message)
      case Unfinished => Stalled
  }

  /** The batch over the outcomes, item by item in input order. */
  function Batch(outs: seq<Outcome>, continueOnFail: bool): BatchRun
  {
    if outs == [] then Emitted([])
    else Step(Batch(outs[..|outs| - 1], continueOnFail), |outs| - 1, outs[|outs| - 1], continueOnFail)
  }

  /** A batch that has stopped stays stopped: later items change nothing. */
  lemma {:induction false} StoppedStaysStopped(outs: seq<Outcome>, k: nat, continueOnFail: bool)
    requires k <= |outs|
    requires !Batch(outs[..k], continueOnFail).Emitted?
    ensures Batch(outs, continueOnFail) == Batch(outs[..k], continueOnFail)
  {
    if k < |outs| {
      assert outs[..|outs| - 1][..k] == outs[..k];
      StoppedStaysStopped(outs[..|outs| - 1], k, continueOnFail);
    } else {
      assert outs[..k] == outs;
    }
  }

  /** One more item extends the batch by one step. */
  lemma BatchStep(outs: seq<Outcome>, i: nat, continueOnFail: bool)
    requires i < |outs|
    ensures Batch(outs[..i + 1], continueOnFail) == Step(Batch(outs[..i], continueOnFail), i, outs[i], continueOnFail)
  {
    assert outs[..i + 1][..i] == outs[..i];
  }

  /** The batch loop. */
  method Execute(ctx: Context, items: seq<Dict>, continueOnFail: bool) returns (run: BatchRun)
    ensures run == Batch(Outcomes(ctx, items), continueOnFail)
  {
    ghost var outs := Outcomes(ctx, items);
    if |items| == 0 {
      return Emitted([]);
    }
    var resource := Text(items[0], "resource");
    var operation := Text(items[0], "operation");
    var returnData: seq<ExecutionItem> := [];
    var i := 0;
    while i < |items|
      invariant 0 <= i <= |items|
      invariant Batch(outs[..i], continueOnFail) == Emitted(returnData)
    {
      var out := Handle(ctx, resource, operation, items[i]);
      assert out == outs[i];
      BatchStep(outs, i, continueOnFail);
      match out {
        case Returned(v) =>
          returnData := returnData + Flatten(v);
        case Threw(message) =>
          if continueOnFail {
            returnData := returnData + [ErrorItem(message, i)];
          } else {
            StoppedStaysStopped(outs, i + 1, continueOnFail);
            return Aborted(message);
          }
        case Unfinished =>
          StoppedStaysStopped(outs, i + 1, continueOnFail);
          return Stalled;
      }
      i := i + 1;
    }
    assert outs[..i] == outs;
    run := Emitted(returnData);
  }

  /** What one finished item contributes to the outputs. */
  function Contribution(out: Outcome, i: nat): seq<ExecutionItem>
  {
    match out
    case Returned(v) => Flatten(v)
    case Threw(message) => [ErrorItem(message, i)]
    case Unfinished => []
  }

  /** The contributions of the items, concatenated in input order. */
  function Contributions(outs: seq<Outcome>): seq<ExecutionItem>
  {
    if outs == [] then [] else Contributions(outs[..|outs| - 1]) + Contribution(outs[|outs| - 1], |outs| - 1)
  }

  /** Without a stalled handler and with continue-on-fail, the batch never
      aborts: its outputs are each item's contribution in input order, one
      error output for each failing item. */
  lemma {:induction false} ContinueOnFailEmitsEveryItem(outs: seq<Outcome>)
    requires forall i :: 0 <= i < |outs| ==> !outs[i].Unfinished?
    ensures Batch(outs, true) == Emitted(Contributions(outs))
  {
    if outs != [] {
      ContinueOnFailEmitsEveryItem(outs[..|outs| - 1]);
    }
  }

  /** Without continue-on-fail, the first failing item ends the batch with
      its error, whatever the later items would do. */
  lemma {:induction false} FirstFailureAborts(outs: seq<Outcome>, k: nat)
    requires k < |outs| && outs[k].Threw?
    requires forall i :: 0 <= i < k ==> outs[i].Returned?
    ensures Batch(outs, false) == Aborted(outs[k].message)
  {
    SucceedingPrefixEmits(outs[..k]);
    assert outs[..k + 1][..k] == outs[..k];
    assert Batch(outs[..k + 1], false) == Aborted(outs[k].message);
    StoppedStaysStopped(outs, k + 1, false);
  }

  /** Items that all succeed emit their flattened results in order. */
  lemma {:induction false} SucceedingPrefixEmits(outs: seq<Outcome>)
    requires forall i :: 0 <= i < |outs| ==> outs[i].Returned?
    ensures Batch(outs, false) == Emitted(Contributions(outs))
    ensures Batch(outs, true) == Emitted(Contributions(outs))
  {
    if outs != [] {
      SucceedingPrefixEmits(outs[..|outs| - 1]);
    }
  }

  /** An unregistered pair fails every item with the not-found error: with
      continue-on-fail, one error output per item, in order; without it, the
      batch ends at the first item. */
  lemma UnknownOperationFails(ctx: Context, items: seq<Dict>)
    requires |items| > 0
    requires !Registered(Text(items[0], "resource"), Text(items[0], "operation"))
    ensures var message := NotFoundMessage(Text(items[0], "operation"), Text(items[0], "resource"));
      Batch(Outcomes(ctx, items), false) == Aborted(message)
    ensures var message := NotFoundMessage(Text(items[0], "operation"), Text(items[0], "resource"));
      Contributions(Outcomes(ctx, items)) == seq(|items|, i requires 0 <= i < |items| => ErrorItem(message, i))
      && Batch(Outcomes(ctx, items), true) == Emitted(Contributions(Outcomes(ctx, items)))
  {
    var outs := Outcomes(ctx, items);
    FirstFailureAborts(outs, 0);
    ContinueOnFailEmitsEveryItem(outs);
    var message := NotFoundMessage(Text(items[0], "operation"), Text(items[0], "resource"));
    AllFailing(outs, message);
  }

  /** Contributions of items that all fail with one message. */
  lemma {:induction false} AllFailing(outs: seq<Outcome>, message: string)
    requires forall i :: 0 <= i < |outs| ==> outs[i] == Threw(message)
    ensures Contributions(outs) == seq(|outs|, i requires 0 <= i < |outs| => ErrorItem(message, i))
  {
    if outs != [] {
      AllFailing(outs[..|outs| - 1], message);
    }
  }

  /** Every registered resource runs one of its own handlers: the table
      holds the twelve resources and no other. */
  lemma RegistryResources()
    ensures Registry.Keys == {"session", "user", "issue", "error", "event", "highlight", "metric", "funnel", "segment",
                              "alert", "team", "project"}
    ensures Registered("session", "getAll") && Registered("metric", "getCustomMetrics")
    ensures !Registered("session", "create") && !Registered("webhook", "getAll")
  {
  }
}
