/** Tool-call fan-out and fan-in for a run in state `requires_action`: the
    calls are filtered through the handler table, every matched handler is
    started, and the outputs are joined all-or-nothing, as `Promise.all` does. */
module Tools {
  import opened Js
  import opened Effects

  /** The calls whose function name has a handler, in input order; the rest are skipped. */
  function Matching(calls: seq<ToolCall>, handlers: set<string>): (m: seq<ToolCall>)
    ensures |m| <= |calls|
    ensures forall i | 0 <= i < |m| :: m[i].name in handlers && m[i] in calls
  {
    if |calls| == 0 then []
    else (if calls[0].name in handlers then [calls[0]] else []) + Matching(calls[1..], handlers)
  }

  /** Filtering keeps relative order: it distributes over concatenation. */
  lemma {:induction false} MatchingAppend(a: seq<ToolCall>, b: seq<ToolCall>, handlers: set<string>)
    ensures Matching(a + b, handlers) == Matching(a, handlers) + Matching(b, handlers)
  {
    if |a| > 0 {
      assert (a + b)[0] == a[0];
      assert (a + b)[1..] == a[1..] + b;
      MatchingAppend(a[1..], b, handlers);
    } else {
      assert a + b == b;
    }
  }

  /** No call with a handler is dropped, and nothing matches exactly when no call has a handler. */
  lemma {:induction false} MatchingComplete(calls: seq<ToolCall>, handlers: set<string>)
    ensures forall i | 0 <= i < |calls| && calls[i].name in handlers :: calls[i] in Matching(calls, handlers)
    ensures |Matching(calls, handlers)| == 0 <==> forall i | 0 <= i < |calls| :: calls[i].name !in handlers
  {
    if |calls| > 0 {
      MatchingComplete(calls[1..], handlers);
      forall i | 0 <= i < |calls| && calls[i].name in handlers
        ensures calls[i] in Matching(calls, handlers)
      {
        if i > 0 {
          assert calls[i] == calls[1..][i - 1];
        }
      }
      if forall i | 0 <= i < |calls| :: calls[i].name !in handlers {
        assert forall i | 0 <= i < |calls[1..]| :: calls[1..][i].name !in handlers by {
          forall i | 0 <= i < |calls[1..]| ensures calls[1..][i].name !in handlers {
            assert calls[1..][i] == calls[i + 1];
          }
        }
      }
    }
  }

  /** `Promise.all`: the outputs in input order when every promise resolves,
      otherwise nothing. */
  function JoinAll<T>(rs: seq<Option<T>>): (r: Option<seq<T>>)
    ensures r.Some? <==> forall i | 0 <= i < |rs| :: rs[i].Some?
    ensures r.Some? ==> |r.value| == |rs| && forall i | 0 <= i < |rs| :: r.value[i] == rs[i].value
  {
    if |rs| == 0 then Some([])
    else
      match rs[0]
      case None => None
      case Some(x) =>
        match JoinAll(rs[1..])
        case None => None
        case Some(xs) => Some([x] + xs)
  }

  /** What each started handler resolves to (None: it rejects). */
  function Results(calls: seq<ToolCall>, tool: ToolCall -> Option<ToolOutput>): seq<Option<ToolOutput>> {
    seq(|calls|, i requires 0 <= i < |calls| => tool(calls[i]))
  }

  /** The tool phase of `requires_action`, after the message is deleted: start
      a handler for each matched call, then, when all resolve, submit their
      outputs. A rejection of the join is absorbed by the poller's catch. */
  function ToolPhase(requiredAction: Option<seq<ToolCall>>, handlers: set<string>,
                     tool: ToolCall -> Option<ToolOutput>,
                     threadId: JsStr, runId: JsStr, assistantId: JsStr): (t: seq<Effect>)
    ensures requiredAction.None? ==> t == []
    ensures var m := if requiredAction.Some? then Matching(requiredAction.value, handlers) else [];
      && (|t| == |m| || |t| == |m| + 1)
      && (forall i | 0 <= i < |m| :: t[i] == InvokeTool(m[i], assistantId))
      && (|t| == |m| + 1 <==> |m| > 0 && forall i | 0 <= i < |m| :: tool(m[i]).Some?)
      && (|t| == |m| + 1 ==>
            && t[|m|].Submit?
            && t[|m|].threadId == threadId && t[|m|].runId == runId
            && |t[|m|].outputs| == |m|
            && forall i | 0 <= i < |m| :: t[|m|].outputs[i] == tool(m[i]).value)
  {
    match requiredAction
    case None => []
    case Some(calls) =>
      var m := Matching(calls, handlers);
      if |m| == 0 then []
      else
        var started := seq(|m|, i requires 0 <= i < |m| => InvokeTool(m[i], assistantId));
        var rs := Results(m, tool);
        assert forall i | 0 <= i < |m| :: rs[i] == tool(m[i]);
        match JoinAll(rs)
        case None => started
        case Some(outputs) => started + [Submit(threadId, runId, outputs)]
  }
}
