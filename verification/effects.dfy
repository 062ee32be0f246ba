/** The side effects a record handler performs, in the order it performs
    them. An effect stands for a call ATTEMPTED against an outside service
    (OpenAI, SQS, DynamoDB, Redis, Telegram); whether the call succeeded is
    an input of the handler, not part of the effect. */
module Effects {
  import opened Js

  /** DynamoDB primary key of a thread record. */
  datatype Key = Key(pk: string, sk: string)

  /** A message sent to the FIFO queue. */
  datatype OutMessage = OutMessage(body: Body, attributes: map<string, string>, groupId: string)

  /** One tool call requested by a run in state `requires_action`. */
  datatype ToolCall = ToolCall(id: string, name: string, arguments: string)

  /** What a tool handler resolves to; its content is decided outside this model. */
  datatype ToolOutput = ToolOutput(toolCallId: string, output: string)

  /** Why a record handler rejects. */
  datatype Raise =
    | ThreadBlocked(threadId: JsStr)  // the explicit throw of the message-create stage
    | Rejected                        // the preceding call rejected and nothing caught it

  datatype Effect =
    | IncrCounter(counterKey: string)
    | AppendMessage(threadId: JsStr, role: string, content: JsStr)
    | CreateRun(threadId: JsStr, assistantId: JsStr)
    | RetrieveRun(threadId: JsStr, runId: JsStr)
    | Enqueue(msg: OutMessage)
    | UpsertRuns(itemKey: Key, newRunId: string, updated: int)
    | InvokeTool(call: ToolCall, assistantId: JsStr)
    | Submit(threadId: JsStr, runId: JsStr, outputs: seq<ToolOutput>)
    | Notify(token: JsStr, chatId: JsStr, text: string)
    | ChangeVisibility(receipt: string, seconds: int)
    | Delete(receipt: string)
    | Throw(reason: Raise)

  /** FIFO message group of every follow-up: `${assistant_id}-${thread_id}`. */
  function GroupId(assistantId: JsStr, threadId: JsStr): string {
    Render(assistantId) + "-" + Render(threadId)
  }

  /** The handler rejected: its trace ends in a throw. */
  predicate Raised(t: seq<Effect>) {
    |t| > 0 && t[|t| - 1].Throw?
  }

  predicate NoDelete(t: seq<Effect>) {
    forall i | 0 <= i < |t| :: !t[i].Delete?
  }

  predicate NoVisibilityChange(t: seq<Effect>) {
    forall i | 0 <= i < |t| :: !t[i].ChangeVisibility?
  }

  /** Number of effects in `t` satisfying `p`. */
  function Count(t: seq<Effect>, p: Effect -> bool): nat {
    if |t| == 0 then 0 else (if p(t[0]) then 1 else 0) + Count(t[1..], p)
  }

  lemma {:induction false} CountAppend(a: seq<Effect>, b: seq<Effect>, p: Effect -> bool)
    ensures Count(a + b, p) == Count(a, p) + Count(b, p)
  {
    if |a| > 0 {
      assert (a + b)[0] == a[0];
      assert (a + b)[1..] == a[1..] + b;
      CountAppend(a[1..], b, p);
    } else {
      assert a + b == b;
    }
  }

  lemma {:induction false} CountNone(t: seq<Effect>, p: Effect -> bool)
    requires forall i | 0 <= i < |t| :: !p(t[i])
    ensures Count(t, p) == 0
  {
    if |t| > 0 {
      assert forall i | 0 <= i < |t[1..]| :: t[1..][i] == t[i + 1];
      CountNone(t[1..], p);
    }
  }

  /** A trace with exactly one effect satisfying `p` counts one. */
  lemma CountUnique(t: seq<Effect>, k: nat, p: Effect -> bool)
    requires k < |t| && p(t[k])
    requires forall i | 0 <= i < |t| && i != k :: !p(t[i])
    ensures Count(t, p) == 1
  {
    assert t == t[..k] + [t[k]] + t[k + 1..];
    assert forall i | 0 <= i < k :: t[..k][i] == t[i];
    var rest := t[k + 1..];
    assert forall i | 0 <= i < |rest| :: rest[i] == t[k + 1 + i];
    CountNone(t[..k], p);
    CountNone(rest, p);
    CountAppend(t[..k] + [t[k]], t[k + 1..], p);
    CountAppend(t[..k], [t[k]], p);
    assert [t[k]][1..] == [];
  }

  /** Concatenation of a sequence of traces, in order. */
  function Flatten(ts: seq<seq<Effect>>): seq<Effect> {
    if |ts| == 0 then [] else ts[0] + Flatten(ts[1..])
  }
}
