# SQS-driven assistant-run orchestrator — Dafny model

This project models the per-record decision logic of an AWS Lambda that drives
OpenAI assistant runs from a FIFO SQS queue. Each record carries an `intent`
attribute (and usually a `from` attribute naming the channel, `telegram`) and
a JSON body. Handling a record means calling outside services (OpenAI, SQS,
DynamoDB, Redis, the Telegram Bot API). The model turns every such call into
an `Effect`. The effects a record produces, in order, are its trace. Whether
each call succeeds is an input: `Handler.Outcomes` for the batch handler and
`MessagesCreate.MessageOutcomes` for the message-create stage. Each handler is
then a pure function from (record, outcomes, store) to (trace, new store).

The model has three parts:

- **Intent router and batch loop** (`handler.dfy`, `routing.dfy`). It covers
  `threads.runs.create` with its `from === "telegram"` check,
  `threads.runs.retrieve`, and the delete arm for everything else. A record
  whose intent is `threads.messages.create` therefore falls into the delete
  arm. Records are handled one after another. An uncaught rejection ends the
  invocation; otherwise it returns `{success: true, count}`.
- **Run poller and tool fan-out/fan-in** (`run_status.dfy`, `tools.dfy`,
  `run_store.dfy`). It covers the total map from run status to lease action,
  filtering tool calls through the handler table, the all-or-nothing join of
  `Promise.all`, and the DynamoDB upsert that appends a run id to the thread's
  `runs` list.
- **Message-create stage** (`messages_create.dfy`, `retry_counter.dfy`). It
  covers the Redis `INCR` retry counter, where a missing key counts as 0. Then
  either the message is appended to the thread and a run-creation request is
  queued, or the busy path runs: a Telegram notice on the first attempt only,
  a lease extension by `backOffSecond(retryTimes - 1)`, and a throw.

`lifecycle.dfy` chains the stages. The message one stage enqueues is
delivered back as a record. It is then routed to the next stage for the same
thread, in the same FIFO group.

Modelling choices:

- A body is a parsed JSON object, `map<string, string>`. A missing property
  reads as `undefined` (`Js.Field` returns `None`).
- Template literals render `undefined` as the word itself (`Js.Render`).
- `JSON.stringify` drops `undefined` properties (`Js.ObjectBody`).
- A rejection that nothing catches ends a trace with `Throw(Rejected)`. This
  covers the delete in the drop arms, and the Redis call and the visibility
  change in the message-create stage. The explicit throw of the
  message-create stage is `Throw(ThreadBlocked(thread_id))`.

Behaviour of the code worth noting:

- The router has no branch for `threads.messages.create`. Such records are
  deleted.
- The retry counter is bumped on every invocation of the message-create
  stage, before the origin check, not only when the append fails.
- The message-create stage queues `{thread_id, assistant_id, token, chat_id,
  intent}` and no `update_id`. So the poll message queued by the next run
  creation has no `update_id` either (`Lifecycle.AppendedMessageStartsRun`).
- The call that submits tool outputs is not awaited. Its rejection never
  reaches the surrounding `catch`: the catch's log line never runs, and the
  rejection is unhandled.
- `backOffSecond` is a parameter. Nothing is assumed about it, not even
  monotonicity.

## Model

| member | source | states |
|---|---|---|
| Js.ObjectBodyField | src/handler.ts:47-52 | reading a property back from a serialised object literal gives the value written; a property not written, or written as `undefined`, reads as `undefined` |
| Routing.AttrString | src/handler.ts:32-33 | a missing attribute, a missing string value and the empty string all normalise to `undefined`; any other string value is returned unchanged |
| Routing.ParseIntent | src/handler.ts:36-97 | the router takes the run-creation branch exactly for `threads.runs.create` and the poll branch exactly for `threads.runs.retrieve` |
| Routing.IntentNameRoundTrip | src/handler.ts:36-97 | each recognised intent's name parses back to it; `threads.messages.create` and an absent value are not recognised |
| Routing.DeliveredAttribute | src/handler.ts:53-58 | a non-empty string attribute set on a queued message reads back unchanged from the delivered record; an unset one reads as `undefined` |
| RunStatus.ParseStatus | src/handler.ts:105-157 | every string maps to a status; it maps to "unrecognised" exactly when it is none of the eight named statuses |
| RunStatus.StatusRoundTrip | src/handler.ts:105-157 | parsing a status and printing it gives back the same string, and printing and re-parsing a valid status gives it back |
| RunStatus.ActionFor | src/handler.ts:105-163 | the action is a poll-again with 10 seconds iff the run is queued or in progress, delete-and-dispatch iff it requires action, and delete iff it is terminal or unknown |
| RunStatus.StatusClassesPartition | src/handler.ts:105-163 | still-working, requires-action and terminal statuses are exhaustive and pairwise disjoint |
| RunStore.Upsert | src/handler.ts:61-78 | the key's run list becomes the old list, or the empty list if absent, with the run id at the tail; `updated` is set; other attributes and every other record are untouched |
| RunStore.UpsertAllAppends | src/handler.ts:61-78 | after any sequence of run creations the list is the old list followed by the new ids in order, and every other record is untouched |
| RunStore.ThreadKeyInjective | src/handler.ts:63-66 | two threads share a record iff they render to the same assistant id and thread id |
| RetryCounter.Incr | src/intent/threads_messages_create/index.ts:11 | `INCR` returns one more than the stored value (0 if missing), stores it, leaves other keys alone, and fails only past the 64-bit maximum |
| RetryCounter.FreshKeyCountsOne | src/intent/threads_messages_create/index.ts:11 | the first increment of a fresh key returns 1 |
| RetryCounter.IncrStrictlyIncreases | src/intent/threads_messages_create/index.ts:11 | each later increment of the same key returns a strictly larger value |
| RetryCounter.IncrTimesCounts | src/intent/threads_messages_create/index.ts:11 | from a fresh key, n increments return n, so no increment is lost or doubled |
| Tools.Matching | src/handler.ts:128-138 | the matched calls are input calls whose function name has a handler, and there are no more of them than inputs |
| Tools.MatchingAppend | src/handler.ts:128-138 | filtering distributes over concatenation, so the matched calls keep input order |
| Tools.MatchingComplete | src/handler.ts:128-142 | no call with a handler is skipped, and nothing matches iff no call has a handler |
| Tools.JoinAll | src/handler.ts:143 | the join yields outputs iff every handler resolves, and the outputs then match the inputs one-to-one in count and order |
| Tools.ToolPhase | src/handler.ts:122-150 | one invocation per matched call, in input order; a submission follows iff at least one call matched and all resolved; it carries the thread, the run and the outputs in call order |
| Handler.CreateRunStage | src/handler.ts:38-89 | run creation starts with the create call, never deletes the record, never rejects, and changes the lease at most once |
| Handler.RetrieveRunStage | src/handler.ts:97-166 | polling starts with the fetch of the body's thread and run, never rejects, and changes the lease at most once |
| Handler.HandleRecord | src/handler.ts:30-173 | a record's lease is changed at most once; the only escaping rejection is a failed delete of a dropped record; only a Telegram run creation changes the store |
| Handler.RecordAppendsOnly | src/handler.ts:30-89 | one record changes at most the record of its own thread, and only when it is a Telegram run creation; every run list keeps its old contents as a prefix |
| Handler.DroppedRecordIsDeleted | src/handler.ts:90-96 | a non-Telegram run creation (this arm) or an unknown intent (the final else arm, src/handler.ts:167-173) produces exactly one delete and nothing else, plus a rejection if that delete fails |
| Handler.UnroutableIntents | src/handler.ts:32-36 | an absent or empty `intent` attribute, or the message-create intent, leads to the drop arm |
| Handler.RunCreationSucceeds | src/handler.ts:40-78 | success means create the run, then queue one poll message in group `assistant-thread` with the thread, run, assistant and update ids, then upsert the record keyed `ASST#`/`THREAD#` (the store becomes exactly that upsert, so the item's other attributes are kept); the poll message is exactly the follow-up body, so it has no other property; no delete |
| Handler.RetrieveFollowUpFields | src/handler.ts:45-60 | the poll message body holds exactly the thread id, run id, assistant id and update id |
| Handler.RunCreationFails | src/handler.ts:39-89 | the calls stop at the first failure: a failed create queues nothing, a failed enqueue writes no run id; the calls made are followed by one 10-second lease extension; there is no delete and no rejection; the store is unchanged; the outcome of the extension changes nothing |
| Handler.PollStillWorking | src/handler.ts:106-116 | a queued or in-progress run gives exactly one 10-second lease extension and no delete |
| Handler.PollTerminal | src/handler.ts:152-162 | a terminal or unknown status gives exactly one delete and no lease extension |
| Handler.PollRequiresAction | src/handler.ts:117-125 | for `requires_action` the delete is the first effect after the fetch; with no required action, or a failed delete, nothing follows; otherwise the tool phase follows |
| Handler.PollFetchFails | src/handler.ts:164-166 | a failed fetch of the run gives no delete and no lease extension |
| Handler.HandleEventSettles | src/handler.ts:30-181 | when no record rejects, the batch's effects are the records' effects concatenated in order, and the invocation returns success with count equal to the number of records |
| Handler.BatchAppendsOnly | src/handler.ts:30-176 | across the records handled, every stored run list keeps its old contents as a prefix, and no record changes except those of the batch's Telegram run creations |
| Handler.HandleEvent | src/handler.ts:28-182 | a returned response is always `success: true` with the batch's record count; across the batch every run list only grows at its end, and only the thread records of Telegram run creations change |
| Handler.RecordRuns | src/handler.ts:39-78 | one record appends to the list under a key exactly the run it created, when it is a Telegram run creation that went through and the key is its thread's; every other list is unchanged |
| Handler.SettledRuns | src/handler.ts:30-176 | when no record rejects, each run list becomes the old list followed by the runs the batch created on that thread, in record order |
| Handler.StoppedRuns | src/handler.ts:30-176 | when record k is the first to reject, each run list becomes the old list followed by the runs created by records 0 to k, in order |
| Handler.HandleEventRecordsRuns | src/handler.ts:28-182 | when no record rejects, the invocation's store holds every run the batch created, on its own thread's record, in record order, after the runs already there |
| Handler.RejectedBatchRecordsRuns | src/handler.ts:28-182 | when record k is the first to reject, the invocation's store holds exactly the runs created by records 0 to k appended, in order |
| Handler.HandleEventStopsAtFirstRaise | src/handler.ts:30-176 | the first record that rejects ends the batch after its own effects, and the invocation rejects |
| MessagesCreate.ThreadsMessagesCreate | src/intent/threads_messages_create/index.ts:8-79 | every invocation starts with exactly one counter increment and never deletes its record |
| MessagesCreate.CounterFails | src/intent/threads_messages_create/index.ts:8-11 | a failed counter call is not caught: the stage's effects are the increment and a rejection, and no counter changes |
| MessagesCreate.CounterBumpedOnce | src/intent/threads_messages_create/index.ts:11-14 | the count read is one more than the stored value, 1 for a fresh message, whatever the origin; the counters change at that one key only, and no key is created besides it |
| MessagesCreate.NotFromTelegram | src/intent/threads_messages_create/index.ts:76-78 | a record not from Telegram does nothing beyond the increment: no append, enqueue, lease change, delete or throw |
| MessagesCreate.MessageDelivered | src/intent/threads_messages_create/index.ts:19-49 | on success the user's message is appended with role `user`, then exactly one run-creation request is queued with attributes intent and from, the thread's group, and the body's ids, token and chat id, and it is exactly the run-creation request, so its body has no other property; no throw |
| MessagesCreate.RunsCreateRequestFields | src/intent/threads_messages_create/index.ts:27-48 | the run-creation request body holds exactly thread id, assistant id, token, chat id and the intent name |
| MessagesCreate.BusyPathShape | src/intent/threads_messages_create/index.ts:52-74 | the catch block notifies exactly once iff the count is 1, then extends the lease by `backOff(count - 1)`, then throws, and does nothing else (three effects on the first attempt, two after); no delete |
| MessagesCreate.ThreadBusy | src/intent/threads_messages_create/index.ts:17-74 | a failed append and a failed enqueue give the counter bump, the calls attempted, then the same catch-block effects and nothing more; one notice iff the count is 1; the backoff extension; a throw; no delete; the notice's outcome changes nothing |
| MessagesCreate.ThrowsIffNotDelivered | src/intent/threads_messages_create/index.ts:11-78 | the stage throws iff the counter call fails or a Telegram message could not be appended and queued; it never deletes |
| Lifecycle.AppendedMessageStartsRun | src/intent/threads_messages_create/index.ts:27-48 | the queued request is routed as a Telegram run creation of the same thread and assistant, in the same group; the poll message that follows has no update id |
| Lifecycle.CreatedRunIsPolled | src/handler.ts:45-60 | the queued poll message is routed to the poller, in the same group, and fetches exactly the run just created |

## Left out

- Client construction and region/environment configuration (src/handler.ts:9-26) are left out. The queue URL and table name are constants of the calls and are not carried in the effects.
- The constant `additional_instructions` and `tools` arguments of the run-creation call are not carried in `CreateRun`.
- The random pause between records (src/handler.ts:35, 175) is left out: it depends on `Math.random` and timers.
- `Promise.all` is modelled as a sequence of started handlers with an all-or-nothing join. Real interleaving is not modelled, and neither is which rejection wins.
- Every tool handler is assumed asynchronous. A handler that throws synchronously would abort the loop at src/handler.ts:128-138; this is not modelled.
- `submitToolOutputs` (src/handler.ts:145) appears as a `Submit` effect whose outcome is never observed. The fate of its unhandled rejection in the Lambda runtime is not modelled.
- `backOffSecond` is a parameter `int -> int`, and `functionHandlerMap` is the set of names it holds. Both live in files that are not part of this model. A handler is assumed to exist only for the map's own names, not for properties inherited from `Object.prototype`.
- What each tool handler resolves to is an input function of the call (`Outcomes.tool`). Tool bodies are not part of this model.
- JSON parsing is not modelled: bodies are already-parsed string maps. A body that fails to parse would throw outside the `try` blocks; this is not modelled.
- Numeric JSON values such as `chat_id` and `update_id` are carried as text.
- Logging is not modelled.
- SQS FIFO ordering, mutual exclusion within a group, at-least-once delivery and Lambda's deletion of a batch after a successful return are external guarantees. They are not modelled.
- The caller of `Threads_messages_create` is not part of this model. The stage is modelled on its own.
- RetryCounter.Incr: the counter store holds integers only. Redis's error on a non-integer value is not modelled. Neither is a lost reply after the increment was applied, nor the loss of precision of JavaScript numbers above 2^53.
