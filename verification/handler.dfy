/** The Lambda entry point: for each SQS record of a batch, route on the
    `intent` attribute to run creation or run polling, or drop the record.
    Every outside call is an effect; how it turns out is part of `Outcomes`. */
module Handler {
  import opened Js
  import opened Effects
  import opened Routing
  import opened RunStatus
  import opened RunStore
  import opened Tools

  /** The part of a retrieved run the poller reads. */
  datatype RunSnapshot = RunSnapshot(status: string, requiredAction: Option<seq<ToolCall>>)

  /** How the outside calls made while handling one record turn out. */
  datatype Outcomes = Outcomes(
    createdRun: Option<string>,            // id of the new run; None: runs.create rejected
    retrieved: Option<RunSnapshot>,        // None: runs.retrieve rejected
    enqueueOk: bool,
    upsertOk: bool,
    deleteOk: bool,
    visibilityOk: bool,
    tool: ToolCall -> Option<ToolOutput>,  // what each started tool handler resolves to
    nowMs: nat)                            // Date.now()

  datatype Step = Step(trace: seq<Effect>, store: Store)

  /** Visibility timeout, in seconds, after a failed run creation. */
  const RetryCreateSeconds := 10

  /** The poll message queued after a run is created. */
  function RetrieveFollowUp(threadId: JsStr, runId: string, assistantId: JsStr, updateId: JsStr): OutMessage {
    OutMessage(
      ObjectBody([("thread_id", threadId), ("run_id", Some(runId)), ("assistant_id", assistantId), ("update_id", updateId)]),
      map["intent" := RunsRetrieveIntent],
      GroupId(assistantId, threadId))
  }

  predicate IsLeaseChange(e: Effect) {
    e.Delete? || e.ChangeVisibility?
  }

  /** A record's lease is settled at most once: deleted, extended, or left alone. */
  predicate AtMostOneLeaseChange(t: seq<Effect>) {
    forall i, j | 0 <= i < j < |t| :: !(IsLeaseChange(t[i]) && IsLeaseChange(t[j]))
  }

  /** `threads.runs.create` from Telegram: create the run, queue its poll,
      record it on the thread. Any failure extends the lease instead; a
      failure of that extension is caught and logged. */
  function CreateRunStage(rec: SqsRecord, out: Outcomes, store: Store): (s: Step)
    ensures NoDelete(s.trace) && !Raised(s.trace)
    ensures |s.trace| > 0 && s.trace[0] == CreateRun(Field(rec.body, "thread_id"), Field(rec.body, "assistant_id"))
    ensures AtMostOneLeaseChange(s.trace)
  {
    var threadId := Field(rec.body, "thread_id");
    var assistantId := Field(rec.body, "assistant_id");
    var create := CreateRun(threadId, assistantId);
    var retry := [ChangeVisibility(rec.receiptHandle, RetryCreateSeconds)];
    match out.createdRun
    case None => Step([create] + retry, store)
    case Some(runId) =>
      var enqueue := Enqueue(RetrieveFollowUp(threadId, runId, assistantId, Field(rec.body, "update_id")));
      if !out.enqueueOk then Step([create, enqueue] + retry, store)
      else
        var key := ThreadKey(assistantId, threadId);
        var updated := out.nowMs / 1000;
        var upsert := UpsertRuns(key, runId, updated);
        if !out.upsertOk then Step([create, enqueue, upsert] + retry, store)
        else Step([create, enqueue, upsert], Upsert(store, key, runId, updated))
  }

  /** `threads.runs.retrieve`: fetch the run and act on its status. Any
      rejection inside (the fetch, a delete, the tool join) is caught and logged. */
  function RetrieveRunStage(rec: SqsRecord, out: Outcomes, handlers: set<string>): (t: seq<Effect>)
    ensures |t| > 0 && t[0] == RetrieveRun(Field(rec.body, "thread_id"), Field(rec.body, "run_id"))
    ensures !Raised(t)
    ensures AtMostOneLeaseChange(t)
  {
    var threadId := Field(rec.body, "thread_id");
    var runId := Field(rec.body, "run_id");
    var get := RetrieveRun(threadId, runId);
    match out.retrieved
    case None => [get]
    case Some(run) =>
      match ActionFor(ParseStatus(run.status))
      case PollAgain(seconds) => [get, ChangeVisibility(rec.receiptHandle, seconds)]
      case Drop => [get, Delete(rec.receiptHandle)]
      case DropAndDispatch =>
        [get, Delete(rec.receiptHandle)] +
        (if out.deleteOk
         then ToolPhase(run.requiredAction, handlers, out.tool, threadId, runId, Field(rec.body, "assistant_id"))
         else [])
  }

  /** Unroutable records are deleted; this delete is not caught. */
  function DropRecord(rec: SqsRecord, out: Outcomes): seq<Effect> {
    [Delete(rec.receiptHandle)] + (if out.deleteOk then [] else [Throw(Rejected)])
  }

  /** The record asks for a run and comes from Telegram: the only route that writes the store. */
  predicate StartsRun(rec: SqsRecord) {
    IntentOf(rec) == RunsCreate && OriginOf(rec) == Some(TelegramOrigin)
  }

  /** The store record of the thread a record names. */
  function RecordKey(rec: SqsRecord): Key {
    ThreadKey(Field(rec.body, "assistant_id"), Field(rec.body, "thread_id"))
  }

  /** The store records the run creations of a batch may write. */
  function CreationKeys(records: seq<SqsRecord>): set<Key> {
    set i | 0 <= i < |records| && StartsRun(records[i]) :: RecordKey(records[i])
  }

  /** The body of the `for (const record of records)` loop. */
  function HandleRecord(rec: SqsRecord, out: Outcomes, handlers: set<string>, store: Store): (s: Step)
    ensures AtMostOneLeaseChange(s.trace)
    ensures Raised(s.trace) ==> s.trace == [Delete(rec.receiptHandle), Throw(Rejected)]
    ensures s.store != store ==> IntentOf(rec) == RunsCreate && OriginOf(rec) == Some(TelegramOrigin)
  {
    match IntentOf(rec)
    case RunsCreate =>
      if OriginOf(rec) == Some(TelegramOrigin) then CreateRunStage(rec, out, store)
      else Step(DropRecord(rec, out), store)
    case RunsRetrieve => Step(RetrieveRunStage(rec, out, handlers), store)
    case Unknown => Step(DropRecord(rec, out), store)
  }

  /** Only a Telegram run creation writes the store, only its thread's record,
      and only by appending to the run list. */
  lemma RecordAppendsOnly(rec: SqsRecord, out: Outcomes, handlers: set<string>, store: Store)
    ensures var s := HandleRecord(rec, out, handlers, store);
      && RunsGrow(store, s.store)
      && SameOutside(store, s.store, if StartsRun(rec) then {RecordKey(rec)} else {})
  {
  }

  /** A record is dropped when its intent is not recognised, or when a run
      creation does not come from Telegram. */
  predicate Dropped(rec: SqsRecord) {
    IntentOf(rec) == Unknown || (IntentOf(rec) == RunsCreate && OriginOf(rec) != Some(TelegramOrigin))
  }

  /** A dropped record is deleted and nothing else happens; only a failure of
      that delete escapes, as a rejection of the whole invocation. */
  lemma DroppedRecordIsDeleted(rec: SqsRecord, out: Outcomes, handlers: set<string>, store: Store)
    requires Dropped(rec)
    ensures var s := HandleRecord(rec, out, handlers, store);
      && s.store == store
      && s.trace[0] == Delete(rec.receiptHandle)
      && Count(s.trace, (e: Effect) => e.Delete?) == 1
      && (out.deleteOk ==> s.trace == [Delete(rec.receiptHandle)])
      && (!out.deleteOk ==> s.trace == [Delete(rec.receiptHandle), Throw(Rejected)])
  {
    var s := HandleRecord(rec, out, handlers, store);
    CountUnique(s.trace, 0, (e: Effect) => e.Delete?);
  }

  /** An absent or empty `intent` attribute, or the message-create intent, is not routed. */
  lemma UnroutableIntents(rec: SqsRecord)
    ensures "intent" !in rec.attributes ==> Dropped(rec)
    ensures "intent" in rec.attributes && rec.attributes["intent"].stringValue in {None, Some("")} ==> Dropped(rec)
    ensures "intent" in rec.attributes && rec.attributes["intent"].stringValue == Some(MessagesCreateIntent) ==> Dropped(rec)
  {
  }

  /** The run creation succeeded at every step. */
  predicate CreationSucceeded(out: Outcomes) {
    out.createdRun.Some? && out.enqueueOk && out.upsertOk
  }

  /** A successful run creation: create the run, queue one poll message for it
      in the thread's group, then append it to the thread's record. No delete. */
  lemma RunCreationSucceeds(rec: SqsRecord, out: Outcomes, handlers: set<string>, store: Store)
    requires IntentOf(rec) == RunsCreate && OriginOf(rec) == Some(TelegramOrigin)
    requires CreationSucceeded(out)
    ensures var s := HandleRecord(rec, out, handlers, store);
      var threadId := Field(rec.body, "thread_id");
      var assistantId := Field(rec.body, "assistant_id");
      var runId := out.createdRun.value;
      var key := Key("ASST#" + Render(assistantId), "THREAD#" + Render(threadId));
      && |s.trace| == 3
      && s.trace[0] == CreateRun(threadId, assistantId)
      && s.trace[1] == Enqueue(RetrieveFollowUp(threadId, runId, assistantId, Field(rec.body, "update_id")))
      && s.trace[1].msg.attributes == map["intent" := RunsRetrieveIntent]
      && s.trace[1].msg.groupId == Render(assistantId) + "-" + Render(threadId)
      && Field(s.trace[1].msg.body, "thread_id") == threadId
      && Field(s.trace[1].msg.body, "run_id") == Some(runId)
      && Field(s.trace[1].msg.body, "assistant_id") == assistantId
      && Field(s.trace[1].msg.body, "update_id") == Field(rec.body, "update_id")
      && s.trace[2] == UpsertRuns(key, runId, out.nowMs / 1000)
      && NoDelete(s.trace)
      && RunsOf(s.store, key) == RunsOf(store, key) + [runId]
      && s.store == Upsert(store, key, runId, out.nowMs / 1000)
      && s.store[key].updated == Some(out.nowMs / 1000)
      && (forall k | k in store && k != key :: k in s.store && s.store[k] == store[k])
  {
    RetrieveFollowUpFields(Field(rec.body, "thread_id"), out.createdRun.value,
                           Field(rec.body, "assistant_id"), Field(rec.body, "update_id"));
  }

  /** The poll message carries the thread, the new run, the assistant and the
      update id it was given, and no other property. */
  lemma RetrieveFollowUpFields(threadId: JsStr, runId: string, assistantId: JsStr, updateId: JsStr)
    ensures var b := RetrieveFollowUp(threadId, runId, assistantId, updateId).body;
      && Field(b, "thread_id") == threadId
      && Field(b, "run_id") == Some(runId)
      && Field(b, "assistant_id") == assistantId
      && Field(b, "update_id") == updateId
      && forall k | k !in {"thread_id", "run_id", "assistant_id", "update_id"} :: Field(b, k) == None
  {
    var fields := [("thread_id", threadId), ("run_id", Some(runId)), ("assistant_id", assistantId), ("update_id", updateId)];
    assert DistinctKeys(fields);
    ObjectBodyAt(fields, 0);
    ObjectBodyAt(fields, 1);
    ObjectBodyAt(fields, 2);
    ObjectBodyAt(fields, 3);
    forall k | k !in {"thread_id", "run_id", "assistant_id", "update_id"} ensures Field(ObjectBody(fields), k) == None {
      ObjectBodyField(fields, k);
    }
  }

  /** A failure in create, enqueue or upsert: the lease is extended by 10
      seconds, nothing is deleted, the record is not retried by a throw, the
      store is untouched, and whether the extension itself failed changes nothing. */
  lemma RunCreationFails(rec: SqsRecord, out: Outcomes, handlers: set<string>, store: Store)
    requires IntentOf(rec) == RunsCreate && OriginOf(rec) == Some(TelegramOrigin)
    requires !CreationSucceeded(out)
    ensures var s := HandleRecord(rec, out, handlers, store);
      var threadId := Field(rec.body, "thread_id");
      var assistantId := Field(rec.body, "assistant_id");
      && s.trace ==
           [CreateRun(threadId, assistantId)] +
           (if out.createdRun.Some?
            then [Enqueue(RetrieveFollowUp(threadId, out.createdRun.value, assistantId, Field(rec.body, "update_id")))]
            else []) +
           (if out.createdRun.Some? && out.enqueueOk
            then [UpsertRuns(RecordKey(rec), out.createdRun.value, out.nowMs / 1000)]
            else []) +
           [ChangeVisibility(rec.receiptHandle, 10)]
      && s.trace[|s.trace| - 1] == ChangeVisibility(rec.receiptHandle, 10)
      && Count(s.trace, (e: Effect) => e.ChangeVisibility?) == 1
      && NoDelete(s.trace)
      && !Raised(s.trace)
      && s.store == store
      && HandleRecord(rec, out.(visibilityOk := !out.visibilityOk), handlers, store) == s
  {
    var s := HandleRecord(rec, out, handlers, store);
    CountUnique(s.trace, |s.trace| - 1, (e: Effect) => e.ChangeVisibility?);
  }

  /** The poller's record, with the run it reads. */
  predicate Polled(rec: SqsRecord, out: Outcomes, run: RunSnapshot) {
    IntentOf(rec) == RunsRetrieve && out.retrieved == Some(run)
  }

  /** `queued` and `in_progress`: one lease extension of 10 seconds, no delete,
      whether or not the extension succeeds. */
  lemma PollStillWorking(rec: SqsRecord, out: Outcomes, handlers: set<string>, store: Store, run: RunSnapshot)
    requires Polled(rec, out, run)
    requires run.status in {"queued", "in_progress"}
    ensures var s := HandleRecord(rec, out, handlers, store);
      && s.trace == [RetrieveRun(Field(rec.body, "thread_id"), Field(rec.body, "run_id")),
                     ChangeVisibility(rec.receiptHandle, 10)]
      && NoDelete(s.trace)
      && s.store == store
  {
  }

  /** `cancelling`, `completed`, `failed`, `cancelled`, `expired` and any status
      the poller does not know: one delete and nothing else; a failed delete is
      caught. */
  lemma PollTerminal(rec: SqsRecord, out: Outcomes, handlers: set<string>, store: Store, run: RunSnapshot)
    requires Polled(rec, out, run)
    requires !IsKnownName(run.status) || run.status in {"cancelling", "completed", "failed", "cancelled", "expired"}
    ensures var s := HandleRecord(rec, out, handlers, store);
      && s.trace == [RetrieveRun(Field(rec.body, "thread_id"), Field(rec.body, "run_id")), Delete(rec.receiptHandle)]
      && NoVisibilityChange(s.trace)
      && s.store == store
  {
  }

  /** `requires_action`: the delete comes first after the fetch; no lease
      extension. With no required action, or when the delete fails, nothing
      follows; otherwise the tool phase follows. */
  lemma PollRequiresAction(rec: SqsRecord, out: Outcomes, handlers: set<string>, store: Store, run: RunSnapshot)
    requires Polled(rec, out, run)
    requires run.status == "requires_action"
    ensures var s := HandleRecord(rec, out, handlers, store);
      var threadId := Field(rec.body, "thread_id");
      var runId := Field(rec.body, "run_id");
      && |s.trace| >= 2
      && s.trace[0] == RetrieveRun(threadId, runId)
      && s.trace[1] == Delete(rec.receiptHandle)
      && NoVisibilityChange(s.trace)
      && (run.requiredAction.None? || !out.deleteOk ==> s.trace == [RetrieveRun(threadId, runId), Delete(rec.receiptHandle)])
      && (out.deleteOk ==> s.trace[2..] == ToolPhase(run.requiredAction, handlers, out.tool, threadId, runId, Field(rec.body, "assistant_id")))
  {
  }

  /** A failed fetch of the run: no delete and no lease extension. */
  lemma PollFetchFails(rec: SqsRecord, out: Outcomes, handlers: set<string>, store: Store)
    requires IntentOf(rec) == RunsRetrieve && out.retrieved.None?
    ensures var s := HandleRecord(rec, out, handlers, store);
      && s.trace == [RetrieveRun(Field(rec.body, "thread_id"), Field(rec.body, "run_id"))]
      && NoDelete(s.trace) && NoVisibilityChange(s.trace)
  {
  }

  /** Only the effects of handling a record depend on the outcomes, never on the store. */
  lemma TraceIgnoresStore(rec: SqsRecord, out: Outcomes, handlers: set<string>, s1: Store, s2: Store)
    ensures HandleRecord(rec, out, handlers, s1).trace == HandleRecord(rec, out, handlers, s2).trace
  {
  }

  /** The effects of one record on its own. */
  function RecordTrace(rec: SqsRecord, out: Outcomes, handlers: set<string>): seq<Effect> {
    HandleRecord(rec, out, handlers, map[]).trace
  }

  function RecordTraces(records: seq<SqsRecord>, outs: seq<Outcomes>, handlers: set<string>): seq<seq<Effect>>
    requires |outs| == |records|
  {
    seq(|records|, i requires 0 <= i < |records| => RecordTrace(records[i], outs[i], handlers))
  }

  datatype BatchRun = BatchRun(trace: seq<Effect>, store: Store, rejected: bool)

  /** The records one after another, the store threaded through; a rejection
      ends the loop and the invocation. */
  function ProcessRecords(records: seq<SqsRecord>, outs: seq<Outcomes>, handlers: set<string>, store: Store): BatchRun
    requires |outs| == |records|
    decreases |records|
  {
    if |records| == 0 then BatchRun([], store, false)
    else
      var s := HandleRecord(records[0], outs[0], handlers, store);
      if Raised(s.trace) then BatchRun(s.trace, s.store, true)
      else
        var rest := ProcessRecords(records[1..], outs[1..], handlers, s.store);
        BatchRun(s.trace + rest.trace, rest.store, rest.rejected)
  }

  /** Across the records handled, every run list only grows at its end, and
      only the records of the batch's Telegram run creations change. */
  lemma {:induction false} BatchAppendsOnly(records: seq<SqsRecord>, outs: seq<Outcomes>, handlers: set<string>, store: Store)
    requires |outs| == |records|
    decreases |records|
    ensures var b := ProcessRecords(records, outs, handlers, store);
      RunsGrow(store, b.store) && SameOutside(store, b.store, CreationKeys(records))
  {
    if |records| > 0 {
      var s := HandleRecord(records[0], outs[0], handlers, store);
      CreationKeysSplit(records);
      RecordAppendsOnly(records[0], outs[0], handlers, store);
      if !Raised(s.trace) {
        BatchAppendsOnly(records[1..], outs[1..], handlers, s.store);
      }
    }
  }

  /** The keys a batch may write: the first record's, if it starts a run, and the rest's. */
  lemma CreationKeysSplit(records: seq<SqsRecord>)
    requires |records| > 0
    ensures CreationKeys(records) ==
      (if StartsRun(records[0]) then {RecordKey(records[0])} else {}) + CreationKeys(records[1..])
  {
  }

  /** What the Lambda invocation settles with. */
  datatype Invocation = Returned(success: bool, count: nat) | Rejects

  datatype EventResult = EventResult(response: Invocation, trace: seq<Effect>, store: Store)

  /** The exported `handler`. */
  function HandleEvent(records: seq<SqsRecord>, outs: seq<Outcomes>, handlers: set<string>, store: Store): (r: EventResult)
    requires |outs| == |records|
    ensures r.response.Returned? ==> r.response == Returned(true, |records|)
    ensures RunsGrow(store, r.store)
    ensures SameOutside(store, r.store, CreationKeys(records))
  {
    BatchAppendsOnly(records, outs, handlers, store);
    var b := ProcessRecords(records, outs, handlers, store);
    EventResult(if b.rejected then Rejects else Returned(true, |records|), b.trace, b.store)
  }

  /** No record of the batch rejects. */
  predicate AllSettle(ts: seq<seq<Effect>>) {
    forall i | 0 <= i < |ts| :: !Raised(ts[i])
  }

  /** Record `k` is the first of the batch to reject. */
  predicate FirstRaise(ts: seq<seq<Effect>>, k: nat) {
    k < |ts| && Raised(ts[k]) && AllSettle(ts[..k])
  }

  /** Records are handled strictly in order: when none rejects, the batch's
      effects are the records' effects concatenated and the invocation returns
      `{success: true, count: records.length}`. */
  lemma HandleEventSettles(records: seq<SqsRecord>, outs: seq<Outcomes>, handlers: set<string>, store: Store)
    requires |outs| == |records|
    requires AllSettle(RecordTraces(records, outs, handlers))
    ensures var r := HandleEvent(records, outs, handlers, store);
      r.response == Returned(true, |records|) && r.trace == Flatten(RecordTraces(records, outs, handlers))
  {
    ProcessSettles(records, outs, handlers, store);
  }

  /** The first record that rejects ends the batch: the effects stop after its
      own, and the invocation rejects instead of returning a count. */
  lemma HandleEventStopsAtFirstRaise(records: seq<SqsRecord>, outs: seq<Outcomes>, handlers: set<string>, store: Store, k: nat)
    requires |outs| == |records|
    requires FirstRaise(RecordTraces(records, outs, handlers), k)
    ensures var r := HandleEvent(records, outs, handlers, store);
      r.response == Rejects && r.trace == Flatten(RecordTraces(records, outs, handlers)[..k + 1])
  {
    ProcessStops(records, outs, handlers, store, k);
  }

  /** Peeling off the first record: its trace is the head of the batch's traces
      whatever the store. */
  lemma RecordTracesTail(records: seq<SqsRecord>, outs: seq<Outcomes>, handlers: set<string>, store: Store)
    requires |outs| == |records| > 0
    ensures RecordTraces(records, outs, handlers)[0] == HandleRecord(records[0], outs[0], handlers, store).trace
    ensures RecordTraces(records[1..], outs[1..], handlers) == RecordTraces(records, outs, handlers)[1..]
  {
    TraceIgnoresStore(records[0], outs[0], handlers, store, map[]);
  }

  lemma {:induction false} ProcessSettles(records: seq<SqsRecord>, outs: seq<Outcomes>, handlers: set<string>, store: Store)
    requires |outs| == |records|
    requires AllSettle(RecordTraces(records, outs, handlers))
    ensures var b := ProcessRecords(records, outs, handlers, store);
      !b.rejected && b.trace == Flatten(RecordTraces(records, outs, handlers))
    decreases |records|
  {
    if |records| > 0 {
      var ts := RecordTraces(records, outs, handlers);
      var s := HandleRecord(records[0], outs[0], handlers, store);
      RecordTracesTail(records, outs, handlers, store);
      AllSettleTail(ts);
      ProcessSettles(records[1..], outs[1..], handlers, s.store);
    }
  }

  lemma {:induction false} ProcessStops(records: seq<SqsRecord>, outs: seq<Outcomes>, handlers: set<string>, store: Store, k: nat)
    requires |outs| == |records|
    requires FirstRaise(RecordTraces(records, outs, handlers), k)
    ensures var b := ProcessRecords(records, outs, handlers, store);
      b.rejected && b.trace == Flatten(RecordTraces(records, outs, handlers)[..k + 1])
    decreases |records|
  {
    var ts := RecordTraces(records, outs, handlers);
    var s := HandleRecord(records[0], outs[0], handlers, store);
    RecordTracesTail(records, outs, handlers, store);
    if k == 0 {
      assert ts[..1] == [s.trace];
      assert ts[..1][1..] == [];
    } else {
      var tail := ts[1..];
      assert !Raised(s.trace) && FirstRaise(tail, k - 1) by {
        FirstRaiseTail(ts, k);
      }
      ProcessStops(records[1..], outs[1..], handlers, s.store, k - 1);
      assert ts[..k + 1][1..] == tail[..k];
      assert ts[..k + 1][0] == s.trace;
    }
  }

  /** A batch in which no record rejects: the first record settles too, and so does the rest. */
  lemma AllSettleTail(ts: seq<seq<Effect>>)
    requires |ts| > 0 && AllSettle(ts)
    ensures !Raised(ts[0]) && AllSettle(ts[1..])
  {
    forall i | 0 <= i < |ts[1..]| ensures !Raised(ts[1..][i]) {
      assert ts[1..][i] == ts[i + 1];
    }
  }

  /** When record `k > 0` is the first to reject, the first record settles and
      the rest of the batch first rejects at `k - 1`. */
  lemma FirstRaiseTail(ts: seq<seq<Effect>>, k: nat)
    requires FirstRaise(ts, k) && k > 0
    ensures !Raised(ts[0]) && FirstRaise(ts[1..], k - 1)
  {
    assert ts[..k][0] == ts[0];
    var tail := ts[1..];
    assert tail[k - 1] == ts[k];
    var pre := tail[..k - 1];
    var pre0 := ts[..k];
    forall i | 0 <= i < |pre| ensures !Raised(pre[i]) {
      assert pre[i] == pre0[i + 1];
    }
  }

  /** The run id one record adds to the list under `key`: the new run of a
      Telegram run creation that went through, when `key` is its thread's record. */
  function RecordNewRuns(rec: SqsRecord, out: Outcomes, key: Key): seq<string> {
    if StartsRun(rec) && CreationSucceeded(out) && RecordKey(rec) == key then [out.createdRun.value] else []
  }

  /** The run ids a sequence of records adds to the list under `key`, in record order. */
  function NewRuns(records: seq<SqsRecord>, outs: seq<Outcomes>, key: Key): seq<string>
    requires |outs| == |records|
    decreases |records|
  {
    if |records| == 0 then []
    else RecordNewRuns(records[0], outs[0], key) + NewRuns(records[1..], outs[1..], key)
  }

  /** One record appends exactly its own new run, if any, to each run list. */
  lemma RecordRuns(rec: SqsRecord, out: Outcomes, handlers: set<string>, store: Store, key: Key)
    ensures RunsOf(HandleRecord(rec, out, handlers, store).store, key) == RunsOf(store, key) + RecordNewRuns(rec, out, key)
  {
    if StartsRun(rec) {
      if CreationSucceeded(out) {
        RunCreationSucceeds(rec, out, handlers, store);
        RecordAppendsOnly(rec, out, handlers, store);
      } else {
        RunCreationFails(rec, out, handlers, store);
      }
    }
  }

  /** The loop after the first record: a record that settles hands the store on to the rest. */
  lemma ProcessStep(records: seq<SqsRecord>, outs: seq<Outcomes>, handlers: set<string>, store: Store)
    requires |outs| == |records| > 0
    ensures var s := HandleRecord(records[0], outs[0], handlers, store);
      var b := ProcessRecords(records, outs, handlers, store);
      && (Raised(s.trace) ==> b.store == s.store)
      && (!Raised(s.trace) ==> b.store == ProcessRecords(records[1..], outs[1..], handlers, s.store).store)
  {
  }

  /** Runs added by a first record and then by the rest, after the ones already there. */
  lemma RunsThen(before: seq<string>, first: seq<string>, rest: seq<string>, all: seq<string>, after: seq<string>)
    requires all == first + rest
    requires after == before + first + rest
    ensures after == before + all
  {
  }

  lemma {:induction false} SettledRuns(records: seq<SqsRecord>, outs: seq<Outcomes>, handlers: set<string>, store: Store, key: Key)
    requires |outs| == |records|
    requires AllSettle(RecordTraces(records, outs, handlers))
    ensures RunsOf(ProcessRecords(records, outs, handlers, store).store, key) == RunsOf(store, key) + NewRuns(records, outs, key)
    decreases |records|
  {
    if |records| > 0 {
      var s := HandleRecord(records[0], outs[0], handlers, store);
      var ts := RecordTraces(records, outs, handlers);
      assert !Raised(s.trace) && AllSettle(RecordTraces(records[1..], outs[1..], handlers)) by {
        RecordTracesTail(records, outs, handlers, store);
        AllSettleTail(ts);
      }
      ProcessStep(records, outs, handlers, store);
      RecordRuns(records[0], outs[0], handlers, store, key);
      SettledRuns(records[1..], outs[1..], handlers, s.store, key);
      RunsThen(RunsOf(store, key), RecordNewRuns(records[0], outs[0], key), NewRuns(records[1..], outs[1..], key),
               NewRuns(records, outs, key), RunsOf(ProcessRecords(records, outs, handlers, store).store, key));
    }
  }

  lemma {:induction false} StoppedRuns(records: seq<SqsRecord>, outs: seq<Outcomes>, handlers: set<string>, store: Store, key: Key, k: nat)
    requires |outs| == |records|
    requires FirstRaise(RecordTraces(records, outs, handlers), k)
    ensures RunsOf(ProcessRecords(records, outs, handlers, store).store, key) ==
      RunsOf(store, key) + NewRuns(records[..k + 1], outs[..k + 1], key)
    decreases |records|
  {
    var ts := RecordTraces(records, outs, handlers);
    var s := HandleRecord(records[0], outs[0], handlers, store);
    var pre, preOuts := records[..k + 1], outs[..k + 1];
    assert pre[0] == records[0] && preOuts[0] == outs[0];
    ProcessStep(records, outs, handlers, store);
    RecordRuns(records[0], outs[0], handlers, store, key);
    if k == 0 {
      assert Raised(s.trace) by {
        RecordTracesTail(records, outs, handlers, store);
      }
      assert !StartsRun(records[0]) by {
        assert s.trace[0] == Delete(records[0].receiptHandle);
      }
      assert NewRuns(pre, preOuts, key) == [] by {
        assert pre[1..] == [];
      }
    } else {
      assert !Raised(s.trace) && FirstRaise(RecordTraces(records[1..], outs[1..], handlers), k - 1) by {
        RecordTracesTail(records, outs, handlers, store);
        FirstRaiseTail(ts, k);
      }
      StoppedRuns(records[1..], outs[1..], handlers, s.store, key, k - 1);
      assert pre[1..] == records[1..][..k] && preOuts[1..] == outs[1..][..k];
      RunsThen(RunsOf(store, key), RecordNewRuns(records[0], outs[0], key), NewRuns(pre[1..], preOuts[1..], key),
               NewRuns(pre, preOuts, key), RunsOf(ProcessRecords(records, outs, handlers, store).store, key));
    }
  }

  /** When no record rejects, every run the batch creates reaches the table,
      on its own thread's record, in record order, after the runs already there. */
  lemma {:induction false} HandleEventRecordsRuns(records: seq<SqsRecord>, outs: seq<Outcomes>, handlers: set<string>, store: Store, key: Key)
    requires |outs| == |records|
    requires AllSettle(RecordTraces(records, outs, handlers))
    ensures RunsOf(HandleEvent(records, outs, handlers, store).store, key) == RunsOf(store, key) + NewRuns(records, outs, key)
  {
    SettledRuns(records, outs, handlers, store, key);
  }

  /** When record `k` is the first to reject, the runs created by the records
      up to it are on the table, and none after it. */
  lemma {:induction false} RejectedBatchRecordsRuns(records: seq<SqsRecord>, outs: seq<Outcomes>, handlers: set<string>, store: Store, key: Key, k: nat)
    requires |outs| == |records|
    requires FirstRaise(RecordTraces(records, outs, handlers), k)
    ensures RunsOf(HandleEvent(records, outs, handlers, store).store, key) ==
      RunsOf(store, key) + NewRuns(records[..k + 1], outs[..k + 1], key)
  {
    StoppedRuns(records, outs, handlers, store, key, k);
  }
}
