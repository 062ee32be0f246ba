/** The `threads.messages.create` stage: count the delivery, append the
    user's message to the thread, queue the run creation; when the thread is
    busy, tell the user once and push the message back with a backoff. */
module MessagesCreate {
  import opened Js
  import opened Effects
  import opened Routing
  import opened RetryCounter

  /** How the outside calls of one invocation turn out. */
  datatype MessageOutcomes = MessageOutcomes(
    incrOk: bool,        // the Redis call itself goes through
    appendOk: bool,      // threads.messages.create
    enqueueOk: bool,     // the follow-up SendMessage
    notifyOk: bool,      // the Telegram sendMessage fetch
    visibilityOk: bool)  // ChangeMessageVisibility

  datatype MessageStep = MessageStep(trace: seq<Effect>, counters: Counters)

  const BusyText := "Wait for a second!"
  const UserRole := "user"

  /** The run-creation message queued once the user's message is on the thread. */
  function RunsCreateRequest(body: Body, from: string): OutMessage {
    var threadId := Field(body, "thread_id");
    var assistantId := Field(body, "assistant_id");
    OutMessage(
      ObjectBody([("thread_id", threadId), ("assistant_id", assistantId), ("token", Field(body, "token")),
                  ("chat_id", Field(body, "chat_id")), ("intent", Some(RunsCreateIntent))]),
      map["intent" := RunsCreateIntent, "from" := from],
      GroupId(assistantId, threadId))
  }

  /** The catch block: a busy notice on the first attempt only (its failure is
      swallowed), the backoff lease extension, then the throw. */
  function BusyPath(rec: SqsRecord, out: MessageOutcomes, retryTimes: int, backOff: int -> int): seq<Effect> {
    (if retryTimes == 1 then [Notify(Field(rec.body, "token"), Field(rec.body, "chat_id"), BusyText)] else []) +
    [ChangeVisibility(rec.receiptHandle, backOff(retryTimes - 1)),
     Throw(if out.visibilityOk then ThreadBlocked(Field(rec.body, "thread_id")) else Rejected)]
  }

  /** Everything after the counter, given the value it returned. */
  function AfterCount(rec: SqsRecord, out: MessageOutcomes, retryTimes: int, backOff: int -> int): (t: seq<Effect>)
    ensures forall i | 0 <= i < |t| :: !t[i].IncrCounter? && !t[i].Delete?
  {
    match OriginOf(rec)
    case Some(from) =>
      if from != TelegramOrigin then []
      else
        var append := AppendMessage(Field(rec.body, "thread_id"), UserRole, Field(rec.body, "message"));
        var enqueue := Enqueue(RunsCreateRequest(rec.body, from));
        if !out.appendOk then [append] + BusyPath(rec, out, retryTimes, backOff)
        else if !out.enqueueOk then [append, enqueue] + BusyPath(rec, out, retryTimes, backOff)
        else [append, enqueue]
    case None => []
  }

  /** `Threads_messages_create(record)`. `backOff` is `backOffSecond`, whose
      definition is not part of this model. */
  function ThreadsMessagesCreate(rec: SqsRecord, out: MessageOutcomes, counters: Counters, backOff: int -> int): (s: MessageStep)
    ensures |s.trace| > 0 && s.trace[0] == IncrCounter(rec.messageId)
    ensures Count(s.trace, (e: Effect) => e.IncrCounter?) == 1
    ensures NoDelete(s.trace)
  {
    var incr := IncrCounter(rec.messageId);
    var s := match Incr(counters, rec.messageId)
      case IncrFailed => MessageStep([incr, Throw(Rejected)], counters)
      case Incremented(retryTimes, counters1) =>
        if !out.incrOk then MessageStep([incr, Throw(Rejected)], counters)
        else MessageStep([incr] + AfterCount(rec, out, retryTimes, backOff), counters1);
    CountUnique(s.trace, 0, (e: Effect) => e.IncrCounter?);
    s
  }

  /** The count the invocation read, when the counter call went through. */
  function RetryTimes(rec: SqsRecord, out: MessageOutcomes, counters: Counters): Option<int> {
    match Incr(counters, rec.messageId)
    case IncrFailed => None
    case Incremented(v, _) => if out.incrOk then Some(v) else None
  }

  /** A failed counter call is not caught: the invocation rejects right after
      it, before the origin is read, and no counter changes. */
  lemma CounterFails(rec: SqsRecord, out: MessageOutcomes, counters: Counters, backOff: int -> int)
    requires RetryTimes(rec, out, counters).None?
    ensures ThreadsMessagesCreate(rec, out, counters, backOff) ==
      MessageStep([IncrCounter(rec.messageId), Throw(Rejected)], counters)
  {
  }

  /** The counter is bumped once per invocation, before the origin is looked
      at: a fresh message reads 1, and the stored count is one more than before,
      whatever the origin. */
  lemma CounterBumpedOnce(rec: SqsRecord, out: MessageOutcomes, counters: Counters, backOff: int -> int)
    requires RetryTimes(rec, out, counters).Some?
    ensures var s := ThreadsMessagesCreate(rec, out, counters, backOff);
      && RetryTimes(rec, out, counters).value == Current(counters, rec.messageId) + 1
      && Current(s.counters, rec.messageId) == Current(counters, rec.messageId) + 1
      && (rec.messageId !in counters ==> RetryTimes(rec, out, counters) == Some(1))
      && s.counters == counters[rec.messageId := Current(counters, rec.messageId) + 1]
  {
  }

  /** A record that is not from Telegram does nothing beyond the count: no
      append, no enqueue, no lease change, no delete, no throw. */
  lemma NotFromTelegram(rec: SqsRecord, out: MessageOutcomes, counters: Counters, backOff: int -> int)
    requires OriginOf(rec) != Some(TelegramOrigin)
    requires RetryTimes(rec, out, counters).Some?
    ensures ThreadsMessagesCreate(rec, out, counters, backOff).trace == [IncrCounter(rec.messageId)]
  {
  }

  /** The append and the enqueue went through. */
  predicate Delivered(out: MessageOutcomes) {
    out.appendOk && out.enqueueOk
  }

  /** Success: the user's message is appended to the thread, then exactly one
      run-creation request is queued in the thread's group carrying the ids,
      token and chat id, and nothing else happens. */
  lemma MessageDelivered(rec: SqsRecord, out: MessageOutcomes, counters: Counters, backOff: int -> int)
    requires OriginOf(rec) == Some(TelegramOrigin)
    requires RetryTimes(rec, out, counters).Some?
    requires Delivered(out)
    ensures var t := ThreadsMessagesCreate(rec, out, counters, backOff).trace;
      var threadId := Field(rec.body, "thread_id");
      var assistantId := Field(rec.body, "assistant_id");
      && |t| == 3
      && t[1] == AppendMessage(threadId, "user", Field(rec.body, "message"))
      && t[2] == Enqueue(RunsCreateRequest(rec.body, TelegramOrigin))
      && t[2].msg.attributes == map["intent" := RunsCreateIntent, "from" := TelegramOrigin]
      && t[2].msg.groupId == Render(assistantId) + "-" + Render(threadId)
      && Field(t[2].msg.body, "thread_id") == threadId
      && Field(t[2].msg.body, "assistant_id") == assistantId
      && Field(t[2].msg.body, "token") == Field(rec.body, "token")
      && Field(t[2].msg.body, "chat_id") == Field(rec.body, "chat_id")
      && Field(t[2].msg.body, "intent") == Some(RunsCreateIntent)
      && Field(t[2].msg.body, "update_id") == None
      && !Raised(t)
  {
    RunsCreateRequestFields(rec.body, TelegramOrigin);
  }

  /** The run-creation request carries the thread, the assistant, the bot token,
      the chat and the intent name, and no other property. */
  lemma RunsCreateRequestFields(body: Body, from: string)
    ensures var b := RunsCreateRequest(body, from).body;
      && Field(b, "thread_id") == Field(body, "thread_id")
      && Field(b, "assistant_id") == Field(body, "assistant_id")
      && Field(b, "token") == Field(body, "token")
      && Field(b, "chat_id") == Field(body, "chat_id")
      && Field(b, "intent") == Some(RunsCreateIntent)
      && forall k | k !in {"thread_id", "assistant_id", "token", "chat_id", "intent"} :: Field(b, k) == None
  {
    var fields := [("thread_id", Field(body, "thread_id")), ("assistant_id", Field(body, "assistant_id")),
                   ("token", Field(body, "token")), ("chat_id", Field(body, "chat_id")),
                   ("intent", Some(RunsCreateIntent))];
    assert DistinctKeys(fields);
    ObjectBodyAt(fields, 0);
    ObjectBodyAt(fields, 1);
    ObjectBodyAt(fields, 2);
    ObjectBodyAt(fields, 3);
    ObjectBodyAt(fields, 4);
    forall k | k !in {"thread_id", "assistant_id", "token", "chat_id", "intent"} ensures Field(ObjectBody(fields), k) == None {
      ObjectBodyField(fields, k);
    }
  }

  /** The calls attempted before the catch block runs: the append, and the
      enqueue when the append went through. */
  function Attempted(rec: SqsRecord, out: MessageOutcomes): seq<Effect> {
    [AppendMessage(Field(rec.body, "thread_id"), UserRole, Field(rec.body, "message"))] +
    (if out.appendOk then [Enqueue(RunsCreateRequest(rec.body, TelegramOrigin))] else [])
  }

  lemma BusyTrace(rec: SqsRecord, out: MessageOutcomes, counters: Counters, backOff: int -> int)
    requires OriginOf(rec) == Some(TelegramOrigin)
    requires RetryTimes(rec, out, counters).Some?
    requires !Delivered(out)
    ensures ThreadsMessagesCreate(rec, out, counters, backOff).trace ==
      [IncrCounter(rec.messageId)] + Attempted(rec, out) + BusyPath(rec, out, RetryTimes(rec, out, counters).value, backOff)
  {
  }

  /** The catch block notifies once exactly on the first attempt, extends the
      lease by the backoff of the previous count, and ends in a throw. */
  lemma BusyPathShape(rec: SqsRecord, out: MessageOutcomes, n: int, backOff: int -> int)
    ensures var f := BusyPath(rec, out, n, backOff);
      && |f| == (if n == 1 then 3 else 2)
      && Count(f, (e: Effect) => e.Notify?) == (if n == 1 then 1 else 0)
      && (n == 1 ==> f[0] == Notify(Field(rec.body, "token"), Field(rec.body, "chat_id"), "Wait for a second!"))
      && f[|f| - 2] == ChangeVisibility(rec.receiptHandle, backOff(n - 1))
      && f[|f| - 1].Throw?
      && (out.visibilityOk ==> f[|f| - 1] == Throw(ThreadBlocked(Field(rec.body, "thread_id"))))
      && NoDelete(f)
  {
    var f := BusyPath(rec, out, n, backOff);
    var p := (e: Effect) => e.Notify?;
    if n == 1 {
      CountUnique(f, 0, p);
    } else {
      CountNone(f, p);
    }
  }

  /** A failed append and a failed enqueue end the same way: after the counter
      bump and the attempted calls comes the catch block, with at most one busy
      notice, exactly when the count is 1; then the lease is extended by
      `backOff(count - 1)`; then the invocation throws. Nothing is deleted, and
      whether the notice got through changes nothing. */
  lemma ThreadBusy(rec: SqsRecord, out: MessageOutcomes, counters: Counters, backOff: int -> int)
    requires OriginOf(rec) == Some(TelegramOrigin)
    requires RetryTimes(rec, out, counters).Some?
    requires !Delivered(out)
    ensures var t := ThreadsMessagesCreate(rec, out, counters, backOff).trace;
      var n := RetryTimes(rec, out, counters).value;
      var f := BusyPath(rec, out, n, backOff);
      && t == [IncrCounter(rec.messageId)] + Attempted(rec, out) + f
      && |f| == (if n == 1 then 3 else 2)
      && t[1] == AppendMessage(Field(rec.body, "thread_id"), "user", Field(rec.body, "message"))
      && (out.appendOk <==> |t| == |f| + 3)
      && Count(t, (e: Effect) => e.Notify?) == (if n == 1 then 1 else 0)
      && (n == 1 ==> f[0] == Notify(Field(rec.body, "token"), Field(rec.body, "chat_id"), "Wait for a second!"))
      && f[|f| - 2] == ChangeVisibility(rec.receiptHandle, backOff(n - 1))
      && Raised(t)
      && (out.visibilityOk ==> t[|t| - 1] == Throw(ThreadBlocked(Field(rec.body, "thread_id"))))
      && NoDelete(t)
      && ThreadsMessagesCreate(rec, out.(notifyOk := !out.notifyOk), counters, backOff).trace == t
  {
    var t := ThreadsMessagesCreate(rec, out, counters, backOff).trace;
    var n := RetryTimes(rec, out, counters).value;
    var f := BusyPath(rec, out, n, backOff);
    var head := [IncrCounter(rec.messageId)] + Attempted(rec, out);
    BusyTrace(rec, out, counters, backOff);
    BusyTrace(rec, out.(notifyOk := !out.notifyOk), counters, backOff);
    BusyPathShape(rec, out, n, backOff);
    assert t == head + f;
    assert t[1] == head[1];
    var p := (e: Effect) => e.Notify?;
    CountNone(head, p);
    CountAppend(head, f, p);
  }

  /** The invocation throws exactly when the thread was busy or a call that is
      not caught failed; it never deletes its message on any path. */
  lemma ThrowsIffNotDelivered(rec: SqsRecord, out: MessageOutcomes, counters: Counters, backOff: int -> int)
    ensures var t := ThreadsMessagesCreate(rec, out, counters, backOff).trace;
      && NoDelete(t)
      && (Raised(t) <==> RetryTimes(rec, out, counters).None? || (OriginOf(rec) == Some(TelegramOrigin) && !Delivered(out)))
  {
  }
}
