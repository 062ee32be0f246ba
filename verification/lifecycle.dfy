/** How the stages chain through the queue: the message one stage enqueues,
    delivered back as a record, is routed to the next stage of the same
    thread, within the same FIFO group. */
module Lifecycle {
  import opened Js
  import opened Effects
  import opened Routing
  import opened RunStore
  import opened Handler
  import opened MessagesCreate
  import opened RetryCounter

  /** After a message is appended, the queued request reaches the router as a
      Telegram run creation for the same thread and assistant, in the same
      group; the poll message that run creation queues then has no update id,
      because the request never carried one. */
  lemma AppendedMessageStartsRun(rec: SqsRecord, out: MessageOutcomes, counters: Counters, backOff: int -> int,
                                 messageId: string, receipt: string, out2: Outcomes, handlers: set<string>, store: Store)
    requires OriginOf(rec) == Some(TelegramOrigin)
    requires RetryTimes(rec, out, counters).Some?
    requires Delivered(out)
    ensures var t := ThreadsMessagesCreate(rec, out, counters, backOff).trace;
      var next := Deliver(t[2].msg, messageId, receipt);
      var s := HandleRecord(next, out2, handlers, store);
      && IntentOf(next) == RunsCreate
      && OriginOf(next) == Some(TelegramOrigin)
      && t[2].msg.groupId == GroupId(Field(next.body, "assistant_id"), Field(next.body, "thread_id"))
      && s.trace[0] == CreateRun(Field(rec.body, "thread_id"), Field(rec.body, "assistant_id"))
      && (CreationSucceeded(out2) ==> Field(s.trace[1].msg.body, "update_id") == None)
  {
    var t := ThreadsMessagesCreate(rec, out, counters, backOff).trace;
    MessageDelivered(rec, out, counters, backOff);
    var msg := t[2].msg;
    var next := Deliver(msg, messageId, receipt);
    DeliveredAttribute(msg, messageId, receipt, "intent");
    DeliveredAttribute(msg, messageId, receipt, "from");
    assert IntentOf(next) == RunsCreate;
    if CreationSucceeded(out2) {
      RunCreationSucceeds(next, out2, handlers, store);
    }
  }

  /** After a run is created, the queued poll message reaches the router as a
      poll of that very run on the same thread, in the same group. */
  lemma CreatedRunIsPolled(rec: SqsRecord, out: Outcomes, handlers: set<string>, store: Store,
                           messageId: string, receipt: string, out2: Outcomes, store2: Store)
    requires IntentOf(rec) == RunsCreate && OriginOf(rec) == Some(TelegramOrigin)
    requires CreationSucceeded(out)
    ensures var t := HandleRecord(rec, out, handlers, store).trace;
      var next := Deliver(t[1].msg, messageId, receipt);
      && IntentOf(next) == RunsRetrieve
      && t[1].msg.groupId == GroupId(Field(next.body, "assistant_id"), Field(next.body, "thread_id"))
      && HandleRecord(next, out2, handlers, store2).trace[0] ==
           RetrieveRun(Field(rec.body, "thread_id"), Some(out.createdRun.value))
  {
    var t := HandleRecord(rec, out, handlers, store).trace;
    RunCreationSucceeds(rec, out, handlers, store);
    var msg := t[1].msg;
    DeliveredAttribute(msg, messageId, receipt, "intent");
    assert IntentOf(Deliver(msg, messageId, receipt)) == RunsRetrieve;
  }
}
