/** SQS records as the Lambda receives them, the normalisation of their
    string attributes, and the intent names the orchestrator knows. */
module Routing {
  import opened Js
  import opened Effects

  datatype AttributeValue = AttributeValue(stringValue: JsStr)

  type Attributes = map<string, AttributeValue>

  datatype SqsRecord = SqsRecord(messageId: string, receiptHandle: string, attributes: Attributes, body: Body)

  const TelegramOrigin := "telegram"
  const RunsCreateIntent := "threads.runs.create"
  const RunsRetrieveIntent := "threads.runs.retrieve"
  const MessagesCreateIntent := "threads.messages.create"

  /** `messageAttributes?.<name>?.stringValue || undefined`: a missing
      attribute, a missing string value and the empty string all read as `undefined`. */
  function AttrString(attrs: Attributes, name: string): (v: JsStr)
    ensures v != Some("")
    ensures v.Some? ==> name in attrs && attrs[name].stringValue == v
    ensures name in attrs && attrs[name].stringValue.Some? && attrs[name].stringValue != Some("") ==> v.Some?
  {
    if name in attrs && attrs[name].stringValue.Some? && attrs[name].stringValue.value != "" then
      attrs[name].stringValue
    else
      None
  }

  /** The intents the record router dispatches on. */
  datatype Intent = RunsCreate | RunsRetrieve | Unknown

  function ParseIntent(v: JsStr): (i: Intent)
    ensures i == RunsCreate <==> v == Some(RunsCreateIntent)
    ensures i == RunsRetrieve <==> v == Some(RunsRetrieveIntent)
  {
    if v == Some(RunsCreateIntent) then RunsCreate
    else if v == Some(RunsRetrieveIntent) then RunsRetrieve
    else Unknown
  }

  function IntentOf(rec: SqsRecord): Intent {
    ParseIntent(AttrString(rec.attributes, "intent"))
  }

  function OriginOf(rec: SqsRecord): JsStr {
    AttrString(rec.attributes, "from")
  }

  /** The name a recognised intent is written with in the `intent` attribute. */
  function IntentName(i: Intent): string
    requires i != Unknown
  {
    if i == RunsCreate then RunsCreateIntent else RunsRetrieveIntent
  }

  /** Writing a recognised intent's name and parsing it back gives the intent;
      the message-create intent, and any absent or empty attribute, is not one of them. */
  lemma IntentNameRoundTrip(i: Intent)
    requires i != Unknown
    ensures ParseIntent(Some(IntentName(i))) == i
    ensures ParseIntent(Some(MessagesCreateIntent)) == Unknown
    ensures ParseIntent(None) == Unknown
  {
  }

  /** A queued message as it comes back from the queue as a record. */
  function Deliver(msg: OutMessage, messageId: string, receipt: string): SqsRecord {
    SqsRecord(messageId, receipt, map k | k in msg.attributes :: AttributeValue(Some(msg.attributes[k])), msg.body)
  }

  /** Every non-empty string attribute of a queued message reads back unchanged
      from the delivered record; an unset one reads as `undefined`. */
  lemma DeliveredAttribute(msg: OutMessage, messageId: string, receipt: string, name: string)
    ensures name in msg.attributes && msg.attributes[name] != "" ==>
      AttrString(Deliver(msg, messageId, receipt).attributes, name) == Some(msg.attributes[name])
    ensures name !in msg.attributes ==> AttrString(Deliver(msg, messageId, receipt).attributes, name) == None
  {
  }
}
