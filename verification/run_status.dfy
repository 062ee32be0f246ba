/** The status of an assistant run and the lease action the poller takes for it. */
module RunStatus {

  datatype Status =
    | Queued
    | InProgress
    | RequiresAction
    | Cancelling
    | Completed
    | Failed
    | Cancelled
    | Expired
    | Unrecognised(name: string)

  function StatusName(st: Status): string {
    match st
    case Queued => "queued"
    case InProgress => "in_progress"
    case RequiresAction => "requires_action"
    case Cancelling => "cancelling"
    case Completed => "completed"
    case Failed => "failed"
    case Cancelled => "cancelled"
    case Expired => "expired"
    case Unrecognised(n) => n
  }

  predicate IsKnownName(s: string) {
    s in {"queued", "in_progress", "requires_action", "cancelling", "completed", "failed", "cancelled", "expired"}
  }

  /** An `Unrecognised` status never carries one of the eight known names. */
  predicate Valid(st: Status) {
    st.Unrecognised? ==> !IsKnownName(st.name)
  }

  /** The `switch (status)` of the poller: every string is some status. */
  function ParseStatus(s: string): (st: Status)
    ensures Valid(st)
    ensures st.Unrecognised? <==> !IsKnownName(s)
  {
    if s == "queued" then Queued
    else if s == "in_progress" then InProgress
    else if s == "requires_action" then RequiresAction
    else if s == "cancelling" then Cancelling
    else if s == "completed" then Completed
    else if s == "failed" then Failed
    else if s == "cancelled" then Cancelled
    else if s == "expired" then Expired
    else Unrecognised(s)
  }

  /** Parsing is a bijection between strings and valid statuses. */
  lemma StatusRoundTrip(s: string, st: Status)
    ensures StatusName(ParseStatus(s)) == s
    ensures Valid(st) ==> ParseStatus(StatusName(st)) == st
  {
  }

  /** Runs that are still being worked on by the assistant. */
  predicate StillWorking(st: Status) {
    st == Queued || st == InProgress
  }

  /** Statuses after which no further poll is useful, including any status the
      poller does not know. */
  predicate Terminal(st: Status) {
    st in {Cancelling, Completed, Failed, Cancelled, Expired} || st.Unrecognised?
  }

  /** Lease visibility extension, in seconds, while a run is still working. */
  const PollDelaySeconds := 10

  datatype LeaseAction =
    | PollAgain(seconds: int)   // extend the lease, let the message come back
    | Drop                      // delete the message
    | DropAndDispatch           // delete the message, then run the requested tools

  function ActionFor(st: Status): (a: LeaseAction)
    ensures a.PollAgain? <==> StillWorking(st)
    ensures a.PollAgain? ==> a.seconds == PollDelaySeconds
    ensures a == DropAndDispatch <==> st == RequiresAction
    ensures a == Drop <==> Terminal(st)
  {
    match st
    case Queued | InProgress => PollAgain(PollDelaySeconds)
    case RequiresAction => DropAndDispatch
    case _ => Drop
  }

  /** Every status falls in exactly one of the three classes. */
  lemma StatusClassesPartition(st: Status)
    ensures StillWorking(st) || st == RequiresAction || Terminal(st)
    ensures !(StillWorking(st) && Terminal(st))
    ensures !(st == RequiresAction && (StillWorking(st) || Terminal(st)))
  {
  }
}
