/**
 * The retry rule of pollConfigUpdateStatus (static/script.js): after a config
 * update the page asks for the update status until the update it started is
 * over, waiting a little longer after each transport error.
 */
module ConfigPoll {
  import opened Wrappers

  /** Polls are re-scheduled only while fewer than this many have been made. */
  const MaxAttempts: nat := 60
  /** Wait before the next poll while the server reports the update in progress. */
  const PollInterval: nat := 1000
  /** The longest wait after a transport error. */
  const MaxRetryDelay: nat := 3000

  /** `Math.min(1000 * (1 + attempts * 0.1), 3000)` in whole milliseconds. */
  function RetryDelay(attempts: nat): (d: nat)
    ensures PollInterval <= d <= MaxRetryDelay
    ensures d == MaxRetryDelay || d == PollInterval + 100 * attempts
    ensures d <= PollInterval + 100 * attempts
  {
    if 1000 + 100 * attempts < 3000 then 1000 + 100 * attempts else 3000
  }

  /** The wait after a transport error never shrinks as the attempts grow. */
  lemma {:induction false} RetryDelayMonotone(a: nat, b: nat)
    requires a <= b
    ensures RetryDelay(a) <= RetryDelay(b)
  {
    assert 1000 + 100 * a <= 1000 + 100 * b;
  }

  /** The body of GET /api/config/status; a null `success` reads as false. */
  datatype StatusReply = StatusReply(updateId: Option<string>, updating: bool, success: bool, message: string)

  /** What one poll sees: a transport failure (fetch threw, status not ok, bad JSON) or the status body. */
  datatype PollOutcome = TransportError | Replied(reply: StatusReply)

  /** What the page does after one poll. */
  datatype PollDecision =
    | PollAgain(attempts: nat, delayMs: nat)   // schedule pollConfigUpdateStatus(updateId, attempts)
    | OtherUpdate                              // the status belongs to another update: stop quietly
    | Finished(succeeded: bool, shown: string) // the update is over; the status text shown
    | TimedOut                                 // still updating after the last allowed poll
    | GaveUp                                   // transport failure after the last allowed poll

  /** The status text shown when a finished update reports no message of its own. */
  const SucceededText := "配置已成功更新并应用！"
  const FailedText := "配置更新失败"

  /** The poll reached the server, which reports this same update still in progress. */
  predicate StillUpdating(updateId: string, outcome: PollOutcome) {
    outcome.Replied? && outcome.reply.updateId == Some(updateId) && outcome.reply.updating
  }

  /** The decision of one call of pollConfigUpdateStatus(updateId, attempts). */
  function NextPoll(updateId: string, attempts: nat, outcome: PollOutcome): (d: PollDecision)
    ensures d.PollAgain? ==> attempts < MaxAttempts && d.attempts == attempts + 1
    ensures d.PollAgain? && outcome.Replied? ==> d.delayMs == PollInterval
    ensures d.PollAgain? && outcome.TransportError? ==> d.delayMs == RetryDelay(attempts)
    ensures outcome.Replied? && outcome.reply.updateId != Some(updateId) ==> d == OtherUpdate
    ensures attempts >= MaxAttempts ==> !d.PollAgain?
    ensures attempts < MaxAttempts && outcome.TransportError? ==> d.PollAgain?
    ensures attempts < MaxAttempts && StillUpdating(updateId, outcome) ==> d.PollAgain?
    ensures attempts >= MaxAttempts && outcome.TransportError? ==> d == GaveUp
    ensures attempts >= MaxAttempts && StillUpdating(updateId, outcome) ==> d == TimedOut
    ensures d.Finished? <==> outcome.Replied? && outcome.reply.updateId == Some(updateId) && !outcome.reply.updating
    ensures d.Finished? ==> d.succeeded == outcome.reply.success
    ensures d.Finished? && outcome.reply.message != "" ==> d.shown == outcome.reply.message
    ensures d.Finished? && outcome.reply.message == "" ==> d.shown == (if d.succeeded then SucceededText else FailedText)
  {
    match outcome
    case TransportError =>
      if attempts < MaxAttempts then PollAgain(attempts + 1, RetryDelay(attempts)) else GaveUp
    case Replied(r) =>
      if r.updateId != Some(updateId) then OtherUpdate
      else if r.updating then
        (if attempts < MaxAttempts then PollAgain(attempts + 1, PollInterval) else TimedOut)
      else if r.success then Finished(true, if r.message != "" then r.message else SucceededText)
      else Finished(false, if r.message != "" then r.message else FailedText)
  }

  /** The number of status requests made, given what each successive poll sees. */
  function PollsMade(updateId: string, attempts: nat, outcomes: seq<PollOutcome>): nat
    decreases |outcomes|
  {
    if outcomes == [] then 0
    else match NextPoll(updateId, attempts, outcomes[0])
      case PollAgain(next, _) => 1 + PollsMade(updateId, next, outcomes[1..])
      case _ => 1
  }

  /** However the server answers, a poll chain started at `attempts` makes at most 61 - attempts requests. */
  lemma {:induction false} PollsBounded(updateId: string, attempts: nat, outcomes: seq<PollOutcome>)
    requires attempts <= MaxAttempts
    ensures PollsMade(updateId, attempts, outcomes) <= MaxAttempts + 1 - attempts
    decreases |outcomes|
  {
    if outcomes != [] {
      match NextPoll(updateId, attempts, outcomes[0])
      case PollAgain(next, _) =>
        PollsBounded(updateId, next, outcomes[1..]);
      case _ =>
    }
  }

  /** The time waited between polls, in milliseconds. */
  function TotalWait(updateId: string, attempts: nat, outcomes: seq<PollOutcome>): nat
    decreases |outcomes|
  {
    if outcomes == [] then 0
    else match NextPoll(updateId, attempts, outcomes[0])
      case PollAgain(next, delay) => delay + TotalWait(updateId, next, outcomes[1..])
      case _ => 0
  }

  /** Every wait is at most 3 s, so the whole chain waits at most 3 s per request made. */
  lemma {:induction false} TotalWaitBounded(updateId: string, attempts: nat, outcomes: seq<PollOutcome>)
    ensures TotalWait(updateId, attempts, outcomes) <= MaxRetryDelay * PollsMade(updateId, attempts, outcomes)
    decreases |outcomes|
  {
    if outcomes != [] {
      match NextPoll(updateId, attempts, outcomes[0])
      case PollAgain(next, delay) =>
        TotalWaitBounded(updateId, next, outcomes[1..]);
      case _ =>
    }
  }
}
