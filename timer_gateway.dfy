/**
 * The timer requests the agent sends to the consensus module (scheduleTimer, cancelTimer):
 * the encoded request and the bounded retry over tryClaim.
 */
module TimerGateway {
  import opened Wrappers

  /** Number of tryClaim attempts before a timer request is given up. */
  const SEND_ATTEMPTS: nat := 3

  /** A request as committed to the timer publication; the byte layout is not modelled. */
  datatype TimerRequest =
    | ScheduleTimerRequest(correlationId: int, deadline: int)
    | CancelTimerRequest(correlationId: int)

  /**
   * The first attempt, from attempt number from on and below SEND_ATTEMPTS, whose tryClaim
   * outcome claim(k) is positive; None when all of them fail.
   */
  function FirstClaim(claim: nat -> int, from: nat): (r: Option<nat>)
    requires from <= SEND_ATTEMPTS
    ensures r.Some? ==>
      && from <= r.value < SEND_ATTEMPTS
      && claim(r.value) > 0
      && forall k :: from <= k < r.value ==> claim(k) <= 0
    ensures r.None? <==> forall k :: from <= k < SEND_ATTEMPTS ==> claim(k) <= 0
    decreases SEND_ATTEMPTS - from
  {
    if from == SEND_ATTEMPTS then None
    else if claim(from) > 0 then Some(from)
    else FirstClaim(claim, from + 1)
  }

  /** How many times tryClaim is called: up to and including the first success, else all. */
  function ClaimsMade(claim: nat -> int): (n: nat)
    ensures 1 <= n <= SEND_ATTEMPTS
    ensures FirstClaim(claim, 0).Some? ==> claim(n - 1) > 0
    ensures FirstClaim(claim, 0).None? ==> n == SEND_ATTEMPTS
    // claiming stops at the first success: every claim before the last one failed
    ensures forall k :: 0 <= k < n - 1 ==> claim(k) <= 0
  {
    match FirstClaim(claim, 0)
    case Some(k) => k + 1
    case None => SEND_ATTEMPTS
  }
}
