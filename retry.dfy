/**
 * `_retry`: call, and on an exception wait RETRY_WAIT_SECS and call again, for at
 * most RETRY_TIMES + 1 attempts; the first normal return is returned and the
 * exception of the last attempt is re-raised.
 */
module Retry {

  const RETRY_WAIT_SECS: nat := 1
  const RETRY_TIMES: nat := 5

  /** What the control plane does with one call: return normally with an HTTP status,
      or make the client raise an exception carrying one */
  datatype Reply = Answered(status: int) | Raised(code: int)

  /** The number of attempts `_retry` makes from attempt `no` on, when the j-th attempt
      would be answered by `answers[j]`: it stops at the first normal return or after
      attempt RETRY_TIMES, and only failed attempts come before the last one. */
  function AttemptsFrom(answers: seq<Reply>, no: nat): (n: nat)
    requires |answers| == RETRY_TIMES + 1
    requires no <= RETRY_TIMES
    ensures no < n <= RETRY_TIMES + 1
    ensures answers[n - 1].Answered? || n == RETRY_TIMES + 1
    ensures forall j :: no <= j < n - 1 ==> answers[j].Raised?
    decreases RETRY_TIMES - no
  {
    if answers[no].Answered? || no == RETRY_TIMES then no + 1 else AttemptsFrom(answers, no + 1)
  }

  function Attempts(answers: seq<Reply>): nat
    requires |answers| == RETRY_TIMES + 1
  {
    AttemptsFrom(answers, 0)
  }

  /** The answer the caller of the wrapped call sees: that of the last attempt */
  function Final(answers: seq<Reply>): Reply
    requires |answers| == RETRY_TIMES + 1
  {
    answers[Attempts(answers) - 1]
  }

  /** `m` attempts are made exactly when attempts 1..m-1 failed and attempt m either
      returned or was the last one allowed */
  lemma AttemptsExactly(answers: seq<Reply>, m: nat)
    requires |answers| == RETRY_TIMES + 1
    requires 1 <= m <= RETRY_TIMES + 1
    ensures Attempts(answers) == m <==>
      (answers[m - 1].Answered? || m == RETRY_TIMES + 1) && forall j :: 0 <= j < m - 1 ==> answers[j].Raised?
  {
  }

  /** The first normal return ends the retries and is what the caller gets */
  lemma RetryReturnsFirstSuccess(answers: seq<Reply>, k: nat)
    requires |answers| == RETRY_TIMES + 1
    requires k < |answers| && answers[k].Answered?
    requires forall j :: 0 <= j < k ==> answers[j].Raised?
    ensures Attempts(answers) == k + 1 && Final(answers) == answers[k]
  {
    AttemptsExactly(answers, k + 1);
  }

  /** The caller sees an exception exactly when every one of the RETRY_TIMES + 1
      attempts raised one, and then it is the last attempt's exception */
  lemma RetryGivesUp(answers: seq<Reply>)
    requires |answers| == RETRY_TIMES + 1
    ensures Final(answers).Raised? <==> forall j :: 0 <= j < |answers| ==> answers[j].Raised?
    ensures Final(answers).Raised? ==> Attempts(answers) == RETRY_TIMES + 1 && Final(answers) == answers[RETRY_TIMES]
  {
  }

  /** One wait between consecutive attempts: at most RETRY_TIMES * RETRY_WAIT_SECS seconds */
  function WaitedSecs(answers: seq<Reply>): (secs: nat)
    requires |answers| == RETRY_TIMES + 1
    ensures secs <= RETRY_TIMES * RETRY_WAIT_SECS
  {
    (Attempts(answers) - 1) * RETRY_WAIT_SECS
  }
}
