/** What the two notification runs share: the log of `sendEmail` calls, the success
    oracle that stands for the email transport, and the run outcome. */
module Dispatch {
  import opened JsValues
  import opened EmailTracking

  /** One `sendEmail` call: the address it went to and the tournament the message is about. */
  datatype Call = Call(to: string, about: JsValue)

  /** How many of the calls numbered `from` .. `from + n - 1` the transport accepts, when
      `sendOk(k)` says whether call number `k` of the run succeeds. */
  function Successes(sendOk: nat -> bool, from: nat, n: nat): (r: nat)
    ensures r <= n
  {
    if n == 0 then 0 else Successes(sendOk, from, n - 1) + (if sendOk(from + n - 1) then 1 else 0)
  }

  lemma {:induction false} SuccessesSplit(sendOk: nat -> bool, from: nat, n: nat, m: nat)
    ensures Successes(sendOk, from, n + m) == Successes(sendOk, from, n) + Successes(sendOk, from + n, m)
  {
    if m > 0 {
      SuccessesSplit(sendOk, from, n, m - 1);
    }
  }

  /** How a run ends: it throws, it returns early with nothing to send, or it completes with
      its counters. */
  datatype Outcome<S> = Threw | NothingToSend | Completed(summary: S)

  /** The ledger after a run, the run's outcome and the `sendEmail` calls it made. */
  datatype RunResult<S> = RunResult(store: Store, outcome: Outcome<S>, calls: seq<Call>)
}
