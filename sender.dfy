/**
 * The command channel. Each command opens a fresh TCP connection; whether an
 * attempt gets its bytes to the device is decided by the network, so it is an
 * input here: `delivers(k)` says whether attempt number `k` (from 0)
 * succeeds. Neither sender ever raises to its caller, so a device method that
 * sends a command always carries on with its state update.
 */
module Sender {

  import Text

  /** The first successful attempt among attempts `0 .. n-1`, if any. */
  function FirstSuccess(delivers: nat -> bool, n: nat): (r: Text.Option<nat>)
    ensures r.Some? ==> r.value < n && delivers(r.value)
    ensures r.Some? ==> forall k :: 0 <= k < r.value ==> !delivers(k)
    ensures r.None? ==> forall k :: 0 <= k < n ==> !delivers(k)
  {
    if n == 0 then Text.None
    else match FirstSuccess(delivers, n - 1)
      case Some(k) => Text.Some(k)
      case None => if delivers(n - 1) then Text.Some(n - 1) else Text.None
  }

  /**
   * `send_command` of the newer controller: up to `retries + 1` attempts (none
   * at all when `retries` is negative, as `range(retries + 1)` is then empty),
   * stopping at the first that gets through, with a pause after every failed
   * attempt except the last allowed one. It returns normally whatever happens.
   * `attempts` counts connection attempts, `pauses` the retry sleeps.
   */
  method SendWithRetry(delivers: nat -> bool, retries: int) returns (attempts: nat, delivered: bool, pauses: nat)
    ensures attempts <= if retries < 0 then 0 else retries + 1
    ensures delivered <==> retries >= 0 && FirstSuccess(delivers, retries + 1).Some?
    ensures delivered ==> attempts == FirstSuccess(delivers, retries + 1).value + 1
    ensures !delivered ==> attempts == (if retries < 0 then 0 else retries + 1)
    ensures delivered ==> delivers(attempts - 1)
    ensures forall k :: 0 <= k < attempts - 1 ==> !delivers(k)
    ensures pauses == if attempts == 0 then 0 else attempts - 1
  {
    attempts, delivered, pauses := 0, false, 0;
    var attempt := 0;
    while attempt < retries + 1
      invariant 0 <= attempt <= (if retries < 0 then 0 else retries)
      invariant attempts == attempt && pauses == attempt
      invariant forall k :: 0 <= k < attempt ==> !delivers(k)
      invariant !delivered
    {
      attempts := attempts + 1;
      if delivers(attempt) {
        delivered := true;
        pauses := attempt;
        return;
      }
      if attempt < retries {
        pauses := pauses + 1;
      } else {
        return;
      }
      attempt := attempt + 1;
    }
  }

  /**
   * `send_command` of the older controller: exactly one attempt, any exception
   * swallowed. It is the retrying sender with no retries.
   */
  method SendOnce(delivers: nat -> bool) returns (attempts: nat, delivered: bool)
    ensures attempts == 1
    ensures delivered == delivers(0)
    ensures delivered <==> FirstSuccess(delivers, 1).Some?
  {
    attempts := 1;
    delivered := delivers(0);
  }
}
