/** `NetworkHelper.dataWithRetry`: a bounded retry loop with doubling backoff.
    Delays are whole milliseconds instead of `Double` seconds. */
module NetworkHelper {
  import opened Wrappers
  import opened Http

  /** The two default arguments of `dataWithRetry`. */
  const DefaultRetries: int := 2
  const DefaultInitialDelayMs: nat := 500

  /** 2^k, never below 1. */
  function Pow2(k: nat): (r: nat)
    ensures r >= 1
  {
    if k == 0 then 1 else 2 * Pow2(k - 1)
  }

  /** The k-th sleep (from 0): the initial delay doubled k times. */
  function Backoff(initialDelayMs: nat, k: nat): nat {
    if k == 0 then initialDelayMs else 2 * Backoff(initialDelayMs, k - 1)
  }

  /** The k-th sleep lasts initialDelay * 2^k, so no sleep is shorter than
      the first. */
  lemma {:induction false} BackoffIsExponential(initialDelayMs: nat, k: nat)
    ensures Backoff(initialDelayMs, k) == initialDelayMs * Pow2(k)
    ensures Backoff(initialDelayMs, k) >= initialDelayMs
  {
    if k > 0 {
      BackoffIsExponential(initialDelayMs, k - 1);
      calc {
        Backoff(initialDelayMs, k);
        2 * (initialDelayMs * Pow2(k - 1));
        { assert 2 * (initialDelayMs * Pow2(k - 1)) == initialDelayMs * (2 * Pow2(k - 1)); }
        initialDelayMs * Pow2(k);
      }
    }
  }

  /** Reference definition: the result of the attempts numbered `attempt`
      through `retries`, given that every earlier attempt failed. */
  function RetryFrom(transport: nat -> TransportOutcome, retries: int, attempt: nat): Result<(Bytes, Response), NetError>
    requires attempt <= retries
    decreases retries - attempt
  {
    match transport(attempt)
    case Delivered(data, response) => Success((data, response))
    case Failed(e) => if attempt + 1 > retries then Failure(e) else RetryFrom(transport, retries, attempt + 1)
  }

  /** Reference definition of what `dataWithRetry` returns or throws. */
  function RetryResult(transport: nat -> TransportOutcome, retries: int): Result<(Bytes, Response), NetError> {
    if retries < 0 then Failure(UnknownUrlError) else RetryFrom(transport, retries, 0)
  }

  /** The loop itself. `transport(k)` is what the k-th call of the session
      gives; `calls` counts the calls made and `sleeps` lists the delays slept,
      in order. */
  method DataWithRetry(transport: nat -> TransportOutcome, retries: int, initialDelayMs: nat)
    returns (result: Result<(Bytes, Response), NetError>, calls: nat, sleeps: seq<nat>)
    ensures result == RetryResult(transport, retries)
    ensures calls <= if retries < 0 then 0 else retries + 1
    ensures retries < 0 ==> calls == 0 && result == Failure(UnknownUrlError)
    ensures forall k :: 0 <= k < calls - 1 ==> transport(k).Failed?
    ensures result.Success? ==> 1 <= calls && transport(calls - 1) == Delivered(result.value.0, result.value.1)
    ensures result.Failure? && retries >= 0 ==> calls == retries + 1 && transport(retries) == Failed(result.error)
    ensures |sleeps| == if calls == 0 then 0 else calls - 1
    ensures forall k :: 0 <= k < |sleeps| ==> sleeps[k] == Backoff(initialDelayMs, k)
  {
    var attempt: nat := 0;
    var delay := initialDelayMs;
    var lastError: Option<NetError> := None;
    calls, sleeps := 0, [];
    while attempt <= retries
      invariant attempt == 0 || attempt <= retries
      invariant calls == attempt
      invariant attempt == 0 ==> lastError.None?
      invariant |sleeps| == attempt
      invariant delay == Backoff(initialDelayMs, attempt)
      invariant forall k :: 0 <= k < |sleeps| ==> sleeps[k] == Backoff(initialDelayMs, k)
      invariant forall k :: 0 <= k < attempt ==> transport(k).Failed?
      invariant attempt <= retries ==> RetryResult(transport, retries) == RetryFrom(transport, retries, attempt)
      decreases retries - attempt
    {
      calls := calls + 1;
      match transport(attempt)
      case Delivered(data, response) =>
        result := Success((data, response));
        assert RetryFrom(transport, retries, attempt) == result;
        return;
      case Failed(e) =>
        lastError := Some(e);
        assert RetryFrom(transport, retries, attempt) == if attempt + 1 > retries then Failure(e) else RetryFrom(transport, retries, attempt + 1);
        attempt := attempt + 1;
        if attempt > retries {
          break;
        }
        assert RetryFrom(transport, retries, attempt - 1) == RetryFrom(transport, retries, attempt);
        sleeps := sleeps + [delay];
        delay := delay * 2;
    }
    result := Failure(if lastError.Some? then lastError.value else UnknownUrlError);
  }

  /** With the defaults, two failures followed by a delivery: exactly three
      calls, sleeps of 500 ms and then 1000 ms, and the delivery returned. */
  method TwoFailuresThenSuccess(transport: nat -> TransportOutcome)
    returns (result: Result<(Bytes, Response), NetError>, calls: nat, sleeps: seq<nat>)
    requires transport(0).Failed? && transport(1).Failed? && transport(2).Delivered?
    ensures result == Success((transport(2).data, transport(2).response))
    ensures calls == 3
    ensures sleeps == [500, 1000]
  {
    result, calls, sleeps := DataWithRetry(transport, DefaultRetries, DefaultInitialDelayMs);
    assert sleeps[0] == Backoff(500, 0) && sleeps[1] == Backoff(500, 1);
  }

  /** A delivered response is returned as it is, whatever its HTTP status:
      the helper never looks at the status code, so a non-2xx reply is not
      retried. */
  lemma {:induction false} DeliveredIsReturned(transport: nat -> TransportOutcome, retries: int, k: nat)
    requires 0 <= k <= retries
    requires forall j :: 0 <= j < k ==> transport(j).Failed?
    requires transport(k).Delivered?
    ensures RetryResult(transport, retries) == Success((transport(k).data, transport(k).response))
  {
    RetryFromSkipsFailures(transport, retries, 0, k);
  }

  lemma {:induction false} RetryFromSkipsFailures(transport: nat -> TransportOutcome, retries: int, from: nat, k: nat)
    requires from <= k <= retries
    requires forall j :: from <= j < k ==> transport(j).Failed?
    ensures RetryFrom(transport, retries, from) == RetryFrom(transport, retries, k)
    decreases k - from
  {
    if from < k {
      RetryFromSkipsFailures(transport, retries, from + 1, k);
    }
  }

  /** When every allowed attempt fails, the error of the last one is thrown. */
  lemma {:induction false} AllFailuresThrowLastError(transport: nat -> TransportOutcome, retries: int)
    requires retries >= 0
    requires forall j :: 0 <= j <= retries ==> transport(j).Failed?
    ensures RetryResult(transport, retries) == Failure(transport(retries).error)
  {
    RetryFromSkipsFailures(transport, retries, 0, retries);
  }
}
