/** One outbound attempt and the retry policy (services/outbound.py). */
module Outbound {
  import opened Dicts

  const DEFAULT_BACKOFF: seq<int> := [0, 60, 300, 1800, 7200]

  /** The parsed setting: `None` when unset or empty, an element `None` where `int` fails. */
  function RetryBackoffSeconds(configured: Option<seq<Option<int>>>): (r: seq<int>)
    ensures |r| > 0 && r[0] == 0
    ensures if configured.Some? && |configured.value| > 0 && configured.value[0] == Some(0) && None !in configured.value
      then |r| == |configured.value| && forall i :: 0 <= i < |r| ==> Some(r[i]) == configured.value[i]
      else r == [0, 60, 300, 1800, 7200]
  {
    if configured == None then DEFAULT_BACKOFF
    else if None in configured.value then DEFAULT_BACKOFF
    else
      var values := seq(|configured.value|, i requires 0 <= i < |configured.value| =>
                          match configured.value[i] case Some(v) => v case None => 0);
      if |values| > 0 && values[0] == 0 then values else DEFAULT_BACKOFF
  }

  /** The answer to one request: an HTTP status, or none after a network error or timeout. */
  type Response = Option<int>

  predicate IsRetryable(status: Response) {
    match status
    case None => true
    case Some(code) => code == 408 || code == 429 || 500 <= code <= 599
  }

  /** `raise_for_status` lets only 2xx answers through. */
  predicate Succeeded(status: Response) {
    status.Some? && 200 <= status.value <= 299
  }

  /** The waits from the second attempt up to attempt `n`. */
  function Waits(backoff: seq<int>, n: nat): int
    requires n <= |backoff|
  {
    if n <= 1 then 0 else Waits(backoff, n - 1) + backoff[n - 1]
  }
}
