/** The integer part of the load balancer's `MetricsCollector`: request, error
    and latency totals and per-minute request and error counts. */
module Metrics {
  import opened Basics
  import opened Backends

  /** The minute bucket of a clock reading: Unix seconds divided by 60 with Go's
      truncating division. Unix seconds round down, as `time.Unix` does. */
  function MinuteOf(now: int): (m: int)
    ensures now >= 0 ==> m * Minute <= now < (m + 1) * Minute
  {
    GoDiv(now / Second, 60)
  }

  /** A per-minute count, zero for a minute never seen (Go's map default). */
  function Count(m: map<int, int>, minute: int): int {
    if minute in m then m[minute] else 0
  }

  function Bump(m: map<int, int>, minute: int): (r: map<int, int>)
    ensures Count(r, minute) == Count(m, minute) + 1
    ensures forall k :: k != minute ==> Count(r, k) == Count(m, k)
    ensures r.Keys == m.Keys + {minute}
  {
    m[minute := Count(m, minute) + 1]
  }

  class MetricsCollector {
    var totalRequests: int
    var totalErrors: int
    var totalLatency: int
    var requestsByMinute: map<int, int>
    var errorsByMinute: map<int, int>

    /** No more errors than requests, overall and in every minute. */
    predicate Valid()
      reads this
    {
      0 <= totalErrors <= totalRequests
      && (forall k :: k in errorsByMinute ==> k in requestsByMinute)
      && (forall k :: k in requestsByMinute ==> 0 <= Count(errorsByMinute, k) <= requestsByMinute[k])
    }

    constructor ()
      ensures Valid()
      ensures totalRequests == 0 && totalErrors == 0 && totalLatency == 0
      ensures requestsByMinute == map[] && errorsByMinute == map[]
    {
      totalRequests := 0;
      totalErrors := 0;
      totalLatency := 0;
      requestsByMinute := map[];
      errorsByMinute := map[];
    }

    /** `RecordRequest`: one more request in the totals and in the current minute,
        and one more error in both when `isError`. */
    method RecordRequest(latency: int, isError: bool, now: int)
      requires Valid()
      modifies this
      ensures Valid()
      ensures totalRequests == old(totalRequests) + 1
      ensures totalErrors == old(totalErrors) + (if isError then 1 else 0)
      ensures totalLatency == old(totalLatency) + latency
      ensures requestsByMinute == Bump(old(requestsByMinute), MinuteOf(now))
      ensures errorsByMinute == if isError then Bump(old(errorsByMinute), MinuteOf(now)) else old(errorsByMinute)
    {
      totalRequests := totalRequests + 1;
      totalLatency := totalLatency + latency;
      if isError {
        totalErrors := totalErrors + 1;
      }
      var minute := MinuteOf(now);
      requestsByMinute := Bump(requestsByMinute, minute);
      if isError {
        errorsByMinute := Bump(errorsByMinute, minute);
      }
    }

    /** `getRecentRequests`: the count of the current minute. */
    method RecentRequests(now: int) returns (n: int)
      ensures n == Count(requestsByMinute, MinuteOf(now))
    {
      var minute := MinuteOf(now);
      if minute in requestsByMinute {
        return requestsByMinute[minute];
      }
      return 0;
    }
  }
}
