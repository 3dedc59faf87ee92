/** One upstream server of the load balancer and its circuit breaker.

    Times are Unix nanoseconds and are passed in as `now`; durations are
    nanoseconds. The breaker's transitions are first given as functions on a
    record (`Breaker`), and the `Backend` methods are proved to perform
    exactly those transitions on the object's `breaker` field. */
module Backends {
  import opened Basics
  import opened Text

  const Second: int := 1_000_000_000
  const Minute: int := 60 * Second

  /** Hard-coded in `NewBackend`: trip after this many failures ... */
  const DefaultFailureThreshold: int := 5
  /** ... and let a probe through after this long in the open state. */
  const DefaultResetTimeout: int := 30 * Second

  const UnixPrefix: string := "unix://"

  datatype CircuitState = Closed | Open | HalfOpen

  /** The part of a backend the breaker reads and writes. */
  datatype Breaker = Breaker(state: CircuitState, failCount: int, successCount: int, lastStateChange: int)

  /** `RecordFailure`: count the failure; once the count reaches the threshold a
      closed breaker opens, and the state-change time is refreshed whatever the state. */
  function OnFailure(b: Breaker, threshold: int, now: int): Breaker {
    var n := b.failCount + 1;
    if n >= threshold then
      Breaker(if b.state == Closed then Open else b.state, n, b.successCount, now)
    else
      b.(failCount := n)
  }

  /** `RecordSuccess`: count the success; only a half-open breaker closes, clearing the failures. */
  function OnSuccess(b: Breaker, now: int): Breaker {
    var b' := b.(successCount := b.successCount + 1);
    if b.state == HalfOpen then b'.(state := Closed, lastStateChange := now, failCount := 0) else b'
  }

  /** `CanAcceptRequest`: the answer and the breaker afterwards. */
  function Admit(b: Breaker, resetTimeout: int, now: int): (bool, Breaker) {
    match b.state
    case Closed => (true, b)
    case HalfOpen => (true, b)
    case Open =>
      if now - b.lastStateChange > resetTimeout then (true, b.(state := HalfOpen, lastStateChange := now))
      else (false, b)
  }

  /** `k` failures in a row, all at time `now`. */
  function Failures(b: Breaker, threshold: int, now: int, k: nat): Breaker {
    if k == 0 then b else OnFailure(Failures(b, threshold, now, k - 1), threshold, now)
  }

  /** `GetCircuitState`. The source's fourth answer, "unknown", belongs to an
      integer state outside the three constants and cannot arise here. */
  function StateName(s: CircuitState): (name: string)
    ensures name in {"closed", "open", "half-open"}
    ensures s == Closed <==> name == "closed"
    ensures s == Open <==> name == "open"
  {
    match s
    case Closed => "closed"
    case Open => "open"
    case HalfOpen => "half-open"
  }

  // ---------------------------------------------------------------- breaker properties

  /** A failure always adds one to the count, never touches the success count, and
      changes the state only from Closed to Open, exactly when the new count reaches the threshold. */
  lemma FailureTransition(b: Breaker, threshold: int, now: int)
    ensures var r := OnFailure(b, threshold, now);
      r.failCount == b.failCount + 1 && r.successCount == b.successCount
      && (r.state != b.state <==> b.state == Closed && b.failCount + 1 >= threshold)
      && (r.state != b.state ==> r.state == Open)
  {
  }

  /** From any state, `k` failures add `k` to the count; a closed breaker that started
      with `f` failures is open afterwards exactly when `f + k` reaches the threshold,
      and an open or half-open breaker keeps its state. */
  lemma {:induction false} FailuresAccumulate(b: Breaker, threshold: int, now: int, k: nat)
    ensures Failures(b, threshold, now, k).failCount == b.failCount + k
    ensures b.state == Closed ==>
      (Failures(b, threshold, now, k).state == Open <==> k > 0 && b.failCount + k >= threshold)
    ensures b.state == Closed ==> Failures(b, threshold, now, k).state != HalfOpen
    ensures b.state != Closed ==> Failures(b, threshold, now, k).state == b.state
  {
    if k > 0 {
      FailuresAccumulate(b, threshold, now, k - 1);
    }
  }

  /** A fresh breaker (Closed, no failures) opens on exactly the threshold-th failure. */
  lemma TripsAtThreshold(b: Breaker, now: int, k: nat)
    requires b.state == Closed && b.failCount == 0
    ensures Failures(b, DefaultFailureThreshold, now, k).state == Open <==> k >= 5
  {
    FailuresAccumulate(b, DefaultFailureThreshold, now, k);
  }

  /** A success clears the failure count only when it closes a half-open breaker; in
      the closed state failures never decay. */
  lemma SuccessTransition(b: Breaker, now: int)
    ensures var r := OnSuccess(b, now);
      r.successCount == b.successCount + 1
      && (b.state == HalfOpen ==> r.state == Closed && r.failCount == 0)
      && (b.state != HalfOpen ==>
            r.state == b.state && r.failCount == b.failCount && r.lastStateChange == b.lastStateChange)
  {
  }

  /** A request is admitted in Closed and HalfOpen, and in Open only once strictly more
      than the reset timeout has passed since the last state change, which moves the
      breaker to HalfOpen stamped `now`; a refusal changes nothing. */
  lemma AdmitTransition(b: Breaker, resetTimeout: int, now: int)
    ensures var (ok, r) := Admit(b, resetTimeout, now);
      (ok <==> b.state != Open || now - b.lastStateChange > resetTimeout)
      && (!ok ==> r == b)
      && (ok && b.state == Open ==> r == b.(state := HalfOpen, lastStateChange := now))
      && (b.state != Open ==> r == b)
  {
  }

  /** Since the compare-and-swap in `RecordFailure` starts only from Closed, a failing
      probe in HalfOpen leaves the breaker half-open, and the next request is admitted. */
  lemma HalfOpenStaysAfterFailure(b: Breaker, threshold: int, resetTimeout: int, now: int, later: int)
    requires b.state == HalfOpen
    ensures OnFailure(b, threshold, now).state == HalfOpen
    ensures Admit(OnFailure(b, threshold, now), resetTimeout, later).0
  {
  }

  /** The breaker after the proxied exchange: a 5xx answer marks the backend down
      (one failure) and records a failure (a second one); anything else records a success. */
  function AfterResponse(b: Breaker, status: int, threshold: int, now: int): Breaker {
    if status >= 500 then OnFailure(b.(failCount := b.failCount + 1), threshold, now) else OnSuccess(b, now)
  }

  function ErrorResponses(b: Breaker, threshold: int, now: int, k: nat): Breaker {
    if k == 0 then b else AfterResponse(ErrorResponses(b, threshold, now, k - 1), 500, threshold, now)
  }

  lemma {:induction false} ErrorResponsesCount(b: Breaker, threshold: int, now: int, k: nat)
    ensures ErrorResponses(b, threshold, now, k).failCount == b.failCount + 2 * k
    ensures b.state == Closed ==>
      (ErrorResponses(b, threshold, now, k).state == Open <==> k > 0 && b.failCount + 2 * k >= threshold)
    ensures b.state == Closed ==> ErrorResponses(b, threshold, now, k).state != HalfOpen
  {
    if k > 0 {
      ErrorResponsesCount(b, threshold, now, k - 1);
    }
  }

  /** Each 5xx answer counts twice toward the threshold, so a closed backend with no
      failures trips on the third 5xx answer in a row, not the fifth. */
  lemma ThirdErrorTrips(b: Breaker, now: int, k: nat)
    requires b.state == Closed && b.failCount == 0
    ensures ErrorResponses(b, DefaultFailureThreshold, now, k).state == Open <==> k >= 3
  {
    ErrorResponsesCount(b, DefaultFailureThreshold, now, k);
  }

  // ---------------------------------------------------------------- latency average

  /** The moving average after a request that took `d`: the first duration
      itself, then nine tenths of the old average and one tenth of `d`,
      converted back to whole nanoseconds by truncation. */
  function MovingAverage(avg: int, d: int): int {
    if avg == 0 then d else Trunc(avg as real * 0.9 + d as real * 0.1)
  }

  /** For durations, which are not negative, the new average lies between the
      old average and the new duration; a steady duration is its own average. */
  lemma AverageBetween(avg: int, d: int)
    requires avg >= 0 && d >= 0
    ensures var r := MovingAverage(avg, d);
      (avg <= d ==> avg <= r <= d) && (d <= avg ==> d <= r <= avg)
  {
    if avg != 0 {
      var f := avg as real * 0.9 + d as real * 0.1;
      var r := Trunc(f);
      assert f >= 0.0;
      assert r as real <= f < r as real + 1.0;
      if avg <= d {
        assert avg as real <= f <= d as real;
      } else {
        assert d as real <= f <= avg as real;
      }
    }
  }

  // ---------------------------------------------------------------- the backend record

  class Backend {
    const id: string
    const addr: string
    const weight: int
    const timeout: int
    const isUnixSocket: bool
    const socketPath: string
    const failureThreshold: int
    const resetTimeout: int
    var alive: bool
    var currentWeight: int
    var totalRequests: int
    var responseTime: int
    var lastAccess: int
    /** The moving average of the durations recorded, 0 before the first. */
    var avgLatency: int
    /** The source's `circuitState`, `failCount`, `successCount` and
        `lastStateChange`, held as one record. */
    var breaker: Breaker

    /** `NewBackend`: alive, closed, its current weight equal to its weight; an
        address with the `unix://` prefix names a socket path. */
    constructor (id: string, addr: string, weight: int, timeout: int, now: int)
      ensures this.id == id && this.addr == addr && this.weight == weight && this.timeout == timeout
      ensures isUnixSocket == (UnixPrefix <= addr)
      ensures socketPath == if UnixPrefix <= addr then addr[|UnixPrefix|..] else ""
      ensures alive && currentWeight == weight
      ensures totalRequests == 0 && responseTime == 0 && lastAccess == now && avgLatency == 0
      ensures breaker == Breaker(Closed, 0, 0, now)
      ensures failureThreshold == DefaultFailureThreshold && resetTimeout == DefaultResetTimeout
    {
      this.id := id;
      this.addr := addr;
      this.weight := weight;
      this.timeout := timeout;
      isUnixSocket := UnixPrefix <= addr;
      socketPath := if UnixPrefix <= addr then addr[|UnixPrefix|..] else "";
      failureThreshold := DefaultFailureThreshold;
      resetTimeout := DefaultResetTimeout;
      alive := true;
      currentWeight := weight;
      totalRequests := 0;
      responseTime := 0;
      breaker := Breaker(Closed, 0, 0, now);
      lastAccess := now;
      avgLatency := 0;
    }

    /** A health verdict; a down verdict also counts as a failure (but never trips the breaker). */
    method SetAlive(up: bool)
      modifies this`alive, this`breaker
      ensures alive == up
      ensures breaker == if up then old(breaker) else old(breaker).(failCount := old(breaker).failCount + 1)
    {
      if !up {
        breaker := breaker.(failCount := breaker.failCount + 1);
      }
      alive := up;
    }

    method IncrementRequests()
      modifies this`totalRequests
      ensures totalRequests == old(totalRequests) + 1
    {
      totalRequests := totalRequests + 1;
    }

    /** `UpdateResponseTime`: the latest duration and access time, and the moving
        average moved toward the new duration. */
    method UpdateResponseTime(duration: int, now: int)
      modifies this`responseTime, this`lastAccess, this`avgLatency
      ensures responseTime == duration && lastAccess == now
      ensures avgLatency == MovingAverage(old(avgLatency), duration)
    {
      responseTime := duration;
      lastAccess := now;
      if avgLatency == 0 {
        avgLatency := duration;
      } else {
        avgLatency := Trunc(avgLatency as real * 0.9 + duration as real * 0.1);
      }
    }

    method CanAcceptRequest(now: int) returns (ok: bool)
      modifies this`breaker
      ensures (ok, breaker) == Admit(old(breaker), resetTimeout, now)
    {
      match breaker.state
      case Closed => ok := true;
      case HalfOpen => ok := true;
      case Open =>
        if now - breaker.lastStateChange > resetTimeout {
          breaker := breaker.(state := HalfOpen, lastStateChange := now);
          ok := true;
        } else {
          ok := false;
        }
    }

    method RecordSuccess(now: int)
      modifies this`breaker
      ensures breaker == OnSuccess(old(breaker), now)
    {
      breaker := breaker.(successCount := breaker.successCount + 1);
      if breaker.state == HalfOpen {
        breaker := breaker.(state := Closed, lastStateChange := now, failCount := 0);
      }
    }

    /** What `ServeHTTP` does to the chosen backend once the proxy has answered:
        count the request, store the latency, and on a 5xx answer mark the backend
        down and record a failure, otherwise record a success. */
    method RecordResponse(status: int, latency: int, now: int)
      modifies this`alive, this`totalRequests, this`responseTime, this`lastAccess, this`avgLatency, this`breaker
      ensures alive == (if status >= 500 then false else old(alive))
      ensures totalRequests == old(totalRequests) + 1
      ensures responseTime == latency && lastAccess == now
      ensures avgLatency == MovingAverage(old(avgLatency), latency)
      ensures breaker == AfterResponse(old(breaker), status, failureThreshold, now)
      ensures currentWeight == old(currentWeight)
    {
      IncrementRequests();
      UpdateResponseTime(latency, now);
      if status >= 500 {
        SetAlive(false);
        RecordFailure(now);
      } else {
        RecordSuccess(now);
      }
    }

    method RecordFailure(now: int)
      modifies this`breaker
      ensures breaker == OnFailure(old(breaker), failureThreshold, now)
    {
      breaker := breaker.(failCount := breaker.failCount + 1);
      if breaker.failCount >= failureThreshold {
        if breaker.state == Closed {
          breaker := breaker.(state := Open);
        }
        breaker := breaker.(lastStateChange := now);
      }
    }
  }
}
