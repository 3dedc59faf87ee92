/** The `LoadBalancer`: choosing a backend (`getNextBackend`), the request
    pipeline of `ServeHTTP`, client address resolution (`getClientIP`) and the
    administrative operations on the backend list and the strategy.

    The upstream exchange is not performed here: its status, body and headers
    are inputs, as are the HMAC verdict, the clock and Go's map iteration order. */
module Balancer {
  import opened Basics
  import opened Text
  import opened Sorting
  import opened Backends
  import opened Scheduler
  import opened Security
  import opened Cache
  import opened Metrics
  import opened Json
  import opened Pipeline

  datatype Strategy = RoundRobin | WeightedRoundRobin | FastestFirst

  /** The strategy names understood by the configuration and by `/admin/strategy`;
      anything else means round-robin. */
  function StrategyFromName(name: string): (s: Strategy)
    ensures s == FastestFirst <==> name == "fastest_first"
    ensures s == WeightedRoundRobin <==> name == "weighted_round_robin"
  {
    if name == "weighted_round_robin" then WeightedRoundRobin
    else if name == "fastest_first" then FastestFirst
    else RoundRobin
  }

  // ---------------------------------------------------------------- eligibility

  /** The filter of `getNextBackend`: alive, and admitted by the breaker. */
  predicate Eligible(b: Backend, now: int)
    reads b`alive, b`breaker
  {
    b.alive && Admit(b.breaker, b.resetTimeout, now).0
  }

  /** The backends the filter keeps, in list order. */
  function EligibleIn(bs: seq<Backend>, now: int): (r: seq<Backend>)
    reads bs`alive, bs`breaker
    ensures |r| <= |bs|
  {
    if |bs| == 0 then []
    else
      var n := |bs| - 1;
      EligibleIn(bs[..n], now) + (if Eligible(bs[n], now) then [bs[n]] else [])
  }

  /** The filter keeps exactly the eligible backends. */
  lemma {:induction false} EligibleInSpec(bs: seq<Backend>, now: int)
    ensures forall b :: b in EligibleIn(bs, now) <==> b in bs && Eligible(b, now)
  {
    if |bs| > 0 {
      var n := |bs| - 1;
      EligibleInSpec(bs[..n], now);
      assert bs == bs[..n] + [bs[n]];
    }
  }

  /** The filter never lists a backend twice. */
  lemma {:induction false} EligibleInDistinct(bs: seq<Backend>, now: int)
    requires Distinct(bs)
    ensures Distinct(EligibleIn(bs, now))
  {
    if |bs| > 0 {
      var n := |bs| - 1;
      assert Distinct(bs[..n]);
      EligibleInDistinct(bs[..n], now);
      EligibleInSpec(bs[..n], now);
      assert bs[n] !in bs[..n];
    }
  }

  /** The breaker after the filter has looked at `b`: `CanAcceptRequest` runs only
      for a live backend. */
  function Probed(b: Breaker, alive: bool, resetTimeout: int, now: int): Breaker {
    if alive then Admit(b, resetTimeout, now).1 else b
  }

  /** Whether a request reached the backend selection. */
  predicate Selecting(o: Outcome) {
    o.Unavailable? || o.Proxied?
  }

  /** The backend a request was proxied to, if any. */
  function Answering(o: Outcome): Backend? {
    if o.Proxied? then o.backend else null
  }

  /** The backends whose current weights a request can move: the admitted ones,
      when it reached the selection under a round-robin strategy. */
  function Stepped(o: Outcome, strategy: Strategy, eligible0: seq<Backend>): seq<Backend> {
    if Selecting(o) && strategy != FastestFirst then eligible0 else []
  }

  /** The fields of a backend that a request can change, as one value. */
  datatype Snap = Snap(alive: bool, currentWeight: int, totalRequests: int, responseTime: int,
                       lastAccess: int, avgLatency: int, breaker: Breaker)

  function SnapOf(b: Backend): Snap
    reads b
  {
    Snap(b.alive, b.currentWeight, b.totalRequests, b.responseTime, b.lastAccess, b.avgLatency, b.breaker)
  }

  function Snapshot(bs: seq<Backend>): (s: seq<Snap>)
    reads bs
    ensures |s| == |bs|
  {
    if |bs| == 0 then [] else Snapshot(bs[..|bs| - 1]) + [SnapOf(bs[|bs| - 1])]
  }

  lemma {:induction false} SnapshotAt(bs: seq<Backend>)
    ensures forall i :: 0 <= i < |bs| ==> Snapshot(bs)[i] == SnapOf(bs[i])
  {
    if |bs| > 0 {
      SnapshotAt(bs[..|bs| - 1]);
    }
  }

  /** `Prior` of backend `b` read from the snapshot `s` of the list `bs`. */
  function PriorOf(s: seq<Snap>, bs: seq<Backend>, b: Backend?): (int, Breaker)
  {
    if |bs| == 0 || |s| == 0 || b == null then (0, Breaker(Closed, 0, 0, 0))
    else if bs[0] == b then (s[0].totalRequests, s[0].breaker)
    else PriorOf(s[1..], bs[1..], b)
  }

  lemma {:induction false} PriorFrom(s: seq<Snap>, bs: seq<Backend>, b: Backend)
    requires |s| == |bs| && b in bs
    requires forall i :: 0 <= i < |bs| ==> s[i] == SnapOf(bs[i])
    ensures PriorOf(s, bs, b) == Prior(b)
  {
    if bs[0] != b {
      PriorFrom(s[1..], bs[1..], b);
    }
  }

  /** What a request leaves of backend `b`, whose fields were `s` when it came.
      Unless the request was proxied to `b`, its breaker has moved only by the
      admission probe (when `probed`) and its other fields are as they were; its
      current weight has moved only if `b` is among `stepped`. */
  predicate Kept(b: Backend, s: Snap, answering: Backend?, probed: bool, stepped: seq<Backend>, now: int)
    reads b
  {
    (b != answering ==>
      b.alive == s.alive && b.totalRequests == s.totalRequests && b.responseTime == s.responseTime
      && b.lastAccess == s.lastAccess && b.avgLatency == s.avgLatency
      && b.breaker == (if probed then Probed(s.breaker, s.alive, b.resetTimeout, now) else s.breaker))
    && (b !in stepped ==> b.currentWeight == s.currentWeight)
  }

  /** `Kept` for every backend of the list, from the snapshot `s0`. */
  predicate AllKept(bs: seq<Backend>, s0: seq<Snap>, answering: Backend?, probed: bool, stepped: seq<Backend>, now: int)
    reads bs
  {
    |s0| == |bs| && forall i :: 0 <= i < |bs| ==> Kept(bs[i], s0[i], answering, probed, stepped, now)
  }

  /** A request that changed no backend keeps them all. */
  lemma NoneMoved(bs: seq<Backend>, now: int)
    ensures AllKept(bs, Snapshot(bs), null, false, [], now)
  {
    SnapshotAt(bs);
  }

  // ---------------------------------------------------------------- fastest first

  function ResponseTimes(bs: seq<Backend>): (t: seq<int>)
    reads bs
    ensures |t| == |bs|
  {
    if |bs| == 0 then [] else ResponseTimes(bs[..|bs| - 1]) + [bs[|bs| - 1].responseTime]
  }

  lemma {:induction false} ResponseTimesAt(bs: seq<Backend>)
    ensures forall i :: 0 <= i < |bs| ==> ResponseTimes(bs)[i] == bs[i].responseTime
  {
    if |bs| > 0 {
      ResponseTimesAt(bs[..|bs| - 1]);
    }
  }

  /** Each response time paired with its position. */
  function Keyed(t: seq<int>): (p: seq<(int, int)>)
    ensures |p| == |t|
    ensures forall i :: 0 <= i < |t| ==> p[i] == (t[i], i)
  {
    seq(|t|, i requires 0 <= i < |t| => (t[i], i))
  }

  predicate Faster(p: (int, int), q: (int, int)) {
    p.0 < q.0
  }

  lemma FasterStrictWeak(s: seq<(int, int)>)
    ensures StrictWeakOn(s, Faster)
  {
  }

  /** The `FastestFirst` branch: sort by response time as `sort.Slice` does and take
      the first. The result has the least response time of all. */
  method SelectFastest(bs: seq<Backend>) returns (chosen: Backend)
    requires |bs| > 0
    ensures chosen in bs
    ensures forall b :: b in bs ==> chosen.responseTime <= b.responseTime
  {
    var times := ResponseTimes(bs);
    ResponseTimesAt(bs);
    var keyed := Keyed(times);
    FasterStrictWeak(keyed);
    var sorted := SortBy(keyed, Faster);
    assert sorted[0] in multiset(keyed);
    var first := sorted[0].1;
    assert 0 <= first < |bs| && sorted[0] == keyed[first];
    chosen := bs[first];
    forall b | b in bs ensures chosen.responseTime <= b.responseTime {
      var j :| 0 <= j < |bs| && bs[j] == b;
      assert keyed[j] in multiset(sorted);
      var p :| 0 <= p < |sorted| && sorted[p] == keyed[j];
      if p > 0 {
        assert !Faster(sorted[p], sorted[0]);
      }
    }
  }

  // ---------------------------------------------------------------- backend ids and the admin operations

  /** `fmt.Sprintf("backend-%d", n)`. */
  function BackendId(n: nat): string {
    "backend-" + Itoa(n)
  }

  lemma BackendIdInjective(a: nat, b: nat)
    requires BackendId(a) == BackendId(b)
    ensures a == b
  {
    var p := |"backend-"|;
    assert Itoa(a) == BackendId(a)[p..] && Itoa(b) == BackendId(b)[p..];
    DigitsValueOfNat(a);
    DigitsValueOfNat(b);
  }

  /** The ids handed out so far when `n` backends have been created. */
  function IssuedIds(n: nat): set<string> {
    set k: nat | k < n :: BackendId(k)
  }

  /** The next id is not among the issued ones, and is issued from then on. */
  lemma NextIdIsNew(n: nat)
    ensures BackendId(n) !in IssuedIds(n)
    ensures IssuedIds(n + 1) == IssuedIds(n) + {BackendId(n)}
  {
    if BackendId(n) in IssuedIds(n) {
      var k: nat :| k < n && BackendId(k) == BackendId(n);
      BackendIdInjective(k, n);
    }
  }

  function Ids(bs: seq<Backend>): (ids: seq<string>)
    ensures |ids| == |bs|
    ensures forall i :: 0 <= i < |bs| ==> ids[i] == bs[i].id
  {
    seq(|bs|, i requires 0 <= i < |bs| => bs[i].id)
  }

  /** No two backends share an id, and every id is among `issued`. */
  predicate IdsIssued(bs: seq<Backend>, issued: set<string>) {
    (forall i, j :: 0 <= i < j < |bs| ==> bs[i].id != bs[j].id)
    && (forall i :: 0 <= i < |bs| ==> bs[i].id in issued)
  }

  /** The position the delete loop stops at: the first backend with the id, or -1. */
  function FindId(ids: seq<string>, id: string): (k: int)
    ensures -1 <= k < |ids|
    ensures k == -1 <==> id !in ids
    ensures k >= 0 ==> ids[k] == id && id !in ids[..k]
  {
    if |ids| == 0 then -1
    else if ids[0] == id then 0
    else
      var k := FindId(ids[1..], id);
      assert ids[1..][..if k < 0 then 0 else k] == ids[1..if k < 0 then 1 else k + 1];
      if k == -1 then -1 else k + 1
  }

  /** The delete loop's stopping point agrees with `FindId`: `i` is the first
      position holding `id`, or the end when none does. */
  lemma {:induction false} FindFirst(ids: seq<string>, id: string, i: int)
    requires 0 <= i <= |ids|
    requires forall j :: 0 <= j < i ==> ids[j] != id
    requires i < |ids| ==> ids[i] == id
    ensures FindId(ids, id) == if i == |ids| then -1 else i
  {
    if i > 0 {
      FindFirst(ids[1..], id, i - 1);
    }
  }

  function RemoveAt<T>(s: seq<T>, k: int): (r: seq<T>)
    requires -1 <= k < |s|
    ensures k == -1 ==> r == s
    ensures k >= 0 ==> |r| == |s| - 1
    ensures k >= 0 ==> forall i :: 0 <= i < |r| ==> r[i] == s[if i < k then i else i + 1]
  {
    if k == -1 then s else s[..k] + s[k + 1..]
  }

  /** Removing the first backend with `id` takes exactly one `id` out of the ids
      when there is one, and nothing otherwise. */
  lemma RemoveFirstId(bs: seq<Backend>, id: string)
    ensures multiset(Ids(RemoveAt(bs, FindId(Ids(bs), id)))) == multiset(Ids(bs)) - multiset{id}
  {
    var ids := Ids(bs);
    var k := FindId(ids, id);
    if k == -1 {
      assert multiset(ids)[id] == 0;
    } else {
      var r := RemoveAt(bs, k);
      assert Ids(r) == ids[..k] + ids[k + 1..];
      assert ids == ids[..k] + [id] + ids[k + 1..];
      calc {
        multiset(ids);
        multiset(ids[..k] + [id] + ids[k + 1..]);
        multiset(ids[..k]) + multiset{id} + multiset(ids[k + 1..]);
        multiset(Ids(r)) + multiset{id};
      }
    }
  }

  /** With unique ids, the removal leaves no backend with `id` and keeps the other
      ids unique and issued. */
  lemma RemoveUniqueId(bs: seq<Backend>, id: string, issued: set<string>)
    requires IdsIssued(bs, issued)
    ensures var r := RemoveAt(bs, FindId(Ids(bs), id));
      (forall i :: 0 <= i < |r| ==> r[i].id != id) && IdsIssued(r, issued)
  {
    var k := FindId(Ids(bs), id);
    if k == -1 {
      forall i | 0 <= i < |bs| ensures bs[i].id != id {
        assert Ids(bs)[i] == bs[i].id;
      }
    }
  }

  /** Removing one backend leaves the others distinct. */
  lemma RemoveAtDistinct(bs: seq<Backend>, k: int)
    requires Distinct(bs) && -1 <= k < |bs|
    ensures Distinct(RemoveAt(bs, k))
  {
    var r := RemoveAt(bs, k);
    if k >= 0 {
      forall i, j | 0 <= i < j < |r| ensures r[i] != r[j] {
        assert r[i] == bs[if i < k then i else i + 1] && r[j] == bs[if j < k then j else j + 1];
      }
    }
  }

  /** The id `POST /admin/backend` gives a new backend: `backend-<number of backends>`. */
  function AsWrittenNewId(ids: seq<string>): string {
    BackendId(|ids|)
  }

  /** After a delete, that id can already be taken: start with two backends,
      delete the first, add one, and two backends are called `backend-1`. */
  lemma AsWrittenIdCollides()
    ensures var ids := RemoveAt([BackendId(0), BackendId(1)], FindId([BackendId(0), BackendId(1)], "backend-0"));
      ids == ["backend-1"] && AsWrittenNewId(ids) in ids
  {
    assert BackendId(0) == "backend-0" && BackendId(1) == "backend-1";
  }

  /** The fields `POST /admin/backend` reads: `url` (else `address`) as a string,
      and `weight` as a number truncated toward zero, 1 when absent. */
  datatype AddRequest = AddRequest(addr: string, weight: int) | AddRejected(message: string)

  function ParseAdd(body: Option<Json>): (r: AddRequest)
  {
    match DecodeObject(body)
    case None => AddRejected("Invalid JSON")
    case Some(m) =>
      var addr := if StrField(m, "url").Some? then StrField(m, "url") else StrField(m, "address");
      if addr.None? then AddRejected("Missing url or address field")
      else AddRequest(addr.value, if NumField(m, "weight").Some? then Trunc(NumField(m, "weight").value) else 1)
  }

  /** What the add handler accepts: an object (or `null`) with a string `url` or
      `address`, the URL preferred; the weight is the truncated number or 1. */
  lemma ParseAddSpec(body: Option<Json>)
    ensures var r := ParseAdd(body);
      (r == AddRejected("Invalid JSON") <==> DecodeObject(body).None?)
      && (r.AddRequest? <==>
            DecodeObject(body).Some?
            && (StrField(DecodeObject(body).value, "url").Some? || StrField(DecodeObject(body).value, "address").Some?))
      && (r.AddRequest? && "url" in DecodeObject(body).value && DecodeObject(body).value["url"].JStr? ==>
            r.addr == DecodeObject(body).value["url"].s)
      && (r.AddRequest? && "weight" !in DecodeObject(body).value ==> r.weight == 1)
      && (r.AddRequest? && "weight" in DecodeObject(body).value && DecodeObject(body).value["weight"].JNum? ==>
            var w := DecodeObject(body).value["weight"].n;
            (w >= 0.0 ==> r.weight as real <= w < r.weight as real + 1.0) && (w < 0.0 ==> r.weight as real - 1.0 < w <= r.weight as real))
  {
  }

  /** The backend an accepted `POST /admin/backend` appends: called `id`, with the
      parsed address and weight, a 10s timeout, alive and with a closed breaker. */
  predicate Added(b: Backend, id: string, r: AddRequest, now: int)
    requires r.AddRequest?
    reads b
  {
    b.id == id && b.addr == r.addr && b.weight == r.weight && b.timeout == 10 * Second
    && b.alive && b.currentWeight == b.weight && b.breaker == Breaker(Closed, 0, 0, now)
  }

  /** What `POST /admin/backend` does to the list `bs0`, naming the new backend
      `backend-<length of the list>`: a refused body answers 400 with its message
      and keeps the list; an accepted one appends one `Added` backend. */
  predicate AddedAsWritten(bs0: seq<Backend>, bs: seq<Backend>, body: Option<Json>, now: int,
                           status: int, message: string)
    reads bs
  {
    var r := ParseAdd(body);
    (r.AddRejected? ==> status == 400 && message == r.message && bs == bs0)
    && (r.AddRequest? ==>
          status == 200 && message == "Backend added"
          && |bs| == |bs0| + 1 && bs[..|bs0|] == bs0 && Added(bs[|bs0|], AsWrittenNewId(Ids(bs0)), r, now))
  }

  /** What `DELETE /admin/backend` does to the list `bs0`: an empty id answers
      400 and keeps the list; otherwise the first backend with the id, if any,
      leaves it, and the answer is the same either way. */
  predicate Removed(bs0: seq<Backend>, bs: seq<Backend>, id: string, status: int, message: string) {
    (id == "" ==> status == 400 && message == "Backend ID required" && bs == bs0)
    && (id != "" ==> status == 200 && message == "Backend removed" && bs == RemoveAt(bs0, FindId(Ids(bs0), id)))
  }

  /** A backend as `NewLoadBalancer` creates the `i`th: weight 1 and timeout 10s
      when the lists are short. */
  predicate Configured(b: Backend, i: nat, targets: seq<string>, weights: seq<int>, timeouts: seq<int>, now: int)
    requires i < |targets|
    reads b`alive, b`currentWeight, b`responseTime, b`totalRequests, b`breaker
  {
    b.id == BackendId(i) && b.addr == targets[i]
    && b.weight == (if i < |weights| then weights[i] else 1)
    && b.timeout == (if i < |timeouts| then timeouts[i] else 10 * Second)
    && b.alive && b.currentWeight == b.weight && b.totalRequests == 0 && b.responseTime == 0
    && b.breaker == Breaker(Closed, 0, 0, now)
  }

  /** The backend-creating loop of `NewLoadBalancer`. */
  method NewBackends(targets: seq<string>, weights: seq<int>, timeouts: seq<int>, now: int)
    returns (bs: seq<Backend>)
    ensures |bs| == |targets| && Distinct(bs)
    ensures forall i :: 0 <= i < |targets| ==>
      fresh(bs[i]) && Configured(bs[i], i, targets, weights, timeouts, now)
    ensures forall i :: 0 <= i < |bs| ==> bs[i].id in IssuedIds(|targets|)
    ensures forall i, j :: 0 <= i < j < |bs| ==> bs[i].id != bs[j].id
  {
    bs := [];
    var i := 0;
    while i < |targets|
      invariant 0 <= i <= |targets| && |bs| == i
      invariant forall j :: 0 <= j < i ==> fresh(bs[j]) && Configured(bs[j], j, targets, weights, timeouts, now)
      invariant Distinct(bs)
      invariant forall j :: 0 <= j < i ==> bs[j].id == BackendId(j)
    {
      var b := new Backend(BackendId(i), targets[i], if i < |weights| then weights[i] else 1,
                           if i < |timeouts| then timeouts[i] else 10 * Second, now);
      bs := bs + [b];
      i := i + 1;
    }
    forall i, j | 0 <= i < j < |bs| ensures bs[i].id != bs[j].id {
      if bs[i].id == bs[j].id {
        BackendIdInjective(i, j);
      }
    }
  }

  // ---------------------------------------------------------------- the balancer

  class LoadBalancer {
    var backends: seq<Backend>
    var strategy: Strategy
    const security: SecurityManager
    const cache: CacheManager
    const metrics: MetricsCollector
    /** How many ids have been handed out; see the findings on backend ids. */
    var nextId: nat

    /** No backend is listed twice, and the metrics have no more errors than requests. */
    predicate Valid()
      reads this, metrics
    {
      Distinct(backends) && metrics.Valid()
    }

    /** Every id is one already handed out, and no two backends share one. */
    predicate IdsValid()
      reads this
    {
      IdsIssued(backends, IssuedIds(nextId))
    }

    /** `NewLoadBalancer`: one backend per target, named `backend-<i>`, empty
        tables, and the configured strategy (round-robin unless named otherwise). */
    constructor (targets: seq<string>, weights: seq<int>, timeouts: seq<int>, strategyName: string,
                 ddosThreshold: int, dosThreshold: int, banDuration: int, windowSize: int, now: int)
      ensures Valid() && IdsValid()
      ensures |backends| == |targets| && nextId == |targets|
      ensures forall i :: 0 <= i < |targets| ==>
        fresh(backends[i]) && Configured(backends[i], i, targets, weights, timeouts, now)
      ensures strategy == StrategyFromName(strategyName)
      ensures fresh(security) && security.rateLimiters == map[] && security.bannedIPs == map[]
      ensures security.ddosThreshold == ddosThreshold && security.dosThreshold == dosThreshold
      ensures security.banDuration == banDuration && security.windowSize == windowSize
      ensures fresh(cache) && cache.cache == map[]
      ensures fresh(metrics) && metrics.totalRequests == 0 && metrics.totalErrors == 0
    {
      var bs := NewBackends(targets, weights, timeouts, now);
      backends := bs;
      nextId := |targets|;
      strategy := StrategyFromName(strategyName);
      security := new SecurityManager(ddosThreshold, dosThreshold, banDuration, windowSize);
      cache := new CacheManager();
      metrics := new MetricsCollector();
    }

    /** `getNextBackend`. Every live backend's breaker is consulted in list order
        (which may move an open breaker to half-open); of those admitted, the
        fastest is chosen under `FastestFirst` and the weighted selection is run
        under either round-robin strategy. */
    method GetNextBackend(now: int) returns (chosen: Backend?)
      requires Distinct(backends)
      modifies backends`breaker, backends`currentWeight
      ensures AllKept(backends, old(Snapshot(backends)), null, true,
                      if strategy == FastestFirst then [] else old(EligibleIn(backends, now)), now)
      ensures old(EligibleIn(backends, now)) == [] ==> chosen == null
      ensures strategy == FastestFirst ==> (chosen == null <==> old(EligibleIn(backends, now)) == [])
      ensures chosen != null ==> chosen in old(EligibleIn(backends, now))
      ensures chosen != null ==> chosen in backends && old(Eligible(chosen, now))
      ensures chosen != null ==> chosen.breaker == Admit(old(chosen.breaker), chosen.resetTimeout, now).1
      ensures chosen != null && strategy == FastestFirst ==>
        forall b :: b in old(EligibleIn(backends, now)) ==> chosen.responseTime <= b.responseTime
      ensures strategy != FastestFirst ==>
        var e := old(EligibleIn(backends, now));
        var k := Step(Weights(e), old(CurrentWeights(e))).0;
        CurrentWeights(e) == Step(Weights(e), old(CurrentWeights(e))).1
        && chosen == if k == -1 then null else e[k]
    {
      ghost var s0 := Snapshot(backends);
      EligibleInDistinct(backends, now);
      var eligible := Filter(now);
      assert forall i :: 0 <= i < |eligible| ==> eligible[i] in old(backends);
      assert CurrentWeights(eligible) == old(CurrentWeights(eligible));
      chosen := Choose(eligible, s0, now);
    }

    /** The choice among the admitted backends `eligible`, which moves only their
        current weights, and only under a round-robin strategy. */
    method Choose(eligible: seq<Backend>, ghost s0: seq<Snap>, ghost now: int) returns (chosen: Backend?)
      requires Distinct(eligible) && forall b :: b in eligible ==> b in backends
      requires AllKept(backends, s0, null, true, [], now)
      modifies eligible`currentWeight
      ensures AllKept(backends, s0, null, true, if strategy == FastestFirst then [] else eligible, now)
      ensures eligible == [] ==> chosen == null
      ensures strategy == FastestFirst ==> (chosen == null <==> eligible == [])
      ensures chosen != null ==> chosen in eligible
      ensures chosen != null && strategy == FastestFirst ==>
        forall b :: b in eligible ==> chosen.responseTime <= b.responseTime
      ensures strategy != FastestFirst ==>
        var k := Step(Weights(eligible), old(CurrentWeights(eligible))).0;
        CurrentWeights(eligible) == Step(Weights(eligible), old(CurrentWeights(eligible))).1
        && chosen == if k == -1 then null else eligible[k]
    {
      if |eligible| == 0 {
        assert Step(Weights(eligible), CurrentWeights(eligible)) == (-1, []);
        chosen := null;
      } else if strategy == FastestFirst {
        chosen := SelectFastest(eligible);
      } else {
        var k;
        chosen, k := GetWeightedBackend(eligible);
      }
      ghost var moved := if strategy == FastestFirst then [] else eligible;
      forall i | 0 <= i < |backends| ensures Kept(backends[i], s0[i], null, true, moved, now) {
        assert old(Kept(backends[i], s0[i], null, true, [], now));
      }
    }

    /** `ServeHTTP`. The client's address is resolved, then the request meets, in
        this order, the ban check (403), the flood check (429), the per-second check
        (429), the HMAC check when a signature is sent (401), the JavaScript
        challenge, the cache, and the backend selection (503 when none); a chosen
        backend's answer is passed on. Every path records exactly one request in
        the metrics, as an error exactly when `CountsAsError`. */
    method ServeHTTP(req: Request, now: int, latency: int, signatureValid: bool, upstream: Upstream,
                     order: seq<string>) returns (outcome: Outcome)
      requires Valid()
      requires forall k :: k in security.rateLimiters <==> k in order
      modifies security`rateLimiters, security`bannedIPs, cache`cache, metrics, backends
      ensures Valid()
      ensures metrics.totalRequests == old(metrics.totalRequests) + 1
      ensures metrics.totalErrors == old(metrics.totalErrors) + (if CountsAsError(outcome) then 1 else 0)
      ensures outcome.Proxied? ==> outcome.backend in old(backends)
      ensures Served(req, now, latency, signatureValid, upstream, order, outcome, security,
                     old(security.bannedIPs), old(security.rateLimiters), old(cache.cache),
                     old(EligibleIn(backends, now)), PriorOf(old(Snapshot(backends)), backends, Answering(outcome)), cache.cache)
      ensures AllKept(backends, old(Snapshot(backends)), Answering(outcome), Selecting(outcome),
                      Stepped(outcome, strategy, old(EligibleIn(backends, now))), now)
      ensures Selecting(outcome) && strategy != FastestFirst ==>
        var e := old(EligibleIn(backends, now));
        CurrentWeights(e) == Step(Weights(e), old(CurrentWeights(e))).1
    {
      ghost var s0 := Snapshot(backends);
      ghost var e0 := EligibleIn(backends, now);
      ghost var w0 := CurrentWeights(e0);
      var ip := ClientIP(req.forwardedFor, req.realIP, req.remoteAddr);
      var verdict := security.ScreenRequest(ip, now, order);
      assert Snapshot(backends) == s0 && EligibleIn(backends, now) == e0 && CurrentWeights(e0) == w0;
      outcome := Settle(verdict, req, now, latency, signatureValid, upstream);
    }

    /** The answer to the security verdict, and its record in the metrics. */
    method Settle(verdict: Screening, req: Request, now: int, latency: int, signatureValid: bool,
                  upstream: Upstream) returns (outcome: Outcome)
      requires Valid()
      modifies cache`cache, metrics, backends
      ensures Valid()
      ensures metrics.totalRequests == old(metrics.totalRequests) + 1
      ensures metrics.totalErrors == old(metrics.totalErrors) + (if CountsAsError(outcome) then 1 else 0)
      ensures outcome.Proxied? ==> outcome.backend in old(backends)
      ensures Responded(verdict, req, now, latency, signatureValid, upstream, outcome,
                        old(cache.cache), old(EligibleIn(backends, now)),
                        PriorOf(old(Snapshot(backends)), backends, Answering(outcome)), cache.cache)
      ensures AllKept(backends, old(Snapshot(backends)), Answering(outcome), Selecting(outcome),
                      Stepped(outcome, strategy, old(EligibleIn(backends, now))), now)
      ensures Selecting(outcome) && strategy != FastestFirst ==>
        var e := old(EligibleIn(backends, now));
        CurrentWeights(e) == Step(Weights(e), old(CurrentWeights(e))).1
    {
      ghost var s0 := Snapshot(backends);
      ghost var e0 := EligibleIn(backends, now);
      SnapshotAt(backends);
      forall b | b in backends ensures PriorOf(s0, backends, b) == Prior(b) {
        PriorFrom(s0, backends, b);
      }
      outcome := Respond(verdict, req, now, latency, signatureValid, upstream);
      ghost var w1 := CurrentWeights(e0);
      ghost var kept := AllKept(backends, s0, Answering(outcome), Selecting(outcome), Stepped(outcome, strategy, e0), now);
      ghost var responded := Responded(verdict, req, now, latency, signatureValid, upstream, outcome,
                                       old(cache.cache), e0, PriorOf(s0, backends, Answering(outcome)), cache.cache);
      metrics.RecordRequest(latency, CountsAsError(outcome), now);
      assert CurrentWeights(e0) == w1;
      assert AllKept(backends, s0, Answering(outcome), Selecting(outcome), Stepped(outcome, strategy, e0), now) == kept;
      assert Responded(verdict, req, now, latency, signatureValid, upstream, outcome,
                       old(cache.cache), e0, PriorOf(s0, backends, Answering(outcome)), cache.cache) == responded;
    }

    /** The answer to the security verdict. */
    method Respond(verdict: Screening, req: Request, now: int, latency: int, signatureValid: bool,
                   upstream: Upstream) returns (outcome: Outcome)
      requires Distinct(backends)
      modifies cache`cache, backends
      ensures outcome.Proxied? ==> outcome.backend in old(backends)
      ensures Responded(verdict, req, now, latency, signatureValid, upstream, outcome,
                        old(cache.cache), old(EligibleIn(backends, now)),
                        old(Prior(if outcome.Proxied? then outcome.backend else null)), cache.cache)
      ensures AllKept(backends, old(Snapshot(backends)), Answering(outcome), Selecting(outcome),
                      Stepped(outcome, strategy, old(EligibleIn(backends, now))), now)
      ensures Selecting(outcome) && strategy != FastestFirst ==>
        var e := old(EligibleIn(backends, now));
        CurrentWeights(e) == Step(Weights(e), old(CurrentWeights(e))).1
    {
      if verdict != Admitted {
        NoneMoved(backends, now);
        outcome := if verdict == Banned then Forbidden else TooManyRequests;
      } else {
        outcome := Pass(req, now, latency, signatureValid, upstream);
      }
    }

    /** The stages of `ServeHTTP` after the security checks. */
    method Pass(req: Request, now: int, latency: int, signatureValid: bool, upstream: Upstream)
      returns (outcome: Outcome)
      requires Distinct(backends)
      modifies cache`cache, backends
      ensures outcome.Proxied? ==> outcome.backend in old(backends)
      ensures Passed(req, now, latency, signatureValid, upstream, outcome,
                     old(cache.cache), old(EligibleIn(backends, now)), old(Prior(if outcome.Proxied? then outcome.backend else null)), cache.cache)
      ensures AllKept(backends, old(Snapshot(backends)), Answering(outcome), Selecting(outcome),
                      Stepped(outcome, strategy, old(EligibleIn(backends, now))), now)
      ensures Selecting(outcome) && strategy != FastestFirst ==>
        var e := old(EligibleIn(backends, now));
        CurrentWeights(e) == Step(Weights(e), old(CurrentWeights(e))).1
    {
      var cached := Lookup(cache.cache, CacheKey(req), now);
      var f := Front(req, signatureValid, cached);
      if f.Some? {
        NoneMoved(backends, now);
        outcome := f.value;
      } else {
        outcome := Forward(req, now, latency, upstream);
      }
    }

    /** Choosing a backend, and what its answer does to it and to the cache. */
    method Forward(req: Request, now: int, latency: int, upstream: Upstream) returns (outcome: Outcome)
      requires Distinct(backends)
      modifies cache`cache, backends
      ensures outcome.Proxied? ==> outcome.backend in old(backends)
      ensures Forwarded(req, now, latency, upstream, outcome,
                        old(cache.cache), old(EligibleIn(backends, now)), old(Prior(if outcome.Proxied? then outcome.backend else null)), cache.cache)
      ensures AllKept(backends, old(Snapshot(backends)), Answering(outcome), Selecting(outcome),
                      Stepped(outcome, strategy, old(EligibleIn(backends, now))), now)
      ensures Selecting(outcome) && strategy != FastestFirst ==>
        var e := old(EligibleIn(backends, now));
        CurrentWeights(e) == Step(Weights(e), old(CurrentWeights(e))).1
    {
      ghost var s0 := Snapshot(backends);
      ghost var e0 := EligibleIn(backends, now);
      ghost var moved := if strategy == FastestFirst then [] else e0;
      var chosen := GetNextBackend(now);
      assert strategy != FastestFirst ==> CurrentWeights(e0) == Step(Weights(e0), old(CurrentWeights(e0))).1;
      if chosen == null {
        return Unavailable;
      }
      Answer(chosen, upstream.status, latency, now, s0, moved, e0);
      if CacheWritable(req, upstream) {
        cache.Set(CacheKey(req), upstream.body, FirstValues(upstream.headers), DefaultTTL, now);
      }
      outcome := Proxied(chosen, upstream.status);
      assert strategy != FastestFirst ==> CurrentWeights(e0) == Step(Weights(e0), old(CurrentWeights(e0))).1;
    }

    /** What the proxied answer does to the backend that gave it; the others stay
        as the selection left them. */
    method Answer(chosen: Backend, status: int, latency: int, now: int, ghost s0: seq<Snap>, ghost moved: seq<Backend>,
                  ghost e: seq<Backend>)
      requires chosen in backends
      requires AllKept(backends, s0, null, true, moved, now)
      modifies chosen`alive, chosen`totalRequests, chosen`responseTime, chosen`lastAccess, chosen`avgLatency, chosen`breaker
      ensures AllKept(backends, s0, chosen, true, moved, now)
      ensures chosen.alive == (if status >= 500 then false else old(chosen.alive))
      ensures chosen.totalRequests == old(chosen.totalRequests) + 1
      ensures chosen.responseTime == latency
      ensures chosen.breaker == AfterResponse(old(chosen.breaker), status, chosen.failureThreshold, now)
      ensures CurrentWeights(e) == old(CurrentWeights(e))
    {
      chosen.RecordResponse(status, latency, now);
      forall i | 0 <= i < |backends| ensures Kept(backends[i], s0[i], chosen, true, moved, now) {
        assert old(Kept(backends[i], s0[i], null, true, moved, now));
      }
    }

    /** One tick of `cleanupLoop`: idle clients leave the rate-limit table and
        expired entries leave the cache. */
    method Cleanup(now: int)
      modifies security`rateLimiters, cache`cache
      ensures security.rateLimiters == SweepIdle(old(security.rateLimiters), now)
      ensures cache.cache == SweepExpired(old(cache.cache), now)
    {
      security.SweepRateLimiters(now);
      cache.Sweep(now);
    }

    /** `POST /admin/strategy`; any other method is refused with 405. */
    method SetStrategy(httpMethod: string, name: string) returns (status: int, message: string)
      modifies this`strategy
      ensures httpMethod == "POST" ==>
        status == 200 && message == "Strategy updated" && strategy == StrategyFromName(name)
      ensures httpMethod != "POST" ==>
        status == 405 && message == "Method not allowed" && strategy == old(strategy)
    {
      if httpMethod == "POST" {
        strategy := StrategyFromName(name);
        return 200, "Strategy updated";
      }
      return 405, "Method not allowed";
    }

    /** `POST /admin/backend`. The new backend is named after the length of the
        list, so after a delete its id can be one a listed backend already has
        (`AsWrittenIdCollides`). */
    method AddBackend(body: Option<Json>, now: int) returns (status: int, message: string)
      requires Valid()
      modifies this`backends
      ensures Valid()
      ensures AddedAsWritten(old(backends), backends, body, now, status, message)
      ensures |backends| > |old(backends)| ==> fresh(backends[|old(backends)|])
    {
      var r := ParseAdd(body);
      if r.AddRejected? {
        return 400, r.message;
      }
      var b := new Backend(BackendId(|backends|), r.addr, r.weight, 10 * Second, now);
      backends := backends + [b];
      return 200, "Backend added";
    }

    /** `POST /admin/backend` with the id taken from the counter `nextId` rather
        than from the length of the list: ids stay unique and issued. */
    method AddBackendFresh(body: Option<Json>, now: int) returns (status: int, message: string)
      requires Valid() && IdsValid()
      modifies this`backends, this`nextId
      ensures Valid() && IdsValid()
      ensures ParseAdd(body).AddRejected? ==>
        status == 400 && message == ParseAdd(body).message
        && backends == old(backends) && nextId == old(nextId)
      ensures ParseAdd(body).AddRequest? ==>
        status == 200 && message == "Backend added" && nextId == old(nextId) + 1
        && |backends| == |old(backends)| + 1 && backends[..|old(backends)|] == old(backends)
        && fresh(backends[|old(backends)|])
        && Added(backends[|old(backends)|], BackendId(old(nextId)), ParseAdd(body), now)
    {
      var r := ParseAdd(body);
      if r.AddRejected? {
        return 400, r.message;
      }
      NextIdIsNew(nextId);
      var b := new Backend(BackendId(nextId), r.addr, r.weight, 10 * Second, now);
      backends := backends + [b];
      nextId := nextId + 1;
      return 200, "Backend added";
    }

    /** `DELETE /admin/backend?id=...`. One backend with the id leaves the list
        (`RemoveFirstId`); when the ids were unique none with it is left. */
    method RemoveBackend(id: string) returns (status: int, message: string)
      requires Valid()
      modifies this`backends
      ensures Valid()
      ensures Removed(old(backends), backends, id, status, message)
      ensures old(IdsValid()) ==> IdsValid() && forall i :: 0 <= i < |backends| ==> backends[i].id != id
    {
      if id == "" {
        return 400, "Backend ID required";
      }
      var bs := backends;
      var i := 0;
      while i < |bs| && bs[i].id != id
        invariant 0 <= i <= |bs|
        invariant forall j :: 0 <= j < i ==> bs[j].id != id
      {
        i := i + 1;
      }
      FindFirst(Ids(bs), id, i);
      if IdsValid() {
        RemoveUniqueId(bs, id, IssuedIds(nextId));
      }
      RemoveAtDistinct(bs, FindId(Ids(bs), id));
      if i < |bs| {
        backends := bs[..i] + bs[i + 1..];
      }
      return 200, "Backend removed";
    }

    /** `/admin/backend`: POST adds, DELETE removes, anything else is refused. */
    method AdminBackend(httpMethod: string, body: Option<Json>, id: string, now: int)
      returns (status: int, message: string)
      requires Valid()
      modifies this`backends
      ensures Valid()
      ensures httpMethod == "POST" ==>
        AddedAsWritten(old(backends), backends, body, now, status, message)
        && (|backends| > |old(backends)| ==> fresh(backends[|old(backends)|]))
      ensures httpMethod == "DELETE" ==> Removed(old(backends), backends, id, status, message)
      ensures httpMethod != "POST" && httpMethod != "DELETE" ==>
        status == 405 && message == "Method not allowed" && backends == old(backends)
    {
      if httpMethod == "POST" {
        status, message := AddBackend(body, now);
      } else if httpMethod == "DELETE" {
        status, message := RemoveBackend(id);
      } else {
        status, message := 405, "Method not allowed";
      }
    }

    /** The filtering loop of `getNextBackend`. */
    method Filter(now: int) returns (eligible: seq<Backend>)
      requires Distinct(backends)
      modifies backends`breaker
      ensures eligible == old(EligibleIn(backends, now))
      ensures forall b :: b in eligible ==> b in backends && old(Eligible(b, now))
      ensures AllKept(backends, old(Snapshot(backends)), null, true, [], now)
      ensures forall b :: b in backends ==> b.breaker == Probed(old(b.breaker), b.alive, b.resetTimeout, now)
    {
      SnapshotAt(backends);
      eligible := [];
      var i := 0;
      while i < |backends|
        invariant 0 <= i <= |backends|
        invariant eligible == old(EligibleIn(backends[..i], now))
        invariant forall b :: b in eligible ==> b in backends && old(Eligible(b, now))
        invariant forall j :: 0 <= j < i ==>
          backends[j].breaker == Probed(old(backends[j].breaker), backends[j].alive, backends[j].resetTimeout, now)
        invariant forall j :: i <= j < |backends| ==> backends[j].breaker == old(backends[j].breaker)
      {
        var b := backends[i];
        assert backends[..i + 1][..i] == backends[..i];
        assert forall j :: 0 <= j < |backends| && j != i ==> backends[j] != b;
        var ok := false;
        if b.alive {
          ok := b.CanAcceptRequest(now);
        }
        if ok {
          eligible := eligible + [b];
        }
        i := i + 1;
      }
      assert backends[..|backends|] == backends;
      forall j | 0 <= j < |backends|
        ensures Kept(backends[j], old(Snapshot(backends))[j], null, true, [], now)
      {
      }
    }
  }
}
