/** The load balancer's `SecurityManager`: a ban table and a per-client
    sliding-window rate limiter whose table is capped by evicting the client
    seen longest ago.

    Times are Unix nanoseconds passed in as `now`. Go's map iteration order,
    which decides ties during eviction, is passed in as `order`. The Go
    entries are references updated in place; nothing else holds them, so here
    the table maps each client to an entry value and the methods store the
    updated value back. */
module Security {
  import opened Backends

  /** Hard-coded in `NewSecurityManager`. */
  const MaxTrackedIPs: int := 1000
  /** The cleanup sweep forgets clients idle for longer than this. */
  const IdleLimit: int := 10 * Minute
  /** Go's zero `time.Time` (1 January of year 1, UTC) in Unix nanoseconds: the
      `lastRequest` of a fresh entry, earlier than any clock reading. */
  const ZeroTime: int := -62_135_596_800 * Second

  datatype RateLimitEntry = RateLimitEntry(requests: seq<int>, lastRequest: int)

  type Table = map<string, RateLimitEntry>

  function FreshEntry(): RateLimitEntry {
    RateLimitEntry([], ZeroTime)
  }

  // ---------------------------------------------------------------- bans

  /** `IsBlocked`'s verdict: a ban younger than the ban duration. */
  predicate BanActive(bans: map<string, int>, ip: string, now: int, banDuration: int) {
    ip in bans && now - bans[ip] < banDuration
  }

  /** The ban table after `IsBlocked(ip)`: an expired ban of `ip` is deleted. */
  function CheckBan(bans: map<string, int>, ip: string, now: int, banDuration: int): (r: map<string, int>)
    ensures forall k :: k in r <==> k in bans && (k == ip ==> BanActive(bans, ip, now, banDuration))
    ensures forall k :: k in r ==> r[k] == bans[k]
  {
    if ip in bans && !BanActive(bans, ip, now, banDuration) then bans - {ip} else bans
  }

  /** Checking twice at the same instant gives the same answer and the same table. */
  lemma CheckBanIdempotent(bans: map<string, int>, ip: string, now: int, banDuration: int)
    ensures var r := CheckBan(bans, ip, now, banDuration);
      CheckBan(r, ip, now, banDuration) == r
      && (BanActive(r, ip, now, banDuration) <==> BanActive(bans, ip, now, banDuration))
  {
  }

  // ---------------------------------------------------------------- the sliding window

  /** The timestamps strictly after `cutoff`, in their original order. */
  function Recent(reqs: seq<int>, cutoff: int): (r: seq<int>)
    ensures |r| <= |reqs|
    ensures forall i :: 0 <= i < |r| ==> r[i] > cutoff
    ensures forall x :: x in reqs && x > cutoff <==> x in r
  {
    if |reqs| == 0 then []
    else
      var n := |reqs| - 1;
      assert reqs == reqs[..n] + [reqs[n]];
      Recent(reqs[..n], cutoff) + (if reqs[n] > cutoff then [reqs[n]] else [])
  }

  /** The filtering loop of `CheckDDoS`. */
  method KeepRecent(reqs: seq<int>, cutoff: int) returns (valid: seq<int>)
    ensures valid == Recent(reqs, cutoff)
  {
    valid := [];
    var i := 0;
    while i < |reqs|
      invariant 0 <= i <= |reqs|
      invariant valid == Recent(reqs[..i], cutoff)
    {
      assert reqs[..i + 1][..i] == reqs[..i];
      if reqs[i] > cutoff {
        valid := valid + [reqs[i]];
      }
      i := i + 1;
    }
    assert reqs[..|reqs|] == reqs;
  }

  /** A window that only ever receives timestamps in increasing order stays
      increasing after filtering and appending a later time. */
  predicate Increasing(s: seq<int>) {
    forall i, j :: 0 <= i < j < |s| ==> s[i] < s[j]
  }

  lemma AppendIncreasing(s: seq<int>, x: int)
    requires Increasing(s) && forall i :: 0 <= i < |s| ==> s[i] < x
    ensures Increasing(s + [x])
  {
  }

  lemma {:induction false} RecentKeepsOrder(reqs: seq<int>, cutoff: int)
    requires Increasing(reqs)
    ensures Increasing(Recent(reqs, cutoff))
  {
    if |reqs| > 0 {
      var n := |reqs| - 1;
      var r := Recent(reqs[..n], cutoff);
      RecentKeepsOrder(reqs[..n], cutoff);
      if reqs[n] > cutoff {
        forall i | 0 <= i < |r| ensures r[i] < reqs[n] {
          assert r[i] in reqs[..n];
        }
        AppendIncreasing(r, reqs[n]);
      }
    }
  }

  lemma RecentIncreasing(reqs: seq<int>, cutoff: int, now: int)
    requires Increasing(reqs) && forall i :: 0 <= i < |reqs| ==> reqs[i] < now
    ensures Increasing(Recent(reqs, cutoff) + [now])
  {
    var r := Recent(reqs, cutoff);
    RecentKeepsOrder(reqs, cutoff);
    forall i | 0 <= i < |r| ensures r[i] < now {
      assert r[i] in reqs;
    }
    AppendIncreasing(r, now);
  }

  // ---------------------------------------------------------------- eviction

  /** The eviction scan of `CheckDDoS` over the keys in `order`: starting from
      ("", now), a key replaces the candidate when its last request is strictly
      earlier than the candidate's time. */
  function Scan(m: Table, order: seq<string>, now: int): (r: (string, int))
    requires forall k :: k in order ==> k in m
    ensures r.1 <= now
    ensures r.1 < now ==> r.0 in m && m[r.0].lastRequest == r.1
    ensures r.1 == now ==> r.0 == ""
  {
    if |order| == 0 then ("", now)
    else
      var p := Scan(m, order[..|order| - 1], now);
      var k := order[|order| - 1];
      if m[k].lastRequest < p.1 then (k, m[k].lastRequest) else p
  }

  /** The scan ends on a client whose last request is the earliest in the table,
      provided some last request is earlier than `now`; otherwise on "". */
  lemma {:induction false} ScanFindsOldest(m: Table, order: seq<string>, now: int)
    requires forall k :: k in order ==> k in m
    ensures var (victim, t) := Scan(m, order, now);
      (forall i :: 0 <= i < |order| ==> t <= m[order[i]].lastRequest)
      && (t < now ==> victim in order)
      && ((exists i :: 0 <= i < |order| && m[order[i]].lastRequest < now) ==> victim in order && t < now)
  {
    if |order| > 0 {
      var n := |order| - 1;
      ScanFindsOldest(m, order[..n], now);
      var p := Scan(m, order[..n], now);
      assert forall i :: 0 <= i < n ==> order[..n][i] == order[i];
      if p.1 < now {
        assert p.0 in order[..n];
      }
    }
  }

  /** The key `CheckDDoS` evicts at capacity: the scan's result, where "" means none. */
  function Victim(m: Table, order: seq<string>, now: int): string
    requires forall k :: k in order ==> k in m
  {
    Scan(m, order, now).0
  }

  /** The scanning loop of `CheckDDoS`. */
  method FindOldest(m: Table, order: seq<string>, now: int) returns (oldest: string)
    requires forall k :: k in order ==> k in m
    ensures oldest == Victim(m, order, now)
  {
    oldest := "";
    var oldestTime := now;
    var i := 0;
    while i < |order|
      invariant 0 <= i <= |order|
      invariant (oldest, oldestTime) == Scan(m, order[..i], now)
    {
      assert order[..i + 1][..i] == order[..i];
      var v := m[order[i]];
      if v.lastRequest < oldestTime {
        oldestTime := v.lastRequest;
        oldest := order[i];
      }
      i := i + 1;
    }
    assert order[..|order|] == order;
  }

  /** The table after the capacity check of `CheckDDoS`. */
  function Evict(m: Table, order: seq<string>, now: int): (r: Table)
    requires forall k :: k in order ==> k in m
    ensures r.Keys <= m.Keys
  {
    if |m| >= MaxTrackedIPs && Victim(m, order, now) != "" then m - {Victim(m, order, now)} else m
  }

  /** The table after `CheckDDoS` has recorded a request from `ip` at `now`:
      the client's window keeps the timestamps after `now - windowSize` and gains `now`. */
  function Track(m: Table, ip: string, now: int, windowSize: int): (r: Table)
    ensures r.Keys == m.Keys + {ip}
    ensures forall k :: k in m && k != ip ==> r[k] == m[k]
  {
    var e := if ip in m then m[ip] else FreshEntry();
    m[ip := e.(requests := Recent(e.requests, now - windowSize) + [now])]
  }

  /** `CheckDDoS`'s verdict: more requests in the window (this one included) than the threshold. */
  lemma DDoSVerdict(m: Table, ip: string, now: int, windowSize: int, ddosThreshold: int)
    ensures var prev := if ip in m then m[ip].requests else [];
      var w := Track(m, ip, now, windowSize)[ip].requests;
      w == Recent(prev, now - windowSize) + [now]
      && (|w| > ddosThreshold <==> |Recent(prev, now - windowSize)| >= ddosThreshold)
  {
  }

  /** The table stays within its capacity: when it is full and holds some client
      (other than "") seen before `now`, that client makes room for the newcomer. */
  lemma {:induction false} CapacityKept(m: Table, order: seq<string>, ip: string, now: int, windowSize: int)
    requires forall k :: k in m <==> k in order
    requires |m| <= MaxTrackedIPs && "" !in m
    requires exists k :: k in m && m[k].lastRequest < now
    ensures |Track(Evict(m, order, now), ip, now, windowSize)| <= MaxTrackedIPs
  {
    var k :| k in m && m[k].lastRequest < now;
    var i :| 0 <= i < |order| && order[i] == k;
    ScanFindsOldest(m, order, now);
    var e := Evict(m, order, now);
    if |m| >= MaxTrackedIPs {
      assert Victim(m, order, now) in m;
      assert |e| == |m| - 1;
    }
    assert |e.Keys + {ip}| <= |e.Keys| + 1;
  }

  // ---------------------------------------------------------------- the per-second check

  /** `CheckDoS`: within a second of the client's `lastRequest` the verdict is
      whether its window holds more than the threshold and nothing changes;
      otherwise `lastRequest` becomes `now` and the verdict is false. */
  function DoS(m: Table, ip: string, now: int, dosThreshold: int): (r: (bool, Table))
    ensures ip in r.1 && r.1.Keys == m.Keys + {ip}
    ensures forall k :: k in m && k != ip ==> r.1[k] == m[k]
  {
    var e := if ip in m then m[ip] else FreshEntry();
    if now - e.lastRequest < Second then (|e.requests| > dosThreshold, m[ip := e])
    else (false, m[ip := e.(lastRequest := now)])
  }

  lemma DoSTransition(m: Table, ip: string, now: int, dosThreshold: int)
    ensures var (flagged, r) := DoS(m, ip, now, dosThreshold);
      var e := if ip in m then m[ip] else FreshEntry();
      r[ip].requests == e.requests
      && (flagged ==> now - e.lastRequest < Second && |e.requests| > dosThreshold)
      && (r[ip].lastRequest == e.lastRequest <==> now - e.lastRequest < Second)
      && (now - e.lastRequest >= Second ==> r[ip].lastRequest == now && !flagged)
  {
  }

  /** A client that is new to the table is never flagged by `CheckDoS`: its zero
      `lastRequest` is more than a second in the past of any clock reading
      after 1970. */
  lemma NewClientPasses(m: Table, ip: string, now: int, dosThreshold: int)
    requires ip !in m && now >= 0
    ensures !DoS(m, ip, now, dosThreshold).0
  {
  }

  // ---------------------------------------------------------------- the cleanup sweep

  predicate Idle(e: RateLimitEntry, now: int) {
    now - e.lastRequest > IdleLimit
  }

  /** The rate-limit table after the sweep of `cleanupLoop`. */
  function SweepIdle(m: Table, now: int): (r: Table)
    ensures forall k :: k in r <==> k in m && !Idle(m[k], now)
    ensures forall k :: k in r ==> r[k] == m[k]
  {
    map k | k in m && !Idle(m[k], now) :: m[k]
  }

  lemma SweepIdleIdempotent(m: Table, now: int)
    ensures SweepIdle(SweepIdle(m, now), now) == SweepIdle(m, now)
  {
  }

  // ---------------------------------------------------------------- the three checks of a request

  /** The answer of the first three stages of `ServeHTTP`: 403, 429, or go on. */
  datatype Screening = Admitted | Banned | Throttled

  /** `IsBlocked`, then `CheckDDoS`, then `CheckDoS`, each run only when the one
      before let the request through: the answer, and the ban and rate tables
      afterwards. */
  function Screen(bans: map<string, int>, m: Table, order: seq<string>, ip: string, now: int,
                  ddosThreshold: int, dosThreshold: int, banDuration: int, windowSize: int)
    : (r: (Screening, map<string, int>, Table))
    requires forall k :: k in order ==> k in m
    ensures r.0 == Banned <==> BanActive(bans, ip, now, banDuration)
    ensures r.0 != Banned ==> ip in r.2
  {
    if BanActive(bans, ip, now, banDuration) then (Banned, bans, m)
    else
      var bans1 := CheckBan(bans, ip, now, banDuration);
      var m1 := Track(Evict(m, order, now), ip, now, windowSize);
      if |m1[ip].requests| > ddosThreshold then (Throttled, bans1[ip := now], m1)
      else
        var d := DoS(m1, ip, now, dosThreshold);
        (if d.0 then Throttled else Admitted, bans1, d.1)
  }

  /** A banned client changes nothing; any other request is recorded in its
      client's window, which ends with `now`. */
  lemma ScreenRecords(bans: map<string, int>, m: Table, order: seq<string>, ip: string, now: int,
                      ddosThreshold: int, dosThreshold: int, banDuration: int, windowSize: int)
    requires forall k :: k in order ==> k in m
    ensures var r := Screen(bans, m, order, ip, now, ddosThreshold, dosThreshold, banDuration, windowSize);
      (r.0 == Banned ==> r.1 == bans && r.2 == m)
      && (r.0 != Banned ==> |r.2[ip].requests| > 0 && r.2[ip].requests[|r.2[ip].requests| - 1] == now)
  {
    if !BanActive(bans, ip, now, banDuration) {
      var m1 := Track(Evict(m, order, now), ip, now, windowSize);
      DoSTransition(m1, ip, now, dosThreshold);
    }
  }

  /** A client throttled by the flood check is banned: every request it makes
      from then until the ban duration has passed is answered 403. */
  lemma FloodBans(bans: map<string, int>, m: Table, order: seq<string>, ip: string, now: int,
                  ddosThreshold: int, dosThreshold: int, banDuration: int, windowSize: int,
                  order': seq<string>, later: int)
    requires forall k :: k in order ==> k in m
    requires !BanActive(bans, ip, now, banDuration)
    requires |Track(Evict(m, order, now), ip, now, windowSize)[ip].requests| > ddosThreshold
    requires now <= later < now + banDuration
    ensures var r := Screen(bans, m, order, ip, now, ddosThreshold, dosThreshold, banDuration, windowSize);
      r.0 == Throttled
      && (forall k :: k in order' ==> k in r.2) ==>
        Screen(r.1, r.2, order', ip, later, ddosThreshold, dosThreshold, banDuration, windowSize).0 == Banned
  {
  }

  /** A client never seen before, with room in the table, is let through when the
      flood threshold is at least one. */
  lemma FirstRequestAdmitted(bans: map<string, int>, m: Table, order: seq<string>, ip: string, now: int,
                             ddosThreshold: int, dosThreshold: int, banDuration: int, windowSize: int)
    requires forall k :: k in order ==> k in m
    requires ip !in bans && ip !in m && |m| < MaxTrackedIPs
    requires now >= 0 && ddosThreshold >= 1
    ensures Screen(bans, m, order, ip, now, ddosThreshold, dosThreshold, banDuration, windowSize).0 == Admitted
  {
    var m1 := Track(Evict(m, order, now), ip, now, windowSize);
    assert m1[ip].requests == [now];
    DoSTransition(m1, ip, now, dosThreshold);
  }

  // ---------------------------------------------------------------- the manager

  class SecurityManager {
    var rateLimiters: Table
    var bannedIPs: map<string, int>
    const ddosThreshold: int
    const dosThreshold: int
    const banDuration: int
    const windowSize: int
    const maxTrackedIPs: int := MaxTrackedIPs

    constructor (ddosThreshold: int, dosThreshold: int, banDuration: int, windowSize: int)
      ensures rateLimiters == map[] && bannedIPs == map[]
      ensures this.ddosThreshold == ddosThreshold && this.dosThreshold == dosThreshold
      ensures this.banDuration == banDuration && this.windowSize == windowSize
    {
      rateLimiters := map[];
      bannedIPs := map[];
      this.ddosThreshold := ddosThreshold;
      this.dosThreshold := dosThreshold;
      this.banDuration := banDuration;
      this.windowSize := windowSize;
    }

    method IsBlocked(ip: string, now: int) returns (blocked: bool)
      modifies this`bannedIPs
      ensures blocked == BanActive(old(bannedIPs), ip, now, banDuration)
      ensures bannedIPs == CheckBan(old(bannedIPs), ip, now, banDuration)
    {
      if ip in bannedIPs {
        if now - bannedIPs[ip] < banDuration {
          return true;
        }
        bannedIPs := bannedIPs - {ip};
      }
      return false;
    }

    /** `order` lists the table's keys in the order Go's map iteration visits them. */
    method CheckDDoS(ip: string, now: int, order: seq<string>) returns (flagged: bool)
      requires forall k :: k in rateLimiters <==> k in order
      modifies this`rateLimiters, this`bannedIPs
      ensures rateLimiters == Track(Evict(old(rateLimiters), order, now), ip, now, windowSize)
      ensures flagged <==> |rateLimiters[ip].requests| > ddosThreshold
      ensures bannedIPs == if flagged then old(bannedIPs)[ip := now] else old(bannedIPs)
    {
      EvictIfFull(order, now);
      var count := TrackRequest(ip, now);
      if count > ddosThreshold {
        bannedIPs := bannedIPs[ip := now];
        return true;
      }
      return false;
    }

    /** The capacity check at the start of `CheckDDoS`. */
    method EvictIfFull(order: seq<string>, now: int)
      requires forall k :: k in rateLimiters <==> k in order
      modifies this`rateLimiters
      ensures rateLimiters == Evict(old(rateLimiters), order, now)
    {
      if |rateLimiters| >= maxTrackedIPs {
        var oldest := FindOldest(rateLimiters, order, now);
        if oldest != "" {
          rateLimiters := rateLimiters - {oldest};
        }
      }
    }

    /** The window update of `CheckDDoS`; `count` is the new window's length. */
    method TrackRequest(ip: string, now: int) returns (count: int)
      modifies this`rateLimiters
      ensures rateLimiters == Track(old(rateLimiters), ip, now, windowSize)
      ensures count == |rateLimiters[ip].requests|
    {
      if ip !in rateLimiters {
        rateLimiters := rateLimiters[ip := FreshEntry()];
      }
      var entry := rateLimiters[ip];
      var valid := KeepRecent(entry.requests, now - windowSize);
      entry := entry.(requests := valid + [now]);
      rateLimiters := rateLimiters[ip := entry];
      count := |entry.requests|;
    }

    method CheckDoS(ip: string, now: int) returns (flagged: bool)
      modifies this`rateLimiters
      ensures flagged == DoS(old(rateLimiters), ip, now, dosThreshold).0
      ensures rateLimiters == DoS(old(rateLimiters), ip, now, dosThreshold).1
    {
      if ip !in rateLimiters {
        rateLimiters := rateLimiters[ip := FreshEntry()];
      }
      var entry := rateLimiters[ip];
      if now - entry.lastRequest < Second {
        return |entry.requests| > dosThreshold;
      }
      rateLimiters := rateLimiters[ip := entry.(lastRequest := now)];
      return false;
    }

    /** The three checks as `ServeHTTP` runs them. */
    method ScreenRequest(ip: string, now: int, order: seq<string>) returns (s: Screening)
      requires forall k :: k in rateLimiters <==> k in order
      modifies this`rateLimiters, this`bannedIPs
      ensures s == Screen(old(bannedIPs), old(rateLimiters), order, ip, now, ddosThreshold, dosThreshold, banDuration, windowSize).0
      ensures bannedIPs == Screen(old(bannedIPs), old(rateLimiters), order, ip, now, ddosThreshold, dosThreshold, banDuration, windowSize).1
      ensures rateLimiters == Screen(old(bannedIPs), old(rateLimiters), order, ip, now, ddosThreshold, dosThreshold, banDuration, windowSize).2
    {
      var blocked := IsBlocked(ip, now);
      if blocked {
        return Banned;
      }
      var flood := CheckDDoS(ip, now, order);
      if flood {
        return Throttled;
      }
      var dos := CheckDoS(ip, now);
      s := if dos then Throttled else Admitted;
    }

    /** The rate-limit half of the `cleanupLoop` body. */
    method SweepRateLimiters(now: int)
      modifies this`rateLimiters
      ensures rateLimiters == SweepIdle(old(rateLimiters), now)
    {
      ghost var m0 := rateLimiters;
      var pending := rateLimiters.Keys;
      while pending != {}
        invariant pending <= m0.Keys
        invariant rateLimiters == map k | k in m0 && (k in pending || !Idle(m0[k], now)) :: m0[k]
        decreases pending
      {
        var ip :| ip in pending;
        if Idle(rateLimiters[ip], now) {
          rateLimiters := rateLimiters - {ip};
        }
        pending := pending - {ip};
      }
    }
  }
}
