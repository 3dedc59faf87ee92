# sudocrypt25 in Dafny

A model of the two programs in the sudocrypt25 repository, with proofs about them.

- **The load balancer** (`loadbalancer/main.go`):
  - the per-backend circuit breaker;
  - the smooth weighted round-robin and fastest-first selection;
  - the ban table and sliding-window rate limiter;
  - the TTL response cache and the integer metrics counters;
  - the request pipeline of `ServeHTTP`, client-IP resolution;
  - the admin endpoints that add or remove backends and switch strategy.
- **The CTF web application** (`handlers/`, `db/db.go`, `main.go`, `components/profile/profile.js`):
  - the key/value store with its per-namespace tables;
  - the admin list, levels and answer submission, user progress, AI leads, the leaderboard;
  - messages, logs, attempt logs and the profile page's log decoder;
  - OTP signup and login, announcements, and the `.env` loader.

Each source file becomes one module:

| source | module (file) |
|---|---|
| `loadbalancer/main.go` | `Backends` (backends.dfy), `Scheduler` (scheduler.dfy), `Security` (security.dfy), `Cache` (cache.dfy), `Metrics` (metrics.dfy), `Pipeline` (pipeline.dfy), `Balancer` (balancer.dfy) |
| `db/db.go` | `Store` (store.dfy) |
| `handlers/admin.go` | `Admins` |
| `handlers/levels.go` | `Levels` |
| `handlers/user.go` | `Users` |
| `handlers/ai.go` | `AI` |
| `handlers/leaderboard.go` | `Leaderboard` |
| `handlers/messages.go` | `Messages` |
| `handlers/logs.go` | `Logs` |
| `handlers/AttemptLogs.go` | `AttemptLogs` |
| `handlers/auth.go` | `Auth` |
| `handlers/announcements.go` | `Announcements` |
| `components/profile/profile.js` | `Profile` |
| `main.go` | `Env` |

Three modules are shared:
- `Basics` holds Go's int64 wrap-around, truncating `/` and `%`, and float truncation.
- `Text` holds string trimming, splitting, case and integer formatting.
- `Json` and `Sorting` hold the JSON value type and the sort that stands for `sort.Slice`.

Where the source mutates state, the model does too:
- Backends, the balancer, the security manager, the cache, the metrics collector, the key ring of the AI handler and the database are classes.
- Their methods state the new state exactly.
- Loops in the source are loops here, each proved against a specification function.

Each HTTP handler is split in two parts:
- a pure plan function from the tables it reads to its reply and the list of writes it makes;
- a method that reads the store, runs the plan and applies the writes.

Lemmas then relate plans across handlers. Examples:
- a signup followed by a login succeeds;
- a correct answer advances the level;
- a stored announcement is listed;
- an attempt-log line written by the server is read back by the profile page.

Time is a parameter (`now`, Unix nanoseconds for the load balancer and seconds for the application).
Digests (SHA-256, HMAC) are parameters too, and so are the replies of the Gemini API and of the upstream backend.

## Model

| member | source | states |
|---|---|---|
| Backends.StateName | loadbalancer/main.go:211-223 | The name is one of "closed", "open" and "half-open". It is "closed" exactly for Closed and "open" exactly for Open, so HalfOpen gets "half-open". |
| Backends.FailureTransition | loadbalancer/main.go:199-209 | A failure adds one to the failure count and leaves the success count alone. The state changes only from Closed, only to Open, and exactly when the new count reaches the threshold. |
| Backends.FailuresAccumulate | loadbalancer/main.go:199-209 | After k failures the count has grown by k. A closed breaker is open iff k > 0 and the count reached the threshold, and it is never half-open. An open or half-open breaker keeps its state. |
| Backends.TripsAtThreshold | loadbalancer/main.go:199-209 | A fresh closed breaker opens exactly from the fifth failure on. |
| Backends.SuccessTransition | loadbalancer/main.go:187-197 | A success adds one to the success count. It closes a half-open breaker and clears its failures. In any other state it changes nothing else, so failures never decay while closed. |
| Backends.AdmitTransition | loadbalancer/main.go:163-185 | Closed and half-open breakers admit with no change. An open one admits iff more than the reset timeout has passed since its last change, and then becomes half-open stamped now. A refusal changes nothing. |
| Backends.HalfOpenStaysAfterFailure | loadbalancer/main.go:199-209 | A failure in HalfOpen leaves the breaker half-open, because the compare-and-swap starts only from Closed, so it goes on admitting. |
| Backends.ErrorResponsesCount | loadbalancer/main.go:712-717 | Each 5xx answer adds two failures (one from `SetAlive(false)`, one from `RecordFailure`). A closed breaker opens iff the doubled count reaches the threshold. |
| Backends.ThirdErrorTrips | loadbalancer/main.go:712-717 | A fresh closed backend trips on its third 5xx answer, not its fifth. |
| Backends.Backend.constructor | loadbalancer/main.go:225-280 | `NewBackend`: the given id, address, weight and timeout; a `unix://` address sets the socket flag and the socket path to the rest of the address. The backend starts alive, with current weight equal to its weight, zero counters, last access now and average latency 0. Its breaker is closed, stamped now, with threshold 5 and reset timeout 30 s. |
| Backends.Backend.SetAlive | loadbalancer/main.go:131-138 | Sets `alive`. A down verdict also adds one failure without touching the state. |
| Backends.Backend.IncrementRequests | loadbalancer/main.go:140-142 | Adds one to the request count. |
| Backends.Backend.UpdateResponseTime | loadbalancer/main.go:144-155 | Records the last response time and the access time. The average latency becomes the duration itself when it was 0, and otherwise 0.9 of the old average plus 0.1 of the duration, truncated. |
| Backends.AverageBetween | loadbalancer/main.go:150-154 | For non-negative values, the new average lies between the old average and the new duration. |
| Backends.Backend.CanAcceptRequest | loadbalancer/main.go:163-185 | The answer and the new breaker are those of `Admit`, which AdmitTransition characterises. |
| Backends.Backend.RecordSuccess | loadbalancer/main.go:187-197 | The new breaker is `OnSuccess` of the old one. |
| Backends.Backend.RecordFailure | loadbalancer/main.go:199-209 | The new breaker is `OnFailure` of the old one at the backend's threshold. |
| Backends.Backend.RecordResponse | loadbalancer/main.go:700-720 | After a proxied answer: one more request, the latency and access time recorded, and the average latency moved as `UpdateResponseTime` says. A 5xx marks the backend down and records a failure; anything else records a success. The current weight is untouched. |
| Balancer.StrategyFromName | loadbalancer/main.go:511-515 | "fastest_first" and "weighted_round_robin" select their strategies, and every other name selects round-robin. |
| Balancer.EligibleInSpec | loadbalancer/main.go:591-596 | The filter keeps exactly the backends that are alive and whose breaker admits. |
| Balancer.EligibleInDistinct | loadbalancer/main.go:591-596 | The filtered list never holds a backend twice. |
| Balancer.SelectFastest | loadbalancer/main.go:604-608 | The backend picked under FastestFirst is in the list and has a minimal response time. |
| Balancer.BackendIdInjective | loadbalancer/main.go:493 | Different indices give different `backend-<i>` names. |
| Balancer.NextIdIsNew | loadbalancer/main.go:493 | For the counter-based naming of the corrected add, the next counter value names a backend not issued before. The issued set grows by exactly that name. |
| Balancer.FindFirst | loadbalancer/main.go:841-846 | The delete loop stops at the first backend with the id, or at the end. |
| Balancer.RemoveFirstId | loadbalancer/main.go:841-846 | Removing the first backend with an id takes exactly one copy of that id out of the multiset of ids, or none when it is absent. This holds for any list, including one with duplicate ids. |
| Balancer.RemoveAtDistinct | loadbalancer/main.go:841-846 | Removing one backend leaves the others distinct. |
| Balancer.AsWrittenIdCollides | loadbalancer/main.go:827 | As written: add two backends, delete `backend-0`, add one, and the new id `backend-<len>` is `backend-1` again. |
| Balancer.ParseAddSpec | loadbalancer/main.go:804-824 | The add body is refused with "Invalid JSON" iff it is not an object. It is accepted iff it has a string `url` or `address`, the URL preferred. The weight defaults to 1; a numeric weight is truncated toward zero. |
| Balancer.NewBackends | loadbalancer/main.go:482-495 | One fresh backend per target, named `backend-<i>`, with weight `weights[i]` or 1 and the configured timeout or 10 s. The backends are distinct and their ids unique. |
| Balancer.LoadBalancer.constructor | loadbalancer/main.go:479-522 | `NewLoadBalancer`: the backends as above, empty ban, rate-limit and cache tables, zeroed metrics, and the strategy named by the configuration. |
| Balancer.LoadBalancer.Filter | loadbalancer/main.go:591-596 | The loop returns exactly `EligibleIn` of the backends. Every backend's breaker becomes its admission probe, applied only if it is alive. Nothing else changes. |
| Balancer.LoadBalancer.GetNextBackend | loadbalancer/main.go:587-611 | Returns no backend when none is eligible, and under FastestFirst only then. A chosen backend was eligible and its breaker has been admitted. Under FastestFirst it has minimal response time. Otherwise it is the weighted step's pick over the eligible list, and the current weights move by that step. Every other field of every backend is kept. |
| Balancer.LoadBalancer.ServeHTTP | loadbalancer/main.go:642-731 | Every request is counted once in the metrics, as an error exactly when `CountsAsError`. The outcome, bans, rate-limit table and cache are those of the `Served` relation. Every backend other than the answering one keeps its fields; its breaker moves only by the admission probe when a backend was selected, and its current weight only by the weighted step. |
| Balancer.LoadBalancer.Respond | loadbalancer/main.go:645-661 | A banned or throttled client gets its refusal. Otherwise the answer is `Passed`. Backends other than the answering one keep their fields, up to the probe and the weighted step. |
| Balancer.LoadBalancer.Pass | loadbalancer/main.go:664-694 | Signature, challenge and cache stages run in that order before forwarding. When one of them answers, every backend keeps its fields. |
| Balancer.LoadBalancer.Forward | loadbalancer/main.go:696-730 | With no eligible backend the answer is 503. Otherwise the chosen backend records the answer, and a cacheable answer is stored for 5 minutes. Every other backend keeps its fields, up to the probe and the weighted step. |
| Balancer.LoadBalancer.Cleanup | loadbalancer/main.go:524-546 | One sweep drops rate-limit entries idle for more than 10 minutes and cache entries past their expiry. Nothing else is dropped. |
| Balancer.LoadBalancer.SetStrategy | loadbalancer/main.go:857-876 | POST sets the strategy named by the form and answers "Strategy updated". Any other method answers 405 and changes nothing. |
| Balancer.LoadBalancer.AddBackend | loadbalancer/main.go:803-832 | As written: a refused body answers 400 with its message and keeps the list. An accepted one answers "Backend added" and appends one fresh backend named `backend-<len>` after the old list. It carries the parsed address and weight, a 10 s timeout, and starts alive and closed. |
| Balancer.LoadBalancer.RemoveBackend | loadbalancer/main.go:834-850 | An empty id answers 400 and keeps the list. Otherwise the first backend with the id is removed and the rest keep their order; the answer is "Backend removed" whether or not one was found. When ids were unique before, they stay unique and none with that id remains. |
| Balancer.LoadBalancer.AdminBackend | loadbalancer/main.go:802-855 | POST does exactly what `AddBackend` does, DELETE exactly what `RemoveBackend` does, and any other method answers 405 "Method not allowed" with the list unchanged. |
| Balancer.LoadBalancer.Choose | loadbalancer/main.go:598-611 | The switch on the strategy over the eligible list. No backend iff the list is empty (under FastestFirst). A chosen backend is in the list. Under FastestFirst it has minimal response time and no weight moves. Otherwise the pick is the weighted step's, the eligible weights move by that step, and every other field of every backend is unchanged. |
| Balancer.LoadBalancer.Answer | loadbalancer/main.go:700-720 | The chosen backend records the proxied answer: one more request, the latency, marked down on a 5xx, and the breaker moved by `AfterResponse`. Every other backend is unchanged, and no current weight moves. |
| Balancer.LoadBalancer.Settle | loadbalancer/main.go:645-730 | The stages after the security screen, then the metrics. The request is counted once, and as an error exactly when `CountsAsError`. The outcome and cache follow `Responded` from the answering backend's state before the request. Every other backend keeps its fields, except the breaker probe while selecting and the weighted step of the eligible list. |
| Balancer.RemoveUniqueId | loadbalancer/main.go:841-846 | When the backends have unique issued ids, deleting the first one with an id leaves no backend with that id. The remaining ids are still unique and issued. |
| Balancer.LoadBalancer.AddBackendFresh | loadbalancer/main.go:803-832 | The corrected add. Answers are the same as AddBackend's: a refused body gets 400 and its message, and nothing changes. An accepted one gets 200 "Backend added" and appends one fresh backend, built as `NewBackend` would, named from a counter that only grows. The older backends stay in place, and ids stay unique and issued. |
| Basics.WrapInt64 | handlers/auth.go:73-78 | The result is in int64 range and congruent to the input modulo 2^64. |
| Basics.GoDiv | handlers/auth.go:81 | Go's division by a positive divisor truncates toward zero. For a non-negative dividend the quotient is the largest q with q*b <= a. For a negative one it is the smallest q with a <= q*b, so q*b never passes a on the far side of zero. |
| Basics.GoMod | handlers/auth.go:81 | Go's remainder satisfies `a == GoDiv(a, b) * b + r`. It lies in [0, b) for a non-negative dividend and in (-b, 0] for a negative one. |
| Basics.Trunc | handlers/announcements.go:45-50 | Truncation toward zero of a float: the integer lies within one of the value, on the side of zero. |
| Cache.Put | loadbalancer/main.go:414-422 | The key's entry is replaced and expires `ttl` after now. |
| Cache.PutThenLookup | loadbalancer/main.go:405-422 | A stored response is returned unchanged, with its headers, before it expires, and is not found from its expiry on. |
| Cache.PutOthers | loadbalancer/main.go:414-422 | Storing one key leaves every other key's lookup unchanged. |
| Cache.SweepInvisible | loadbalancer/main.go:538-544 | The sweep never changes a lookup at or after the sweep time. |
| Cache.CacheManager.Get | loadbalancer/main.go:405-412 | Answers `Lookup` of the table. |
| Cache.CacheManager.Set | loadbalancer/main.go:414-422 | The table becomes `Put` of the old table. |
| Cache.CacheManager.Sweep | loadbalancer/main.go:538-544 | The table becomes `SweepExpired` of the old table. |
| Metrics.MinuteOf | loadbalancer/main.go:439 | The minute bucket of a time contains that time. |
| Metrics.Bump | loadbalancer/main.go:440-443 | One minute's count goes up by one and every other minute's count is unchanged. |
| Metrics.MetricsCollector.RecordRequest | loadbalancer/main.go:431-446 | One more request, one more error iff it is one, the latency added, and the current minute's buckets bumped. Errors never exceed requests. |
| Metrics.MetricsCollector.RecentRequests | loadbalancer/main.go:472-477 | The count of the current minute's bucket. |
| Pipeline.ClientIP | loadbalancer/main.go:733-745 | With `X-Forwarded-For` set, the IP is its longest prefix without a comma, which ends at the first comma or the end. Otherwise it is `X-Real-IP` when set. Otherwise it is the longest prefix of `RemoteAddr` without a `:`. |
| Pipeline.ErrorsAreFailures | loadbalancer/main.go:642-720 | The balancer's own answers count as errors exactly when they are 4xx or 5xx. A proxied answer counts only when it is 5xx. |
| Pipeline.StoredIsServed | loadbalancer/main.go:681-730 | An answer the pipeline stores is readable by the same request and is served unchanged until five minutes have passed. |
| Pipeline.Front | loadbalancer/main.go:664-690 | A bad signature is refused first. Then a challenge request gets the challenge. Then a cached GET outside `/api/` is served from the cache. |
| Scheduler.PickSpec | loadbalancer/main.go:622-630 | The pick is the first position with the strictly greatest incremented weight, and is none iff every incremented weight is at most -1. |
| Scheduler.StepSum | loadbalancer/main.go:613-640 | When a backend is picked, the sum of the current weights is unchanged by a step. |
| Scheduler.NoneChosen | loadbalancer/main.go:613-640 | No backend is picked iff every incremented weight is at most -1, so never when all weights are non-negative. |
| Scheduler.FiveOneOne | loadbalancer/main.go:613-640 | With weights [5,1,1] starting at their weights, seven picks choose the first backend five times and each other once, and the weights come back to [5,1,1]. |
| Scheduler.AddAllWeights | loadbalancer/main.go:614-620 | Each current weight grows by its weight, and the total is the sum of the weights. |
| Scheduler.SelectMax | loadbalancer/main.go:622-631 | The loop finds `Pick` of the current weights. |
| Scheduler.GiveBack | loadbalancer/main.go:633-637 | The selected backend's current weight drops by the total weight and no other changes. |
| Scheduler.GetWeightedBackend | loadbalancer/main.go:613-640 | The pick and the new current weights are those of one `Step`. |
| Security.CheckBan | loadbalancer/main.go:296-306 | Only an expired ban of the checked address is deleted. |
| Security.CheckBanIdempotent | loadbalancer/main.go:296-306 | Checking twice changes nothing more, and the verdict is the same. |
| Security.Recent | loadbalancer/main.go:334-339 | The kept timestamps are exactly those strictly after the cutoff. |
| Security.KeepRecent | loadbalancer/main.go:334-340 | The filtering loop computes `Recent`. |
| Security.RecentIncreasing | loadbalancer/main.go:334-341 | Filtering keeps timestamps in increasing order, and appending now keeps it so. |
| Security.ScanFindsOldest | loadbalancer/main.go:312-323 | The eviction scan finds the entry with the earliest last request, if any is earlier than now. |
| Security.FindOldest | loadbalancer/main.go:312-320 | The scanning loop finds the scan's victim. |
| Security.Track | loadbalancer/main.go:325-341 | The address gets an entry, and every other entry is unchanged. |
| Security.DDoSVerdict | loadbalancer/main.go:331-346 | The window becomes the recent timestamps plus now. The address is flagged iff more than the threshold remain. |
| Security.CapacityKept | loadbalancer/main.go:311-327 | When an entry is older than now, eviction keeps the table within 1000 addresses after tracking a new one. |
| Security.DoSTransition | loadbalancer/main.go:350-367 | Under a second since the last request: flagged iff more requests than the threshold, with no change. Otherwise the last request becomes now and the verdict is false. |
| Security.NewClientPasses | loadbalancer/main.go:350-367 | An address never seen is not flagged by the DoS check. |
| Security.SweepIdleIdempotent | loadbalancer/main.go:530-536 | Sweeping twice at the same time is sweeping once. |
| Security.Screen | loadbalancer/main.go:645-661 | The client is banned iff its ban is active; otherwise it is tracked. |
| Security.ScreenRecords | loadbalancer/main.go:645-661 | A banned client changes nothing. Any other client's last recorded request is now. |
| Security.FloodBans | loadbalancer/main.go:296-346 | A client over the DDoS threshold is throttled and is then refused as banned for the ban duration. |
| Security.FirstRequestAdmitted | loadbalancer/main.go:296-367 | A first request from a new address, with room in the table, is admitted. |
| Security.SecurityManager.IsBlocked | loadbalancer/main.go:296-306 | Blocked iff the ban is active, and the table becomes `CheckBan` of it. |
| Security.SecurityManager.CheckDDoS | loadbalancer/main.go:308-348 | The table after eviction and tracking; flagged iff the window exceeds the threshold, and then banned at now. |
| Security.SecurityManager.EvictIfFull | loadbalancer/main.go:311-323 | The table becomes `Evict` of it. |
| Security.SecurityManager.TrackRequest | loadbalancer/main.go:325-341 | The table becomes `Track` of it, and the count is the new window's length. |
| Security.SecurityManager.CheckDoS | loadbalancer/main.go:350-367 | The verdict and table are those of `DoS`. |
| Security.SecurityManager.ScreenRequest | loadbalancer/main.go:645-661 | The ban, DDoS and DoS checks in order give `Screen`'s verdict and tables. |
| Security.SecurityManager.SweepRateLimiters | loadbalancer/main.go:530-536 | The table becomes `SweepIdle` of it. |
| Admins.EntriesHas | handlers/admin.go:18-25 | Every field that normalises to something non-empty is an entry. |
| Admins.EntriesFrom | handlers/admin.go:18-25 | Every entry is the non-empty normal form of some field. |
| Admins.Collect | handlers/admin.go:18-25 | The loop over the fields collects exactly `EntriesOf` the fields. |
| Admins.Admins.constructor | handlers/admin.go:9-27 | `NewAdmins`: the set holds exactly the entries of the trimmed, unbracketed, comma-split list. |
| Admins.IsAdminListed | handlers/admin.go:29-36 | `IsAdmin` is false for a nil list and an empty one. Otherwise it holds iff the lowercased, trimmed email is in the set. |
| Admins.BlankAdmitsNobody | handlers/admin.go:11-32 | A blank or white-space-only list gives an empty set, and then nobody is an admin. |
| Admins.EntriesNormalised | handlers/admin.go:20-24 | Every stored entry is non-empty and lowercase, and neither starts nor ends with a quote or a space. |
| Admins.LookupInsensitive | handlers/admin.go:33-35 | Two emails equal up to case and surrounding white space are both admins or both not. |
| Admins.PlainFields | handlers/admin.go:15-18 | A plain comma-separated list splits back into its fields, with or without enclosing brackets. |
| Admins.PlainList | handlers/admin.go:9-35 | For a plain list of emails, exactly the listed emails, in any case, are admins. |
| Admins.PlainBracketed | handlers/admin.go:15-17 | Brackets around a plain list change nothing. |
| Admins.PlainEntries | handlers/admin.go:18-25 | The entries of plain fields are exactly their lowercase forms, and there is at least one. |
| Env.Environment.Load | main.go:37-52 | The variables after the loop are `Loaded` of the lines, applied in file order. |
| Env.SkipsBlankAndComments | main.go:38-41 | A blank line or one starting with `#` after trimming sets nothing. |
| Env.SkipsWithoutEquals | main.go:42-45 | A line without `=` sets nothing. |
| Env.ParsedAtFirstEquals | main.go:42-50 | A parsed line is split at its first `=`. The key is the trimmed text before it and the value the unquoted trimmed text after it, which may itself hold `=`. |
| Env.LineRoundTrip | main.go:38-50 | `key=value` with a trimmed key without `=` and a trimmed unquoted value parses back to the pair. |
| Env.QuotedRoundTrip | main.go:48-50 | `key="value"` parses to the value without its quotes, whatever it holds. |
| Env.ParseAtKey | main.go:42-50 | A trimmed key, `=` and a trimmed value parse to the key and the unquoted value. |
| Env.LastWins | main.go:37-52 | The last line that sets a key decides its value. |
| Env.Untouched | main.go:37-52 | A key no line sets keeps its earlier value, or stays unset. |
| Store.HintKey | db/db.go:125-130 | A `hints` key is refused iff it has no `/`. Otherwise it splits at its first `/`, the level holds no `/`, and level, `/` and hint give the key back. |
| Store.HintKeyRequired | db/db.go:125-130 | `Set` and `Delete` on `hints` with a key without `/` fail with "invalid hints key" and change nothing. |
| Store.HintThenGet | db/db.go:125-225 | A hint set under `level/id` appears under `id`, with the set value, in the object `Get("hints", level)` prints. |
| Store.HintKeyOf | db/db.go:125-133 | A key `level/id` whose level holds no `/` splits back into level and id. |
| Store.AllHints | db/db.go:336-337 | Every listed key splits at its last `/` into a stored hint's level and id, and lists that hint. |
| Store.AllHintsComplete | db/db.go:432-440 | Every stored hint whose level has no `/` is listed under `level/id`, with its text. |
| Store.HintListed | db/db.go:336-337 | After a hint is set under `level/id`, `GetAll("hints")` lists it under that key with the set value. |
| Store.LogRoundTrip | db/db.go:134-148 | Splitting `namespace|event|data` gives the three pieces back when the first two hold no `|`; the data may hold `|`. |
| Store.LogShort | db/db.go:134-148 | A `logs` value without `|` is the namespace alone; event and data are empty. |
| Store.LogAppends | db/db.go:134-148 | A `logs` write appends exactly one row with the next id, the split fields and the time, and leaves the users and messages tables alone. |
| Store.MessageRoundTrip | db/db.go:155-176 | Five pipe-joined parts, the first four without `|`, become the object with `from`, `to`, `level_id`, `type` and `content` holding those parts. |
| Store.Merge | db/db.go:86-112 | The merged user keeps every field other than `name`, `points` and `time`. It takes `points` and `time` from the leaderboard value when present, and `name` only when it is a non-empty string. |
| Store.LeaderboardKeepsFields | db/db.go:86-112 | A `leaderboard` write to an existing user stores the merge of the user and the value. |
| Store.LeaderboardFreshRecord | db/db.go:95-111 | A `leaderboard` write for an unknown key stores the merge of `{"email": key}` and the value. |
| Store.LeaderboardDelete | db/db.go:272-286 | Deleting from `leaderboard` keeps the user but drops its `points` and `time`. |
| Store.UsersAlias | db/db.go:77-228 | `accounts`, `registration`, `users` and every unknown namespace write the users table. A value set under one reads back under any of them and under `leaderboard`. |
| Store.SetThenGet | db/db.go:80-202 | Each single-key table reads back the value set under its own namespace. |
| Store.EmailsRecordTime | db/db.go:83-243 | `emails` stores only the time of the write; `Get` prints that time in decimal, not the value. |
| Store.KeepMessages | db/db.go:257-261 | The kept rows are exactly those the delete's condition does not match, and there are no more of them than before. |
| Store.DeleteMessagesExactly | db/db.go:257-261 | Deleting `messages/<email>` with a type removes exactly the messages from or to that address of that type. |
| Store.MessagePayload | db/db.go:366-378 | A row whose data decodes to `null` yields nothing, because the Go map is nil. Otherwise the payload carries `id`, `created_at` and `read` from the row. It keeps every other member of a decoded object. Data that is not an object becomes `content`. It holds no other key. |
| Store.Database.Set | db/db.go:74-182 | The new tables and the status are those of the specification function for the old tables. |
| Store.Database.Get | db/db.go:184-254 | The result is the specification function of the tables. |
| Store.Database.Delete | db/db.go:256-312 | The new tables and the status are those of the specification function for the old tables. |
| Store.Database.Apply | db/db.go:74-312 | A loop of writes leaves the tables and statuses that `ApplyAll` gives. |
| Store.Database.GetAll | db/db.go:314-440 | The listing is the specification function of the tables, with one case per namespace. |
| Store.ScanMessages | db/db.go:361-383 | The loop over the message rows gives the listing `AllMessages` defines, keyed by row id. It gives none when some row's data decodes to `null`, because adding `id` to the nil map panics. |
| Store.ScanLogs | db/db.go:384-431 | The loop over the log rows gives the listing `AllLogs` defines, keyed by row id. |
| Store.MessagesPanicSticks | db/db.go:372-378 | Once a prefix of the rows fails to list, the whole listing fails. |
| Levels.LevelIDValid | handlers/levels.go:29-32 | An ID built as `type-number` is valid iff the type is `ctf` or `cryptic` and the number is not negative. |
| Levels.PrefixMismatch | handlers/levels.go:29-32 | An ID whose type is another word does not match that word's prefix. |
| Levels.LevelRoundTrip | handlers/levels.go:20-93 | Decoding a marshalled level gives it back, including the two members left out when empty. |
| Levels.LevelAt | handlers/levels.go:82-95 | A level is found only for a valid ID that is stored and decodes; for a valid stored ID the result is its decoding. |
| Levels.GetLevel | handlers/levels.go:82-95 | The method returns the level `LevelAt` defines. |
| Levels.SetLevel | handlers/levels.go:34-63 | The new tables and the status are those of `SetLevelT`. |
| Levels.SetLevelStores | handlers/levels.go:41-56 | An invalid ID gives 400 and changes nothing. A valid one gives 200 and stores the new answer, markup and source, the hash of the new answer and the previous record's leads flag. Every other level is unchanged. |
| Levels.DeleteLevel | handlers/levels.go:65-80 | The new tables and the status are those of `DeleteLevelT`. |
| Levels.DeleteLevelRemoves | handlers/levels.go:69-76 | An invalid ID gives 400 and changes nothing. A valid one gives 200, and the level is gone while every other level is unchanged. |
| Levels.AllLevels | handlers/levels.go:97-110 | The result holds exactly the stored keys whose value decodes, each with its decoding. |
| Levels.GetAllLevels | handlers/levels.go:97-110 | The loop over the stored levels gives `AllLevels`. |
| Levels.Classify | handlers/levels.go:131-140 | A classified key keeps its ID and level. |
| Levels.Bucket | handlers/levels.go:130-146 | Every item in a bucket has the bucket's type. |
| Levels.BucketMembers | handlers/levels.go:130-146 | An item is in a bucket iff it has that type, its key is visited, and its key classifies to it. |
| Levels.BucketSound | handlers/levels.go:130-146 | Every item in a bucket has that type, a visited key, and classifies from it. |
| Levels.BucketComplete | handlers/levels.go:130-146 | Every visited key that classifies to the bucket's type is in the bucket. |
| Levels.ItemStrictWeak | handlers/levels.go:147-148 | Comparing by number is a strict weak order, as `sort.Slice` needs. |
| Levels.Section | handlers/levels.go:147-148 | A section is a permutation of its bucket, sorted by number ascending, and all of one type. |
| Levels.InSection | handlers/levels.go:147-148 | Sorting keeps every item of the bucket. |
| Levels.Rendered | handlers/levels.go:168-179 | An empty section renders nothing. A non-empty one renders its heading, then one card per item in order. |
| Levels.Buckets | handlers/levels.go:128-146 | The loop fills the two buckets `Bucket` defines. |
| Levels.RenderSection | handlers/levels.go:152-179 | The loop renders `Rendered` of the section and adds each item to the data map. |
| Levels.AdminLevels | handlers/levels.go:112-183 | The listing is `AdminListing` of the decoded levels. |
| Levels.RenderLevels | handlers/levels.go:128-183 | Buckets, sorts and renders both sections as `AdminListing` defines. |
| Levels.DataKeys | handlers/levels.go:165 | A key is in the data map iff some rendered item has it. |
| Levels.ListingExactly | handlers/levels.go:130-165 | A key is in the listing's data map iff it is stored and is `cryptic-<int>` or `ctf-<int>`, so IDs of any other type are omitted. |
| Levels.ListedShown | handlers/levels.go:130-179 | Every listable level appears among the rendered items. |
| Levels.ShownListed | handlers/levels.go:130-179 | Every rendered item is a stored, listable level. |
| Levels.FoundIn | handlers/levels.go:168-179 | An item of either section appears in the combined listing. |
| Levels.ListingOrder | handlers/levels.go:147-179 | Every cryptic item comes before every ctf item, and within a type the numbers ascend. |
| Levels.NumEntries | handlers/levels.go:239-246 | The progress map holds exactly the numeric members of the account's `levels` object, with their values. |
| Levels.NumObject | handlers/levels.go:257-258 | Storing a progress map as an object reads back the same map. |
| Levels.ReadLevels | handlers/levels.go:239-246 | The loop that copies the numeric members gives `LevelsMap` of the account. |
| Levels.Gate | handlers/levels.go:222-237 | A refusal before the answer is compared is one of disqualified, event closed and too soon. |
| Levels.SubmitRefusals | handlers/levels.go:222-237 | A disqualified account is refused with no writes. A non-admin is refused while `EVENT_ACTIVE` is `0`. A submission under one second after `last_submit` is refused with no writes, and only then. |
| Levels.SubmitPlan | handlers/levels.go:194-300 | Only a correct or incorrect answer writes anything. Both need both cookies and a current level, and the answer is correct iff the trimmed stored answer equals the trimmed submitted one. A missing level writes nothing. |
| Levels.CorrectPlan | handlers/levels.go:247-292 | A correct answer names the next level and makes the four writes of the correct branch in order: account, leaderboard, message clean-up and log. |
| Levels.SubmitCorrectAdvances | handlers/levels.go:255-281 | After a correct answer, the stored account's level of the type is one more than before and every other type's level is unchanged. `last_submit` is now, and `points` is cryptic plus ctf. |
| Levels.CorrectAccountLevels | handlers/levels.go:257-276 | The record a correct answer stores has exactly that advanced progress, time and total. |
| Levels.CorrectUsers | handlers/levels.go:256-281 | The users table after a correct answer holds the merged advanced account, and no other user changes. |
| Levels.UsersAfterFour | handlers/levels.go:261-281 | The account write, then the leaderboard write, the message clean-up and the log leave the account merged with the leaderboard record. |
| Levels.PutBoard | handlers/levels.go:274-276 | The leaderboard write merges into the account just written. |
| Levels.ClearKeepsUsers | handlers/levels.go:278 | Clearing the player's messages leaves the users table alone. |
| Levels.LogKeepsUsers | handlers/levels.go:280-281 | The log write leaves the users table alone. |
| Levels.SubmitIncorrectKeeps | handlers/levels.go:293-299 | An incorrect answer stores the account with only `last_submit` changed, so every level is unchanged. |
| Levels.UsersAfterTwo | handlers/levels.go:293-298 | The incorrect branch's writes leave the users table with only the account replaced. |
| Levels.Blank | handlers/levels.go:286-288 | A level shown to a player is the stored one with its answer emptied. |
| Levels.ReplyOf | handlers/levels.go:283-291 | A success reply comes only from a correct answer and carries the next level with its answer blanked, or nothing. |
| Levels.Submit | handlers/levels.go:194-300 | The new tables are the plan's writes applied to the old ones, and the reply is `ReplyOf` the verdict. |
| Levels.SubmitAnswer | handlers/levels.go:247-300 | The branch after the refusals applies the plan's writes and replies with `ReplyOf`. |
| Levels.RecordCorrect | handlers/levels.go:256-291 | The correct branch applies the four writes and replies with the next level. |
| Levels.WriteCorrect | handlers/levels.go:256-281 | The writes of the correct branch, step by step, are `CorrectOps`. |
| Levels.NextLevelReply | handlers/levels.go:283-290 | The reply carries the next level with its answer blanked. |
| Levels.RecordIncorrect | handlers/levels.go:293-298 | The incorrect branch applies `IncorrectOps`. |
| Levels.CurrentPlan | handlers/levels.go:402-450 | Without either cookie the reply is 401. Otherwise the player's level is shown with its answer blanked, or the placeholder when it is missing. |
| Levels.CurrentLevel | handlers/levels.go:402-450 | The method returns `CurrentPlan` of the tables. |
| Levels.CurrentAfterCorrect | handlers/levels.go:402-450 | After a correct answer, the current-level view shows exactly the next level the reply carried, or the placeholder when there is none. |
| Users.Pairs | handlers/user.go:117-120 | An entry of a progress object is kept iff it is an array of at least two elements. |
| Users.PairsRoundTrip | handlers/user.go:115-121 | Reading back a progress object written from a map of pairs gives that map. |
| Users.CopyPairs | handlers/user.go:115-121 | The copy loop keeps exactly the pair entries, as `Pairs` states. |
| Users.Shown | handlers/user.go:41-80 | Both `cryptic` and `ctf` are always reported. With no progress member they are the current cryptic level at checkpoint 0 and `ctf-0` at 0. A progress object keeps exactly its pair entries and gains only the missing defaults. |
| Users.ShowProgress | handlers/user.go:29-83 | An empty email answers 400 "missing email". Otherwise the reply is `Shown` of the stored account; a missing account reads as a fresh one. |
| Users.CurrentOf | handlers/user.go:132-140 | The `levels` loop yields the account's level of that type (0 when absent or not a number). |
| Users.Resume | handlers/user.go:140-158 | The entry names the player's current level of the type. Its checkpoint is the stored one when the stored entry names that level with a numeric checkpoint, and 0 otherwise. |
| Users.Inc | handlers/user.go:127-163 | `inc` names the current level. The checkpoint is one more than the stored one when the stored entry names that level, and 1 otherwise. It is capped at 9, and at least 1 when the stored checkpoint was in 0..9. |
| Users.SetTo | handlers/user.go:164-185 | `set` is accepted iff `progress` is an array of at least two elements that starts with a string and a number. The level is kept; the checkpoint is clamped into 0..9, and kept when already in range. |
| Users.Edited | handlers/user.go:126-190 | Succeeds iff the action is `inc`, or `set` with a valid array. A refused `set` says "bad progress"; any other action says "unknown action". On success only the entry of the request's type (default `cryptic`) is added or changed, and checkpoints in 0..9 stay in 0..9. |
| Users.SavePlan | handlers/user.go:84-200 | A write happens iff the answer is `Saved`. An unknown action with an email answers 400 "unknown action" and writes nothing. The write goes to the payload's email, is an object, and keeps every account field except `progress`. |
| Users.SaveProgress | handlers/user.go:84-200 | The answer is SavePlan's. The tables afterwards are the old ones with that one account write applied. |
| Users.StoredProgress | handlers/user.go:115-124 | The progress map the POST starts from: the pair entries of an object, or a legacy array as the `cryptic` entry. |
| Users.EditProgress | handlers/user.go:126-190 | The switch on the action yields `Edited`'s result. |
| Users.UpdateProgress | handlers/user.go:14-205 | Without a session and an admin requester it answers 401 and writes nothing. GET shows, POST saves, and any other method answers 405. Only POST writes. |
| Users.SaveThenShow | handlers/user.go:29-200 | After a successful POST, a GET for the same email reports every saved entry unchanged, plus only the `cryptic`/`ctf` defaults. |
| Users.ShownSaved | handlers/user.go:45-66 | A progress object written from a map of pairs is shown as exactly those entries plus the defaults. |
| Users.UnknownActionWritesNothing | handlers/user.go:187-189 | An action other than `inc` and `set` leaves the tables unchanged. |
| Users.UserObjects | handlers/user.go:221-229 | Only stored emails appear, each with the object its row decodes to. |
| Users.MergedAgain | handlers/user.go:230-251 | The `registration` and `leaderboard` passes add nothing, because the three namespaces are one table. |
| Users.AddParsed | handlers/user.go:230-240 | The pass adds the rows not yet present that decode to an object. |
| Users.IdNumberOfLevelID | handlers/user.go:276-281 | A level ID built as `<type>-<n>` (a type without `-`, an int64 n) reads back as n. |
| Users.LevelOf | handlers/user.go:259-293 | The listed level of a type is the number in the progress entry's level ID when it parses, and otherwise the account's `levels` value (0 when absent). |
| Users.RowsOf | handlers/user.go:253-296 | Every user appears exactly once, as the row built from its record. |
| Users.ListUsers | handlers/user.go:209-300 | Without a session and an admin requester it answers 401. Otherwise it lists every account that decodes to an object, exactly once. |
| Users.ListedAfterInc | handlers/user.go:127-296 | After a successful `inc` of `cryptic` or `ctf`, the user listing shows that user's current level for that type. |
| Users.Reset | handlers/user.go:338-373 | Fails (a Go panic) iff the account decodes to a nil map. Otherwise every field other than `levels` and `progress` is kept. A `progress` object loses only the entry of that type. A `progress` member that is not an object is kept as it was, and a missing one stays missing. |
| Users.ActionPlan | handlers/user.go:302-387 | Answers 401 iff the requester is not an authorised admin. The tables change only when the answer is success. |
| Users.UserAction | handlers/user.go:302-387 | The answer and the tables afterwards are ActionPlan's. |
| Users.DeleteRemovesUser | handlers/user.go:374-381 | `delete` succeeds and removes exactly that email's account; nothing else changes. |
| Users.ResetStored | handlers/user.go:338-373 | A successful reset stores the `Reset` record of the account it read. |
| Users.ResetLevels | handlers/user.go:339-344 | After a reset the level of that type is 0. The other type's level is kept when `levels` was an object. |
| Users.ResetShowsStart | handlers/user.go:345-348 | After a reset, GET shows `<type>-0` at checkpoint 0 for that type. |
| Users.ResetOnlyThatType | handlers/user.go:338-373 | A reset of one type sets its level to 0 and shows its start entry. The other type's level is unchanged. Its progress entry is dropped while the other type's entry is kept with its value. A `progress` member that is not an object is unchanged. |
| AI.KeysUpToHolds | handlers/ai.go:60-70 | A key is loaded iff it is non-empty and set as some `GEMINI_API_KEY_<i>` with 1 <= i <= n. |
| AI.KeyRing.Load | handlers/ai.go:60-70 | The keys are loaded once: the ring holds `Loaded` of the environment, and the rotation index is kept. |
| AI.KeyRing.Pick | handlers/ai.go:74-86 | With no keys it returns "" and leaves the index. Otherwise it returns the non-empty key at `idx mod len(keys)` and advances the index by one. |
| AI.PicksAt | handlers/ai.go:83-84 | The j-th of n successive picks is the key at `(idx + j) mod len(keys)`. |
| AI.PicksFirstRound | handlers/ai.go:83-84 | Picks from index 0 visit every key once, in order. |
| AI.PicksRange | handlers/ai.go:83-84 | Picks that stay within one round return the keys `idx .. idx+n` in order. |
| AI.PicksPeriodic | handlers/ai.go:83-84 | The rotation repeats after `len(keys)` picks. |
| AI.FirstNonBlank | handlers/ai.go:48-56 | The bot prefix is the first named field that is not blank after trimming. It is "" iff every named field is blank. |
| AI.Enabled | handlers/ai.go:436-451 | A toggle is on when absent or null. A boolean is taken as is; a number is on iff its integer part is non-zero; a string is off iff it trims and lowercases to `0`, `false` or `off`. |
| AI.ToggleLeads | handlers/ai.go:417-463 | A verb other than POST gets 405 and a non-admin gets 403, both with no write. An admin's POST stores "1" or "0" under `settings/ai_leads`, following `Enabled`. |
| AI.ToggleThenGate | handlers/ai.go:113-118 | After a toggle the stored setting reads back. The lead gate treats it as off iff the toggle was off. |
| AI.HistoryMembers | handlers/ai.go:160-220 | An entry is in the history iff some stored message about the level that involves the player or the inbox yields it. |
| AI.CollectHistory | handlers/ai.go:160-220 | The map loop enumerates every stored message once and yields `HistoryIn` in that order. |
| AI.RenderHistory | handlers/ai.go:221-235 | The builder loop writes the header and one `Speaker: content` line per entry. |
| AI.BuildPrompt | handlers/ai.go:135-236 | The history is a permutation of the selected messages, sorted by time. The prompt is the bot prefix, the instruction, the walkthrough, the question and that history. |
| AI.VerdictSound | handlers/ai.go:280-283 | A verdict is a whole word `true` or `false` with no such word before it. |
| AI.VerdictComplete | handlers/ai.go:280-283 | The first whole word `true` or `false` is the verdict. |
| AI.MatchedIndex | handlers/ai.go:329-354 | The matched part is the first one that contains the question, is contained in it, or contains one of its tokens of at least two characters. It is -1 iff there are no tokens or no part matches. |
| AI.MatchPart | handlers/ai.go:330-354 | The loop returns `MatchedIndex`. |
| AI.Advance | handlers/ai.go:355-397 | An advance names the player's current level and keeps the checkpoint in 0..9. It needs a part index below the part count. The checkpoint grows by at most one. |
| AI.AdvanceStep | handlers/ai.go:381-396 | From checkpoint c < 9 on the current level, only a matched part of index c+1 advances, and it moves the checkpoint to c+1. |
| AI.AdvanceStale | handlers/ai.go:370-396 | A stored entry for another level restarts at checkpoint 0, so only part 1 advances, to checkpoint 1. |
| AI.Ask | handlers/ai.go:238-283 | There are at most two attempts, none without keys. The result is the first attempt with a verdict. Otherwise `lastErr` is the error of the second attempt. |
| AI.AskModel | handlers/ai.go:238-283 | The loop's result is `Ask`'s. The ring advances once per attempt. |
| AI.RecordPlan | handlers/ai.go:284-401 | The question and the verdict are stored as two messages. `false` writes nothing more. `true` also writes the account iff the lead advances the player and the account is not a nil map. |
| AI.LeadGate | handlers/ai.go:88-151 | The request proceeds only as a POST with a session, a requester, a known level, a non-blank walkthrough and a question. It answers 403 "ai leads disabled" iff the setting is stored off. |
| AI.AnswerPlan | handlers/ai.go:238-412 | Keys are used iff there are any; without keys the answer is 500 "no api keys" with no writes. Writes come only with an answer. |
| AI.AnswerPlanSplit | handlers/ai.go:238-412 | Without a verdict the answer is 500 with the last error and no writes. With one, the answer and the writes are `RecordPlan`'s. |
| AI.LeadPlan | handlers/ai.go:88-415 | Keys are used only after the gate lets the request through. Writes happen only with an answer. Without keys, a request past the gate answers 500. |
| AI.Respond | handlers/ai.go:238-412 | The reply, the writes and the ring's rotation are `AnswerPlan`'s. |
| AI.AILead | handlers/ai.go:88-415 | The reply, the writes and the rotation are `LeadPlan`'s. Keys are loaded only past the gate. The prompt is built from the sorted history of that level. |
| AI.SwitchedOffRefuses | handlers/ai.go:113-118 | With `ai_leads` stored as `0` or `false`, a signed-in POST answers 403 and writes nothing. |
| AI.AdvanceStored | handlers/ai.go:392-395 | Writing the advanced entry into the account's `progress` reads back as the old progress with that one entry replaced. |
| Leaderboard.Values | handlers/leaderboard.go:69 | The map loop visits every stored record exactly once, in the enumeration order. |
| Leaderboard.DecodeAll | handlers/leaderboard.go:69-75 | The loop keeps the records that decode, in visiting order, and skips the rest. |
| Leaderboard.Board | handlers/leaderboard.go:76-81 | The board is a permutation of the decoded entries, ordered by points descending and then by time ascending. |
| Leaderboard.BoardOrdered | handlers/leaderboard.go:76-81 | An earlier board entry has more points, or equal points and no later time. |
| Leaderboard.BoardStrictWeak | handlers/leaderboard.go:76-81 | The board's comparator is a strict weak order, so the sort is well defined up to ties. |
| Leaderboard.EscapedIsInert | handlers/leaderboard.go:99-103 | Escaped names and emails contain no `<`, `>`, quote or NUL characters. |
| Leaderboard.EscapeInert | handlers/leaderboard.go:99-103 | Text without markup characters is left unchanged by escaping. |
| Leaderboard.RankCards | handlers/leaderboard.go:89-106 | The card loop yields `Cards`: one escaped card per non-admin entry, ranked from 1. |
| Leaderboard.NonAdminsMembers | handlers/leaderboard.go:90-93 | An entry gets a card iff it is on the board and is not an admin. |
| Leaderboard.RanksConsecutive | handlers/leaderboard.go:89-105 | The i-th card has rank i+1 and shows a non-admin entry of the board. |
| Leaderboard.LeaderboardHTML | handlers/leaderboard.go:63-108 | The cards are those of the board of every stored record that decodes. |
| Leaderboard.StartupListing | main.go:70-92 | The startup dump lists the board in order, numbered from 1. |
| Leaderboard.Ascending | handlers/leaderboard.go:114-117 | The order is ascending iff the parameter lowercases to `asc`; anything else is descending. |
| Leaderboard.ApiStrictWeak | handlers/leaderboard.go:136-163 | Each of the API's comparators (time, user, points, either direction) is a strict weak order. |
| Leaderboard.ApiSorted | handlers/leaderboard.go:136-164 | The API list is a permutation of its input, sorted by the comparator that `sort` and `order` choose. |
| Leaderboard.LeaderboardAPI | handlers/leaderboard.go:110-168 | The answer is the non-admin decoded records, sorted by the request's key and order. |
| Leaderboard.KeepNonAdmins | handlers/leaderboard.go:124-134 | The loop keeps the records that decode and are not admins, in visiting order. |
| Leaderboard.ApiExcludesAdmins | handlers/leaderboard.go:125-134 | An entry is listed by the API iff it decodes from a stored record and is not an admin. |
| Leaderboard.ApiOrdered | handlers/leaderboard.go:136-164 | Every earlier-later pair obeys the chosen order: time with points descending on ties, the lowercase name, or points with time on ties, each ascending or descending. |
| Leaderboard.EntryRoundTrip | handlers/leaderboard.go:18-23 | An entry encoded as JSON decodes back to itself. |
| Messages.Recipient | handlers/messages.go:58-80 | The recipient is the admin inbox when `to` names it in any letter case, and the trimmed `to` otherwise. |
| Messages.SendPlan | handlers/messages.go:29-90 | A send succeeds iff it is a POST with an `email` cookie and a non-blank `to`. Success writes one message, under the recipient, holding the five pipe-joined fields. Failure writes nothing. |
| Messages.SendMessage | handlers/messages.go:29-90 | The reply and the tables afterwards are SendPlan's. |
| Messages.AdminWritesAsInbox | handlers/messages.go:56-63 | An admin writing to anyone but the inbox sends as the inbox. A message to the inbox is addressed to it in lower case. |
| Messages.SendThenList | handlers/messages.go:81-83 | A sent message is listed under the next message id, with its five fields, the send time and unread. |
| Messages.SelectedMembers | handlers/messages.go:125-140 | A message is selected iff it decodes from a stored row and involves the target; in the admin overview, it involves the requester or the inbox. |
| Messages.CollectMessages | handlers/messages.go:125-140 | The map loop enumerates every stored message once and yields `Selected` in that order. |
| Messages.RowOf | handlers/messages.go:156-184 | `is_me` holds iff the requester sent the message. The label is `You`, otherwise the sender for an admin and the inbox for a player. The shown sender is masked as the inbox for players. The other fields are copied. |
| Messages.PlayerSeesOnlyInbox | handlers/messages.go:157-171 | A player sees every other sender as the admin inbox. |
| Messages.LabelRows | handlers/messages.go:155-185 | The loop labels every message in order. |
| Messages.ChecksumText | handlers/messages.go:142-149 | The hashed text is id, from, to and time of each message, in the sorted order. |
| Messages.Rows | handlers/messages.go:155-185 | One row per message, in order, each `RowOf` that message. |
| Messages.ListFrom | handlers/messages.go:112-187 | The listing is the selected messages sorted by creation time. A matching client checksum gives 304. Otherwise the reply carries the checksum and the labelled rows. |
| Messages.ListMessages | handlers/messages.go:92-189 | A missing session or email answers 401, and a failed read aborts. Otherwise the reply is `Answers` of the stored messages. |
| Messages.PlayerSeesOwn | handlers/messages.go:134-137 | Outside admin mode, a listed message was sent by or to the requester. |
| Logs.SelectedMembers | handlers/logs.go:52-63 | An entry is selected iff it decodes from a stored row and passes the user filter (case-insensitive) and the namespace filter. |
| Logs.CollectLogs | handlers/logs.go:52-63 | The map loop enumerates every stored row once and yields `Selected` in that order. |
| Logs.ListFrom | handlers/logs.go:51-66 | The reply is the selected entries sorted by creation time. |
| Logs.ListLogs | handlers/logs.go:22-68 | A missing session or requester answers 401. A player asking for another user answers 403, and only then. Otherwise the reply is the filtered, sorted listing. |
| Logs.PlayerSeesOwn | handlers/logs.go:41-57 | A player who filters by user sees only their own entries. |
| Logs.NoUserListsEveryone | handlers/logs.go:37-44 | Without a user filter nobody is refused, and every entry of the namespace is kept. |
| Logs.LastRowListed | db/db.go:384-431 | The newest log row is listed under its id and decodes to its entry. |
| Logs.LastRowSelected | db/db.go:384-431 | The newest row that passes the filters is selected. |
| Logs.LoggedThenListed | handlers/logs.go:46-63 | A logged event that passes the filters is listed with the next log id and the logging time. |
| AttemptLogs.Appended | handlers/AttemptLogs.go:48 | The new logs are the old ones unchanged, a newline, then `attempt+type+time`. |
| AttemptLogs.PostPlan | handlers/AttemptLogs.go:27-64 | A body that does not decode answers 400 "Invalid request". The POST saves iff the record (stored, or the fallback) decodes to an object with string `logs`. It writes that record with the line appended and every other field kept. Otherwise it writes nothing. |
| AttemptLogs.GetPlan | handlers/AttemptLogs.go:65-103 | A player naming another email answers 403. The data is the target's logs, or "" when none are stored. |
| AttemptLogs.AttemptLog | handlers/AttemptLogs.go:14-105 | A missing session or email answers 401 and writes nothing. POST and GET follow PostPlan and GetPlan. Other verbs answer nothing and write nothing. |
| AttemptLogs.StoredLogs | handlers/AttemptLogs.go:51 | A written record reads back. |
| AttemptLogs.PostThenGet | handlers/AttemptLogs.go:27-103 | After a saved POST, the player's GET returns the previous logs with the new line appended. |
| AttemptLogs.FirstPost | handlers/AttemptLogs.go:37-48 | A first POST, with no record stored, makes the logs a newline followed by the one line. |
| Auth.ValidEmailMatches | handlers/auth.go:24-27 | The scan that places the `@` and the last dot accepts exactly the addresses the email pattern matches. |
| Auth.Salt | handlers/auth.go:69-72 | The salt is `AUTH_SALT` when it is set, and a non-empty default otherwise. |
| Auth.FoldDigest | handlers/auth.go:74-77 | The shift-and-add loop yields the first eight digest bytes read big-endian, wrapped to int64. |
| Auth.Otp | handlers/auth.go:78-81 | The intended code is in 0..999999 for every seed. |
| Auth.GetOtp | handlers/auth.go:68-82 | The code is `Otp` of the seed, except that the seed -2^63 gives -775808 as written, because negating it overflows. |
| Auth.OtpAgrees | handlers/auth.go:78-81 | For every int64 seed other than -2^63, the code as written equals the intended one. |
| Auth.AsWrittenOverflow | handlers/auth.go:78-81 | The seed -2^63 gives -775808, and its six-digit form is `-775808`. |
| Auth.SmallestSeed | handlers/auth.go:73-77 | A digest that starts with 0x80 and seven zero bytes folds to -2^63. |
| Auth.Pad6Value | handlers/auth.go:121 | A code in 0..999999 is written as exactly six digits with its value. |
| Auth.Code | handlers/auth.go:78-81 | The intended code is six digits whose value is `Otp` of the email's seed. |
| Auth.AsWrittenCode | handlers/auth.go:120-121 | The code the handlers mail and expect equals the intended `Code` for every seed but -2^63, for which it is `-775808`. |
| Auth.MailDigits | handlers/auth.go:122-125 | The loop puts the i-th character in the i-th slot; the six slots spell the first six characters. |
| Auth.MailedOverflow | handlers/auth.go:121-134 | For the seed -2^63 the mail would show `-77580`, which is not the code. |
| Auth.HashHex | handlers/auth.go:29-32 | The hex form of a 32-byte digest is 64 characters long. |
| Auth.StringPayload | handlers/auth.go:86-96 | `null` decodes to the empty map. An object decodes iff every member is a string or null, and keeps its keys and strings, with null as "". Anything else fails. |
| Auth.OtpPlan | handlers/auth.go:84-147 | A bad body answers 400. A code is sent iff the address is valid and not registered or verified. It is the as-written code of the address (`AsWrittenCode`). A pending sign-up is stored iff the payload has `name`. Nothing else is written. |
| Auth.SendOtp | handlers/auth.go:84-147 | The writes are OtpPlan's. With the template the reply shows the first six characters of the as-written code, which for the seed -2^63 are `-77580`. |
| Auth.MailedIsCode | handlers/auth.go:120-137 | The six characters the template shows are the whole code the sign-up expects, and that code is the intended one, exactly when the seed is not -2^63. |
| Auth.Filled | handlers/auth.go:166-186 | A name, phone number or password given in the query is used as is. Missing ones come from the pending sign-up. |
| Auth.SignupPlan | handlers/auth.go:160-226 | Signup succeeds iff every field is filled, the address is valid and not registered, the phone has ten bytes and the code matches the as-written code (`AsWrittenCode`), so at the seed -2^63 it accepts `-775808`. Success writes the account, the verified address and the leaderboard entry. Failure writes nothing. |
| Auth.Stale | handlers/auth.go:227-232 | The keys removed are exactly the pending keys equal to the address or containing it. |
| Auth.ApplyRemovals | handlers/auth.go:227-232 | Removing those keys leaves every other table and pending sign-up unchanged. |
| Auth.StaleKeys | handlers/auth.go:227-232 | The map loop enumerates every pending sign-up once and yields `Stale`. |
| Auth.LoginPlan | handlers/auth.go:236-265 | Login succeeds iff the email and password are given, the account exists and its stored password is the password's hash. |
| Auth.ApiAuth | handlers/auth.go:149-269 | `signup` answers SignupPlan's reply; on success it writes its plan, then removes the stale pending sign-ups, and otherwise nothing. `login` answers LoginPlan's reply and writes nothing. Any other method answers 400 "unknown method". |
| Auth.SignupWrites | handlers/auth.go:209-226 | After signup the address is verified. The user record is the account merged with the leaderboard entry. Pending sign-ups are untouched until the clean-up. |
| Auth.LoginAccepts | handlers/auth.go:242-258 | A stored account whose password is the hash of the given password logs in. |
| Auth.SignupThenLogin | handlers/auth.go:160-265 | After a successful signup and any clean-up, logging in with the same address and password succeeds, and the address is taken. |
| Auth.SendThenSignup | handlers/auth.go:139-202 | A signup that sends back the mailed code for the address of a sent OTP with full details succeeds. The password comes from the pending record. |
| Auth.PendingFills | handlers/auth.go:166-180 | With no details in the query, name, phone and password come from the pending record written at send time. |
| Announcements.CollectKeys | handlers/announcements.go:27-30 | The map loop collects every announcement id exactly once. |
| Announcements.SortedDistinct | handlers/announcements.go:31 | Sorting distinct ids by byte order makes them strictly increasing. |
| Announcements.SortAscending | handlers/announcements.go:27-31 | The sorted ids enumerate the announcements in strictly increasing order. |
| Announcements.SortedKeys | handlers/announcements.go:27-31 | The method returns every id once, strictly increasing. |
| Announcements.AscendingUnique | handlers/announcements.go:27-31 | Only one order lists every id once strictly increasing, so the listing does not depend on map order. |
| Announcements.Piece | handlers/announcements.go:42-54 | A record that is not an object contributes nothing. Otherwise its piece starts with `id|` and ends with `::`. |
| Announcements.ListedMembers | handlers/announcements.go:65-77 | An item is listed iff its id is among the keys, its record decodes to an object, and the item carries that record's content and time. |
| Announcements.ListedAscending | handlers/announcements.go:65-77 | Items keep the order of their ids. |
| Announcements.BuildCanonical | handlers/announcements.go:32-56 | The builder loop writes the pieces of the sorted ids in order. |
| Announcements.BuildListing | handlers/announcements.go:65-77 | The loop yields `Listed` of the sorted ids. |
| Announcements.ListPlan | handlers/announcements.go:17-81 | With nothing stored the reply is the sample. A matching client checksum gives 304. Otherwise the reply is the listing with its checksum. |
| Announcements.List | handlers/announcements.go:17-81 | The ids are sorted ascending and the reply is ListPlan's. |
| Announcements.ListingDetermined | handlers/announcements.go:27-79 | Any two ascending orders give the same reply, and listed items are in ascending id order. |
| Announcements.TimeValue | handlers/announcements.go:120-129 | An empty time stores now. An int64 text stores the number. Any other text is stored verbatim. |
| Announcements.SetPlan | handlers/announcements.go:83-139 | Without session or email it answers 401, and a non-admin gets 403. It succeeds iff the requester is allowed and id and content are given. Success writes the record `{content, time}` under the id; failure writes nothing. |
| Announcements.DeletePlan | handlers/announcements.go:141-183 | Without session or email it answers 401. It succeeds iff the requester is allowed and an id is given. Success removes that id; failure writes nothing. |
| Announcements.CreateFormPlan | handlers/announcements.go:185-241 | Unauthenticated and forbidden requests are redirected to the sign-in and time-gate pages. The form writes exactly when the JSON create would, then redirects to `/admin`. |
| Announcements.DeleteFormPlan | handlers/announcements.go:243-282 | The same redirects as the create form. It removes exactly when the JSON delete would. |
| Announcements.Admin | handlers/announcements.go:83-282 | The four admin handlers answer and write as their plans say. |
| Announcements.StoredListed | handlers/announcements.go:65-77 | A stored announcement appears in the listing with its content and time. |
| Announcements.SetThenListed | handlers/announcements.go:83-139 | After a successful create, the listing contains the new item with its content and time. |
| Announcements.DeleteLastShowsSample | handlers/announcements.go:20-25 | Deleting the only announcement makes the listing show the sample. |
| Announcements.PieceOfStored | handlers/announcements.go:42-54 | A stored record's piece is `id|content|time::`. |
| Profile.DigitRunDigits | components/profile/profile.js:172 | The leading run `parseInt` reads is all digits, and it stops at the first non-digit. |
| Profile.ParseIntJsItoa | components/profile/profile.js:172-176 | `parseInt` of a decimal numeral followed by a non-digit gives back the number. |
| Profile.ParseNegativeItoa | components/profile/profile.js:172-176 | The same holds for negative numbers with their minus sign. |
| Profile.MinusParse | components/profile/profile.js:172 | After a `-`, `parseInt` negates the leading digit run, and gives NaN when there is none. |
| Profile.DigitParse | components/profile/profile.js:172 | Text that starts with a digit parses to its leading digit run. |
| Profile.ParseIntJsNaN | components/profile/profile.js:172-176 | Text that starts with neither a digit nor a sign, after leading blanks, is NaN and is skipped. |
| Profile.NonEmpty | components/profile/profile.js:162 | The filter keeps no empty line. |
| Profile.Page.ParseLogs | components/profile/profile.js:156-184 | `allLogs` becomes `ParsedLogs` of the string: the non-empty lines of the trimmed text that have two `+` and a numeric time, in order. |
| Profile.ShownMembers | components/profile/profile.js:186-215 | A log is shown iff it is parsed and, when the trimmed search is not empty, it matches the lowercased term under the selected option. |
| Profile.FilterMembers | components/profile/profile.js:197-212 | A log passes the filter iff it is in the input and matches the prefix test of the option. |
| Profile.FilterAppend | components/profile/profile.js:197-212 | Filtering a concatenation filters each part, keeping order. |
| Profile.FilterIdempotent | components/profile/profile.js:197-212 | Filtering twice gives the same logs as filtering once. |
| Profile.EntryRoundTrip | components/profile/profile.js:164-182 | A server-written line `attempt+type+time` parses back to its time, type and attempt; attempts may contain `+`. |
| Profile.ParseLines | components/profile/profile.js:163-183 | Parsing the written lines gives exactly the expected logs, in order. |
| Profile.RenderSplit | components/profile/profile.js:162 | Splitting the stored logs at newlines gives a leading empty piece and then one line per attempt. |
| Profile.TrimRender | components/profile/profile.js:158 | Trimming the stored logs drops only the leading newline. |
| Profile.RoundTrip | components/profile/profile.js:156-184 | Parsing the logs the server stores gives back every attempt with its type and time, in order. |
| Profile.PostThenShown | components/profile/profile.js:156-184 | After a saved POST, the page's data is the old attempts plus the new one, rendered. |

## Left out

- Backends.Backend.constructor: when `url.Parse` refuses a backend address the Go program ends with `log.Fatalf` (loadbalancer/main.go:236-239); the model keeps the address as given and does not model that exit.
- Backends.Backend.UpdateResponseTime: the float64 moving average (loadbalancer/main.go:150-154) is an exact real `0.9 * avg + 0.1 * d` truncated to whole nanoseconds; float64 rounding is not modelled.
- Backends.Backend.RecordResponse: same exact-real moving average as `UpdateResponseTime`, without float64 rounding.
- Scheduler.AddAllWeights: current weights are unbounded integers, so the overflow of Go's `int` after very many rounds of adding weights is not modelled; the same holds for Scheduler.GiveBack.
- Time is an unbounded integer parameter (`now`); `time.Since` and the int64 overflow of `now - last` after about 292 years are not modelled.
- Mutexes, atomics, tickers and goroutines are not modelled: each method runs alone. This includes the delete of an expired ban under a read lock in `IsBlocked` (loadbalancer/main.go:297-303), the background health and cleanup loops (loadbalancer/main.go:520-585) and `go SendMail`.
- Text.Lower: folds ASCII letters only, where Go's `strings.ToLower` and JavaScript's `toLowerCase` fold all of Unicode; every use of Text.Lower differs for text outside ASCII. These uses are Admins.Normalize, the account key in Auth, the `user` order of Leaderboard.ApiLess, the AI history filter, verdict and part matching, the user filter of Logs, Messages.Recipient and Profile's prefix filter.
- The JSON codec is a parameter with the lawful round trip assumed; `json.Unmarshal`'s case-insensitive matching of member names (Levels.DecodeLevel, Leaderboard.DecodeEntry) is not modelled: a member must have its exact name. JSON numbers are exact reals: the rounding of integers above 2^53 to float64 by `json.Unmarshal`, and the implementation-defined conversion of an out-of-range float to int64, are not modelled (so Announcements.StoredPiece prints any int64 time exactly).
- Store.SetT: a `leaderboard` write that would write into a nil map panics in Go and ends the request; the model reports `Failed` and Store.Database.Apply goes on with later writes.
- Store.AllHints: a hint whose level itself contains `/` is listed under a key that splits back differently; completeness (Store.AllHintsComplete) is stated only for levels without `/`.
- Leaderboard.StartupListing: the sample record written before the listing (main.go:60-69) is not modelled; the listing starts from the tables as given.
- `AdminLevelLeadsHandler` (handlers/levels.go:303-383) and `LevelsListHandler` (handlers/levels.go:385-400) are not modelled: both only read tables and render markup.
- `GetStats` (loadbalancer/main.go:448-470) computes float ratios for display and is not modelled; nor are the health probes' HTTP calls (loadbalancer/main.go:549-585) or the forwarding itself in `customProxy` (loadbalancer/main.go:905-944): the upstream reply is a parameter.
- `VerifyHMAC`, `GenerateJSChallenge`, SHA-256 and every other hash, random values and the Gemini call (handlers/ai.go:247-279) are parameters of the model.
- `os.Setenv` (main.go:51, handlers/ai.go:251-253) is modelled as the returned environment map, not as process state.
- HTML templates, form parsing, cookies, SMTP and the SQL schema are not modelled; handlers/sessions.go, handlers/hints.go, mailer.go, config.go and the mock backends are not part of this model.
- Database errors other than the ones `db/db.go` itself returns (a failed query or connection) are not modelled; the tables are always reachable.
- Profile: JavaScript's `parseInt` is modelled on exact integers, so precision loss above 2^53 is not modelled; `formatTime` is a parameter.
- handlers/ai.go:130 reads `lvl.Walkthrough`, a member the `Level` type does not declare; the model takes the walkthrough text as an input.

## Findings

| source | as written | input that shows it | evidently intended | confidence | as-written member | corrected member |
|---|---|---|---|---|---|---|
| loadbalancer/main.go:827 | a new backend is named `backend-<number of backends>` | add two backends, delete `backend-0`, add one: the new one is a second `backend-1` | every backend gets an id no other backend has, from a counter | not executed | Balancer.AsWrittenIdCollides | Balancer.LoadBalancer.AddBackendFresh |
| handlers/auth.go:78-81 | `if n < 0 { n = -n }; n % 1000000` on an int64 | a digest starting `80 00 00 00 00 00 00 00` gives the seed -2^63, whose negation overflows: the code is -775808, the mail shows `-77580`, and only `-775808` signs up | a six-digit code in 0..999999 | not executed | Auth.AsWrittenCode | Auth.Code |
