# host-health-mcp: a verified model of its control plane

host-health-mcp lets MCP clients ask Linux hosts a fixed set of health questions. A plugin speaks
MCP over stdio and calls a daemon over HTTPS; the daemon authenticates, meters and audits every
call, caches results, and asks a privileged helper over a unix socket for what needs root. This
project models the parts of the three programs that keep state across calls or promise exact
answers, and proves what they promise over every run and every input.

| file | what it models |
|---|---|
| `TokenBucket.dfy`, `Limiter.dfy`, `RateLimiter.dfy` | the two-level token-bucket limiter: one bucket, the limiter as a transition system, the limiter as mutable objects |
| `Bursts.dfy`, `LimiterRates.dfy`, `LimiterToolRates.dfy`, `LimiterSweep.dfy`, `LimiterTraces.dfy` | what the limiter lets through, exactly when its rates hold, when its sweep can be noticed, and when callers and denied calls can be |
| `Flight.dfy` | `Cache.Do`: singleflight, Forget on deadline, and the advisory in-flight limit, as an interleaving of caller and call steps |
| `CacheStore.dfy` | the bounded entry map behind the cache |
| `Pipeline.dfy` | overlapping requests through authentication, limiter, routing, cache, flight and audit log |
| `Mcp.dfy` | the plugin's line loop and its schema-version gate |
| `Addresses.dfy`, `FirewallLookup.dfy`, `FirewallListing.dfy` | overlap of addresses, prefixes and ranges; the two-pass ruleset lookup; where each listed element stands |
| `ElementBudget.dfy`, `Strings.dfy` | sharing out inline set elements; sorted key lists |
| `Wireguard.dfy`, `Decimals.dfy` | the `wg show all dump` parser; decimal integers |
| `Frames.dfy` | length-prefixed frames and the helper's connection loop |
| `Capture.dfy`, `BoundMessage.dfy`, `Deadlines.dfy` | capped output capture, UTF-8-safe truncation, the deadline chain |
| `Common.dfy` | what several of them share |

Code that updates things in place is a class or a method with loops, proved equal to a function
of the old state; the theorems are then about runs of those functions. Clocks, daemon replies,
tool results, subprocess output and `nft` listings are parameters. `dafny verify dfyconfig.toml`
checks everything.

## Where the code and its comments part

Each of these is a theorem below; the model follows the code.

- The comment at `daemon/internal/daemon/cache/cache.go:103-109` says a race can exceed a limit "by
  one". The true bound is the limit minus one plus the number W of calls between admission and
  entry, per key and in total, and it is attained for every W (`Flight.PerKeyBoundIsTight`,
  `Flight.TotalBoundIsTight`).
- The idle sweep of the limiter is invisible iff the global bucket, and every tool bucket that can
  deny a call, refills within ten minutes (`LimiterSweep.SweepConditionIsExact`). Configuration
  asks for positive numbers only, so a tool bucket of 1 a minute and bursts of 20 behind the shipped
  30 and 10 passes it and is let through more than its rate (`LimiterToolRates.ToolRateHoldsIff`).
  The shipped global bucket refills in time, so every caller's overall rate holds
  (`LimiterRates.CallerRateHoldsIff`, `Pipeline.ShippedMinute`).
- Where that condition fails, callers are not isolated and a denied call can change later answers
  (`LimiterTraces.IsolationIsExact`, `LimiterTraces.NoTraceIsExact`), although the refund is meant
  to keep the meter honest.
- Two nftables sets whose names hold slashes can share a key, and the earlier one is then lost
  (`FirewallLookup.SharedKeyIsMissed`); `FirewallLookup.RefAnsweredIff` says exactly when a
  reference is answered rightly all the same.
- Concatenated set types are said to be matched on the first component
  (`daemon/internal/helper/ops/firewall_lookup.go:290-292`), and pass the type filter, but their
  elements, like the pairs of a map, never match (`FirewallLookup.CompoundElementIsMissed`,
  `FirewallLookup.IndexExact`).
- A member of an anonymous nftables set inside an `elem` wrapper is not unwrapped, so a rule that
  concerns the query through such members only is missed (`FirewallLookup.LookupIsTheNaiveScan`
  says exactly when).
- A range listed with its ends reversed is empty, but matches a CIDR query that contains one of the
  ends (`Addresses.RangeMatchesExact`).
- A dump whose first row is well formed with an empty interface name makes `parseWGDump` dereference
  nil (`Wireguard.CrashesIff`). A closing comment there still speaks of peer rows of eight or more
  columns; the code takes exactly nine.
- With the element budget spent an empty set is flagged truncated, and a set that could not be
  fetched is not flagged although it has elements (`ElementBudget.FlagIsRightIff`).
- A helper deadline plus the kill grace outlasts the daemon when 749 ms or less are left, because of
  the 250 ms minimum (`Deadlines.ChainHoldsIff`); a deadline 292 years away wraps
  (`Deadlines.SentIsPositiveIff`).

## Model

| member | source | states |
|---|---|---|
| `TokenBucket.RefillComposes` | daemon/internal/daemon/ratelimit/ratelimit.go:154-160 | filling for d1 and then d2 seconds is filling for d1+d2: the cap loses nothing |
| `TokenBucket.IdleIsFull` | daemon/internal/daemon/ratelimit/ratelimit.go:123-135 | a bucket untouched for more than ten minutes is full whenever Burst ≤ 10·SustainedPerMin |
| `TokenBucket.TakeLaw` | daemon/internal/daemon/ratelimit/ratelimit.go:150-167 | a take succeeds iff the observable level is at least one token, costs exactly one, and a failed take leaves the level alone; 0 ≤ tokens ≤ Burst is kept |
| `TokenBucket.RefundLaw` | daemon/internal/daemon/ratelimit/ratelimit.go:174-180 | a refund at the instant of the take restores the level exactly |
| `TokenBucket.Bucket.constructor` | daemon/internal/daemon/ratelimit/ratelimit.go:146-148 | a new bucket is full and stamped now |
| `TokenBucket.Bucket.TakeToken` | daemon/internal/daemon/ratelimit/ratelimit.go:150-167 | the in-place update is `TryTake`, the function the laws are about |
| `TokenBucket.Bucket.GiveBack` | daemon/internal/daemon/ratelimit/ratelimit.go:174-180 | the in-place update is `Refund` |
| `RateLimiter.BucketTable.Take` | daemon/internal/daemon/ratelimit/ratelimit.go:89-97 | find-or-create and take: one slot of the table changes, no two slots share a bucket object |
| `RateLimiter.BucketTable.GiveBack` | daemon/internal/daemon/ratelimit/ratelimit.go:116-116 | the refund reaches the bucket of that key and no other |
| `RateLimiter.BucketTable.Sweep` | daemon/internal/daemon/ratelimit/ratelimit.go:123-135 | the delete-while-ranging loop keeps exactly the buckets touched within ten minutes, untouched |
| `RateLimiter.RateLimiter.Sweep` | daemon/internal/daemon/ratelimit/ratelimit.go:68-71 | both tables swept, time recorded: the step `Limiter.Sweep` |
| `RateLimiter.RateLimiter.Allow` | daemon/internal/daemon/ratelimit/ratelimit.go:79-121 | lazy sweep, global take, tool take, refund on mutable maps are together exactly the step `Limiter.Allow` |
| `RateLimiter.RateLimiter.Charge` | daemon/internal/daemon/ratelimit/ratelimit.go:89-121 | the same after the lazy sweep |
| `RateLimiter.RateLimiter.ChargeTool` | daemon/internal/daemon/ratelimit/ratelimit.go:105-119 | the tool half: denied iff the tool bucket is short, and then the caller's global bucket is refunded |
| `Limiter.KeyInjective` | daemon/internal/daemon/ratelimit/ratelimit.go:105-105 | caller+":"+tool names one pair when tool names hold no colon |
| `Limiter.SweepKeepsLevels` | daemon/internal/daemon/ratelimit/ratelimit.go:123-135 | a sweep lowers no level, and changes none of a bucket that refills within the ten minutes, whoever it belongs to |
| `Limiter.ChargeLaw` | daemon/internal/daemon/ratelimit/ratelimit.go:89-121 | the answer is decided by the caller's own two levels; an allowed call costs one token of each bucket that meters it; nothing else moves, and a denied call moves nothing |
| `Limiter.AnyStepLaw` | daemon/internal/daemon/ratelimit/ratelimit.go:79-135 | the law of a step of any configuration, safe or not: answer and price from the levels after the sweep, which may only fill buckets up |
| `Limiter.ReasonsAreRight` | daemon/internal/daemon/ratelimit/ratelimit.go:89-121 | who denies a call, in the operator's numbers: the global bucket iff it is not 0/0 and below one token; else the tool's iff the tool has one that is neither disabled nor 0/0 and is below one token |
| `Limiter.DisabledIsNone` | daemon/internal/daemon/ratelimit/ratelimit.go:98-104 | a disabled bucket is no bucket: every call of every run, from any state, is answered as if the tool had none, and leaves the same state |
| `Limiter.SweepsWhenDue` | daemon/internal/daemon/ratelimit/ratelimit.go:83-87 | a call sweeps first iff more than 300 s have passed since the last sweep; a sweep keeps what was touched within 600 s, untouched |
| `Limiter.DeficitLater` | daemon/internal/daemon/ratelimit/ratelimit.go:154-160 | a larger and no slower bucket behind the global one never gets further from full than it |
| `Limiter.StepLaw` | daemon/internal/daemon/ratelimit/ratelimit.go:79-121 | in a safe configuration the answer to any call is decided by the levels before it, sweep or no sweep, and only an allowed call moves a level, by its price, for every caller and every bucket that refills while idle |
| `Limiter.SweepingIsInvisible` | daemon/internal/daemon/ratelimit/ratelimit.go:79-135 | on every timed run the sweeping limiter answers like one whose buckets live forever, if every enabled bucket that can deny a call has Burst ≤ 10·SustainedPerMin |
| `Limiter.DeniedCallLeavesNoTrace` | daemon/internal/daemon/ratelimit/ratelimit.go:111-118 | after a denied call every later answer to every caller is as if the call had not been made |
| `Limiter.CallersAreIsolated` | daemon/internal/daemon/ratelimit/ratelimit.go:79-121 | a caller's answers in any run are those it would get if its own timed calls were the only events |
| `LimiterSweep.SlowRefillShowsTheSweep` | daemon/internal/daemon/ratelimit/ratelimit.go:123-135 | whenever that condition fails, a concrete run is answered differently with and without sweeping: two bursts, or a bucket drained at the global rate, left idle, swept and probed |
| `LimiterSweep.Probe` | daemon/internal/daemon/ratelimit/ratelimit.go:79-135 | any difference between two levels of a bucket slower than the global one shows on some run |
| `LimiterSweep.SweepConditionIsExact` | daemon/internal/daemon/ratelimit/ratelimit.go:123-135 | for every configuration: sweeping is invisible on every run iff the global bucket and every tool bucket that can deny a call have Burst ≤ 10·SustainedPerMin; a tool bucket cannot deny one iff it is larger than the global bucket and no slower, or the global bucket holds no token |
| `LimiterTraces.IsolationIsExact` | daemon/internal/daemon/ratelimit/ratelimit.go:79-135 | a caller's answers are in every run those of its own calls alone iff that same condition holds; otherwise a tick in the idle time, which moves the lazy sweep, changes them |
| `LimiterTraces.NoTraceIsExact` | daemon/internal/daemon/ratelimit/ratelimit.go:94-135 | no denied call, in any run, changes a later answer iff that same condition holds; otherwise a denied call that touches a bucket keeps it from being swept |
| `Bursts.BurstLaw` | daemon/internal/daemon/ratelimit/ratelimit.go:79-121 | n simultaneous calls are all allowed iff both buckets hold n tokens, and then take n from each |
| `Bursts.SweptAllowsBoth` | daemon/internal/daemon/ratelimit/ratelimit.go:123-135 | two full bursts a moment more than ten minutes apart all pass when the bucket is swept between them |
| `Bursts.UnsweptDenies` | daemon/internal/daemon/ratelimit/ratelimit.go:150-167 | a bucket that is kept, and is too slow to refill in that time, denies some of the second |
| `LimiterRates.StepBudget` | daemon/internal/daemon/ratelimit/ratelimit.go:79-121 | a step's allowed calls are paid out of the bucket's balance, if that bucket counts and refills while idle |
| `LimiterRates.Budget` | daemon/internal/daemon/ratelimit/ratelimit.go:79-121 | conservation over any run: calls allowed never exceed tokens held plus tokens accrued, for a caller and for a caller and tool |
| `LimiterRates.WindowBound` | daemon/internal/daemon/ratelimit/ratelimit.go:79-180 | in any window of any run a caller is allowed at most Burst + SustainedPerMin·T/60 calls, and to an expensive tool at most that of the tool's bucket; each asks of its own bucket only |
| `LimiterRates.TwoBurstsExceed` | daemon/internal/daemon/ratelimit/ratelimit.go:123-135 | a bucket swept before it has refilled lets through more than its rate |
| `LimiterRates.CallerRateHoldsIff` | daemon/internal/daemon/ratelimit/ratelimit.go:79-180 | a caller is held to the global rate in every window of every run iff that bucket is not the unlimited 0/0 one and refills within ten minutes, whatever the tool buckets |
| `LimiterToolRates.ToolWithinRate` | daemon/internal/daemon/ratelimit/ratelimit.go:98-119 | a caller's use of a tool stays within the tool's own rate also when its bucket refills too slowly but never binds, behind a global burst that the tool's rate makes up for in ten minutes |
| `LimiterToolRates.SpedBudget` | daemon/internal/daemon/ratelimit/ratelimit.go:79-135 | a global bucket holds its callers to any rate that is no slower than its own and makes up for its burst in ten minutes, swept or not |
| `LimiterToolRates.TwoDrainsExceed` | daemon/internal/daemon/ratelimit/ratelimit.go:123-135 | a slow tool bucket that the global rate can drain lets through more than its own rate |
| `LimiterToolRates.ManyBurstsExceed` | daemon/internal/daemon/ratelimit/ratelimit.go:123-135 | a global burst that the tool's rate does not make up for, repeated after each sweep, exceeds it |
| `LimiterToolRates.ToolRateHoldsIff` | daemon/internal/daemon/ratelimit/ratelimit.go:98-135 | exactly when, over all configurations, a tool's use is held to its own rate in every window of every run |
| `CacheStore.EntryCache.Find` | daemon/internal/daemon/cache/cache.go:192-200 | a hit is the held, unexpired entry; anything else is a miss |
| `CacheStore.EntryCache.SweepLocked` | daemon/internal/daemon/cache/cache.go:326-332 | the delete loop keeps exactly the unexpired entries |
| `CacheStore.EntryCache.Put` | daemon/internal/daemon/cache/cache.go:206-216 | replace, insert, sweep-then-insert or skip: the step `Store` |
| `CacheStore.EveryRun` | daemon/internal/daemon/cache/cache.go:192-216 | in every run at most MaxEntries entries; every held entry is the last one stored; an unexpired last entry is missing iff its Store met a full house |
| `CacheStore.LookupIsExact` | daemon/internal/daemon/cache/cache.go:192-216 | the bounded cache refines the unbounded last-stored map: hit iff not older than its TTL and not refused, and then that very entry |
| `CacheStore.SkippedOnlyWhenFull` | daemon/internal/daemon/cache/cache.go:206-216 | a store is skipped iff the key is new and MaxEntries entries are alive; otherwise the entry is held and no live one is lost |
| `CacheStore.MissingMeansFull` | daemon/internal/daemon/cache/cache.go:206-216 | in every run, a latest entry still alive but missing met, when stored as a new key, a map of MaxEntries live entries |
| `CacheStore.SweepLeavesTheLive` | daemon/internal/daemon/cache/cache.go:319-332 | after any run a sweep leaves exactly the entries whose age is at most their TTL, unchanged |
| `Flight.InFlightGate.constructor` | daemon/internal/daemon/cache/cache.go:95-101 | the counters start empty |
| `Flight.InFlightGate.Admit` | daemon/internal/daemon/cache/cache.go:110-117 | admission iff both counts are under their limits; nothing changes |
| `Flight.InFlightGate.Enter` | daemon/internal/daemon/cache/cache.go:119-129 | counts one more of the key and in total, and marks the key stalled at the limit |
| `Flight.InFlightGate.Leave` | daemon/internal/daemon/cache/cache.go:131-141 | counts one fewer; the last one removes count and mark |
| `Flight.CountedStep` | daemon/internal/daemon/cache/cache.go:278-315 | every step of every interleaving keeps: counters equal entered-but-not-left invocations, per key and in total; stalled implies in flight |
| `Flight.CoalescedStep` | daemon/internal/daemon/cache/cache.go:278-315 | every step keeps: the group names a live call of the right key, and live calls exceed that by at most the deadline Forgets |
| `Flight.EveryRun` | daemon/internal/daemon/cache/cache.go:278-315 | these invariants, and that a waiting or served caller holds an invocation of its own key, in every reachable state |
| `Flight.TotalIsTheSum` | daemon/internal/daemon/cache/cache.go:119-141 | in every run inFlightTotal is the sum of inFlight over all keys |
| `Flight.LiveInvocationsBound` | daemon/internal/daemon/cache/cache.go:303-314 | live invocations of a key ≤ 1 + its deadline Forgets: cancellations and panics never start a second one |
| `Flight.JoinedWhileRegistered` | daemon/internal/daemon/cache/cache.go:282-308 | whoever waits on or receives from a call joined it while it was the registered call of that key |
| `Flight.RefusedIff` | daemon/internal/daemon/cache/cache.go:110-117 | in every run the caller of an admission is refused iff, in the state before it, MaxInFlightPerKey entered-but-not-left invocations of its key or MaxInFlightTotal of any key exist |
| `Flight.JoinsOrLeads` | daemon/internal/daemon/cache/cache.go:282-302 | in every run an admitted caller whose key is registered starts nothing and waits on the registered call; otherwise it leads one new call, which is then registered |
| `Flight.StaysRegistered` | daemon/internal/daemon/cache/cache.go:303-314 | in every run what a key is registered with changes only when that very call completes or a caller of that key meets its deadline |
| `Flight.EndsAsItRan` | daemon/internal/daemon/cache/cache.go:303-314 | in every run a caller ends with the deadline, the cancellation or the delivery iff its run has that event for it |
| `Flight.NothingIsStuck` | daemon/internal/daemon/cache/cache.go:278-315 | in every reachable state each caller and each invocation has its next step open: a waiting caller can leave, and is served iff its call is done |
| `Flight.LedStep` | daemon/internal/daemon/cache/cache.go:278-302 | every step keeps: each invocation is led by a caller of its key past admission, and no caller leads two |
| `Flight.ReceivedIsYielded` | daemon/internal/daemon/cache/cache.go:303-308 | whoever receives an entry receives what an invocation of its own key produced |
| `Flight.PerKeyBound` | daemon/internal/daemon/cache/cache.go:103-117 | if at most W calls of a key are ever between admit and enter, at most MaxInFlightPerKey − 1 + W are in flight |
| `Flight.TotalBound` | daemon/internal/daemon/cache/cache.go:103-117 | the same across all keys with MaxInFlightTotal |
| `Flight.PerKeyBoundIsTight` | daemon/internal/daemon/cache/cache.go:103-109 | for every W ≥ 1 a run attains the per-key bound |
| `Flight.TotalBoundIsTight` | daemon/internal/daemon/cache/cache.go:103-109 | for every W ≥ 1 a run attains the total bound, with distinct keys and no deadline |
| `Addresses.ContainsIsMembership` | daemon/internal/helper/ops/firewall_lookup.go:410-410 | prefix containment is membership of the aligned block the prefix denotes |
| `Addresses.QueryIsMasked` | daemon/internal/helper/ops/firewall_lookup.go:265-288 | every CIDR that parses makes a query that is its own mask, for exactly the addresses of that CIDR |
| `Addresses.Nested` | daemon/internal/helper/ops/firewall_lookup.go:415-430 | two prefixes that share an address are nested: the shorter contains the network address of the longer |
| `Addresses.AddrMatchesExact` | daemon/internal/helper/ops/firewall_lookup.go:405-413 | an address matches iff it is in the query |
| `Addresses.PrefixMatchesExact` | daemon/internal/helper/ops/firewall_lookup.go:419-430 | a prefix matches iff it shares an address with the query |
| `Addresses.RangeMatchesExact` | daemon/internal/helper/ops/firewall_lookup.go:434-451 | the range test is exact iff the ends are in order, or of two families, or the query is not a CIDR containing an end |
| `Addresses.ReversedRangeOvermatches` | daemon/internal/helper/ops/firewall_lookup.go:438-446 | the failing family: a reversed (empty) range matches a CIDR that contains one of its ends |
| `Strings.Sorted` | daemon/internal/helper/ops/firewall_lookup.go:217-221 | collecting and sorting map keys gives their strictly ascending listing |
| `Strings.AscendingUnique` | daemon/internal/helper/ops/firewall_lookup.go:217-224 | there is one such listing, so map iteration order does not show |
| `Strings.SetKeyInjective` | daemon/internal/helper/ops/firewall_lookup.go:172-172 | family/table/name names one set when family and table hold no slash |
| `FirewallLookup.IndexOneSet` | daemon/internal/helper/ops/firewall_lookup.go:172-212 | the element loop with the family pre-filter is `IndexOfSet` |
| `FirewallLookup.IndexAll` | daemon/internal/helper/ops/firewall_lookup.go:160-212 | pass one is `IndexSets` |
| `FirewallLookup.EmitHits` | daemon/internal/helper/ops/firewall_lookup.go:216-225 | the hits set by set in ascending key order |
| `FirewallLookup.MatchRule` | daemon/internal/helper/ops/firewall_lookup.go:469-507 | the expression loop of a rule is `RuleMatches` |
| `FirewallLookup.MatchAll` | daemon/internal/helper/ops/firewall_lookup.go:232-248 | pass two is `AllMatches` |
| `FirewallLookup.Lookup` | daemon/internal/helper/ops/firewall_lookup.go:156-252 | the operation is pass two over the index of pass one, with the sets view only on request |
| `FirewallLookup.OverlapIsMeeting` | daemon/internal/helper/ops/firewall_lookup.go:359-402 | a value that is not compound overlaps iff the addresses it denotes meet the query |
| `FirewallLookup.TouchIsMeeting` | daemon/internal/helper/ops/firewall_lookup.go:359-402 | any value meets the query iff its first component overlaps it; the program sees that iff the value is not compound |
| `FirewallLookup.IndexExact` | daemon/internal/helper/ops/firewall_lookup.go:178-212 | hasMatch is right iff an element overlaps the query as it is or no concatenation or map pair does by its first component; the family pre-filter loses nothing on a well-typed set |
| `FirewallLookup.RefHitsLast` | daemon/internal/helper/ops/firewall_lookup.go:172-175 | @set hits iff the last set listed with that key is seen to meet the query |
| `FirewallLookup.RefExact` | daemon/internal/helper/ops/firewall_lookup.go:578-591 | when the last set of its key is the one it names, @set hits only if that set meets the query, and is missed iff it does so by compound elements only |
| `FirewallLookup.RefAnsweredIff` | daemon/internal/helper/ops/firewall_lookup.go:578-591 | a reference is answered rightly for every query iff the last set of its key shows the very addresses that the sets of its name hold |
| `FirewallLookup.ResolvedFindsItsOwn` | daemon/internal/helper/ops/firewall_lookup.go:580-581 | a reference to a listed set finds it when no two sets share a key, slashes or not |
| `FirewallLookup.NoSlashNoSharedKey` | daemon/internal/helper/ops/firewall_lookup.go:172-172 | no two sets share a key when family and table names hold no slash |
| `FirewallLookup.SharedKeyIsMissed` | daemon/internal/helper/ops/firewall_lookup.go:172-175 | with slashes two sets can share a key, and a reference to the first is then missed |
| `FirewallLookup.AnonSetAnsweredIff` | daemon/internal/helper/ops/firewall_lookup.go:628-644 | an anonymous set is answered rightly iff a bare member overlaps the query or no wrapped or compound one does; it never hits wrongly |
| `FirewallLookup.RightExact` | daemon/internal/helper/ops/firewall_lookup.go:571-660 | a right-hand side of any shape hits only if it meets the query, and is missed exactly in a blind spot |
| `FirewallLookup.LookupIsTheNaiveScan` | daemon/internal/helper/ops/firewall_lookup.go:156-252 | over a whole ruleset: the two passes report exactly the address matches whose denotation meets the query, in ruleset order, iff no rule is in a blind spot |
| `FirewallLookup.WrappedMemberIsMissed` | daemon/internal/helper/ops/firewall_lookup.go:628-644 | an anonymous set holding exactly the queried address in an elem wrapper is not reported |
| `FirewallLookup.CompoundElementIsMissed` | daemon/internal/helper/ops/firewall_lookup.go:290-308 | a reference to a set that holds exactly the queried address in a concatenation is not reported, although its type passes the pre-filter |
| `FirewallLookup.KindsAreRight` | daemon/internal/helper/ops/firewall_lookup.go:511-530 | on any ruleset: exact iff an address query met an address literal, which then is the query address; set kinds iff by reference; saddr/daddr as written; the matched value is the literal, or the first bare member of the anonymous set that overlaps |
| `FirewallLookup.SetHitsExact` | daemon/internal/helper/ops/firewall_lookup.go:185-211 | within a set an element is listed iff it meets the query and is not compound, as a member iff it is the query address |
| `FirewallLookup.OtherTypesNeverHit` | daemon/internal/helper/ops/firewall_lookup.go:290-308 | a set is looked into iff its type is the query's address type, alone or as the first of a concatenation |
| `FirewallListing.HitsAreListedOnce` | daemon/internal/helper/ops/firewall_lookup.go:185-211 | a set's hits are its seen, meeting elements, each once and in listing order: strictly ascending positions, and just those to be listed |
| `FirewallLookup.SetsViewIsExact` | daemon/internal/helper/ops/firewall_lookup.go:216-225 | the sets view lists an element iff it meets the query, is not compound, and its set is the last of its key |
| `FirewallListing.ViewIsListedOnce` | daemon/internal/helper/ops/firewall_lookup.go:216-225 | the whole sets view: every element to be listed, once, key by key ascending and in listing order within a key; and every set that is the last of its key has its key among them |
| `Pipeline.Server.constructor` | daemon/internal/daemon/httpserver/httpserver.go:196-206 | an empty limiter, cache and log |
| `Pipeline.Server.End` | daemon/internal/daemon/httpserver/httpserver.go:419-437 | one record is appended, and the request is over |
| `Pipeline.Server.ArriveRequest` | daemon/internal/daemon/httpserver/httpserver.go:196-236 | authentication and metering are one step of the pipeline: ended with a record, or past the limiter |
| `Pipeline.Server.OpenRequest` | daemon/internal/daemon/httpserver/httpserver.go:238-313 | routing, body checks and cache lookup are one step: ended with a record, or missed |
| `Pipeline.Server.RouteRequest` | daemon/internal/daemon/httpserver/httpserver.go:238-313 | the checks in the program's order |
| `Pipeline.Server.AskWork` | daemon/internal/daemon/cache/cache.go:278-281 | the start of Cache.Do: the request becomes a caller of `Flight`, admitted or refused |
| `Pipeline.Server.ProduceEntry` | daemon/internal/daemon/httpserver/httpserver.go:335-366 | the end of a successful tool run: its entry is stored under the key of the run and returned to the flight |
| `Pipeline.Server.FinishRequest` | daemon/internal/daemon/httpserver/httpserver.go:368-382 | what Cache.Do gave this caller - entry, error, refusal, cancellation or deadline - ends the request with its record and status |
| `Pipeline.RoutedToolIsThePath` | daemon/internal/daemon/httpserver/httpserver.go:384-393 | truncating the audited name never routes a path to a tool it does not name |
| `Pipeline.ArrivesAs` | daemon/internal/daemon/httpserver/httpserver.go:206-236 | no certificate: 401, and the limiter is not asked; else the limiter is asked under the caller's name and the cut tool name, and a denial ends the request with 429 and the reason |
| `Pipeline.StoppedByTheFirstTest` | daemon/internal/daemon/httpserver/httpserver.go:238-313 | past the limiter a request ends by the first test it fails - path, method, registry, enabled tools, body - with that outcome and status; one that fails none misses or is answered from cache |
| `Pipeline.ReachesIffRunnable` | daemon/internal/daemon/httpserver/httpserver.go:238-301 | the handler's tests on the cut name are those on the path itself: under /v1/, a POST, a registered tool, an enabled one if any are listed, a JSON body |
| `Pipeline.OnlyRunnable` | daemon/internal/daemon/httpserver/httpserver.go:238-382 | in every run each request with a cache key, each leader of a tool run and each record that carries an entry is of a request that meets all five |
| `Pipeline.FinishesAs` | daemon/internal/daemon/httpserver/httpserver.go:368-382 | 503 for a refusal, 504 for a deadline, 502 for a cancellation, 200 with the delivered entry, and 400, 502 or 504 by the kind of the tool's error |
| `Pipeline.FlightIsFree` | daemon/internal/daemon/httpserver/httpserver.go:335-366 | every step of `Flight` other than an admission is a step of the pipeline whenever `Flight` has it open |
| `Pipeline.OneRecordPerRequest` | daemon/internal/daemon/httpserver/httpserver.go:199-236 | in every interleaving of overlapping requests: exactly one record for each request that is over, none for one under way, each naming its caller and tool; records are never lost or changed |
| `Pipeline.FlightIsARun` | daemon/internal/daemon/httpserver/httpserver.go:335-366 | the tool runs behind any run of requests are a run of `Flight`, so its counters, coalescing and in-flight bounds hold here |
| `Pipeline.LeadersAsked` | daemon/internal/daemon/httpserver/httpserver.go:335-366 | every tool run was started for a request of its own, past the limiter, that had missed under that key |
| `Pipeline.AnswersAreOwn` | daemon/internal/daemon/httpserver/httpserver.go:302-382 | in every run an answer, from cache or from Cache.Do, is an entry that a tool run under that request's own key produced |
| `Pipeline.CacheKeyInjective` | daemon/internal/daemon/cache/cache.go:163-170 | a key stands for one tool and one canonical body, when tool names hold no colon |
| `Pipeline.UnauthenticatedAreInert` | daemon/internal/daemon/httpserver/httpserver.go:206-211 | deleting the unauthenticated requests from any run leaves the same limiter, cache, tool runs and other records |
| `Pipeline.RunMeters` | daemon/internal/daemon/httpserver/httpserver.go:232-236 | however requests overlap, the limiter sees the arrivals alone, and a caller gets past it exactly as often as the limiter run by itself allows |
| `Pipeline.CallerIsBounded` | daemon/internal/daemon/httpserver/httpserver.go:199-236 | requests of one caller let past the limiter in any window of any run, by the time at the limiter, ≤ Burst + SustainedPerMin·T/60, whatever the tool buckets |
| `Pipeline.RecordsAreBounded` | daemon/internal/daemon/httpserver/httpserver.go:199-236 | so are the records of those requests and the tool runs started for them, whenever they come; a record that is no refusal, and every tool run, belongs to a request that was let past |
| `Pipeline.ShippedMinute` | daemon/cmd/daemon/main.go:233-233 | with the shipped 30/10 bucket at most 40 in any minute, whatever the tool buckets |
| `Pipeline.StepCache` | daemon/internal/daemon/httpserver/httpserver.go:335-366 | the cache changes only by the store of a successful tool run, under its key, and by its own sweep |
| `Pipeline.RunCache` | daemon/internal/daemon/httpserver/httpserver.go:302-366 | the cache after a run is what the cache's own operations, in order, make of it |
| `Pipeline.HitsAreTheLatest` | daemon/internal/daemon/httpserver/httpserver.go:302-313 | after any run a request is answered from cache iff the latest entry stored for its tool and arguments is unexpired and was not refused, and then ends with that entry |
| `Mcp.MajorRoundTrip` | plugin/internal/mcp/mcp.go:420-430 | every 64-bit major is read back from any version that starts with it |
| `Mcp.GateOpensForOwnMajor` | plugin/internal/mcp/mcp.go:390-416 | a reply opens the gate iff its major is the plugin's |
| `Mcp.ReasonsAreRight` | plugin/internal/mcp/mcp.go:390-416 | each of the three reasons a host is held incompatible for, iff: no version, one without a major, another major |
| `Mcp.NoMajor` | plugin/internal/mcp/mcp.go:420-424 | a version without a dot, or with one in front, has no major |
| `Mcp.Server.AskDaemon` | plugin/internal/mcp/mcp.go:301-301 | each daemon call is recorded with its reply |
| `Mcp.Server.PassGate` | plugin/internal/mcp/mcp.go:270-282 | cached verdict, else probe and record: the step `Gate` |
| `Mcp.Server.CallTool` | plugin/internal/mcp/mcp.go:236-319 | tools/call is `Call`: lookup, host default, resolution, gate, forward without the host argument, opportunistic record |
| `Mcp.Server.HandleLine` | plugin/internal/mcp/mcp.go:110-151 | one line is `Step`: at most one response, none for notifications |
| `Mcp.Server.Serve` | plugin/internal/mcp/mcp.go:107-131 | the loop over all lines yields the state and the output the session theorems are about |
| `Mcp.StepKeeps` | plugin/internal/mcp/mcp.go:236-319 | one line keeps every daemon call vouched for, rewrites no verdict, and sends an incompatible host nothing but manifests |
| `Mcp.EverySession` | plugin/internal/mcp/mcp.go:267-282 | in every session a non-manifest call to a host comes after a manifest reply of that host with the plugin's major |
| `Mcp.VerdictsAreFinal` | plugin/internal/mcp/mcp.go:350-416 | verdicts are write-once over a session, and from the moment a host is held incompatible it receives only manifests |
| `Mcp.ResponseDiscipline` | plugin/internal/mcp/mcp.go:107-131 | exactly one response, in order and with its id, per unparseable line and per request with a non-null id other than notifications/initialized |
| `Mcp.FindsTheFirst` | plugin/internal/mcp/mcp.go:244-253 | the tool of a call is the first of its name, and there is none only if no tool has it |
| `Mcp.HeldVerdictDecides` | plugin/internal/mcp/mcp.go:267-272 | a held verdict saves the probe: a compatible host is sent the call, an incompatible one nothing, and the answer is the held reason |
| `Mcp.UnheardHostIsProbed` | plugin/internal/mcp/mcp.go:274-281 | a host not heard of is probed: a failed probe stops the call and is forgotten, a version is remembered and stops it unless compatible, and then the call follows |
| `Mcp.ManifestIsForwarded` | plugin/internal/mcp/mcp.go:270-314 | a manifest call is sent whatever is held of its host, and its version remembered if nothing was |
| `Mcp.UnlocatedIsRefused` | plugin/internal/mcp/mcp.go:236-265 | without readable parameters, a known tool, a host or an address, in that order, the call is answered by what is missing and nothing is sent |
| `Mcp.EveryCallIsAsked` | plugin/internal/mcp/mcp.go:236-319 | in every session each daemon call was asked for by one tools/call line: it goes to the address of its host argument, or of the default host when it has none, and is the request of the first tool of its name with its arguments but host, or the probe ahead of it |
| `Mcp.ResultIsTheLastReply` | plugin/internal/mcp/mcp.go:301-318 | a call is answered with a result only if its last daemon call forwarded this very request to this very host and was answered with a body |
| `Mcp.AnsweredByMethod` | plugin/internal/mcp/mcp.go:136-151 | what each method of a request with an id is answered |
| `Mcp.IdsDoNotMatter` | plugin/internal/mcp/mcp.go:123-129 | a notification does all that the same request with an id does, and only tools/call does anything |
| `Wireguard.ReadRow` | daemon/internal/helper/ops/wireguard.go:84-180 | the loop body on one row is `Step` |
| `Wireguard.ParseWGDump` | daemon/internal/helper/ops/wireguard.go:69-192 | the scanning loop, with its early returns, is `ParseDump` |
| `Wireguard.SecretsNeverCross` | daemon/internal/helper/ops/wireguard.go:100-131 | noninterference: dumps that differ only in column 1 of 5-column rows and column 2 of 9-column rows give the same outcome, error and partial output included |
| `Wireguard.SecretTextNeverCrosses` | daemon/internal/helper/ops/wireguard.go:100-131 | the same on rendered text, whatever keys stand in those columns |
| `Wireguard.RenderRoundTrip` | daemon/internal/helper/ops/wireguard.go:74-84 | scanning and splitting a rendered dump gives back its rows |
| `Wireguard.SettingIsIgnored` | daemon/internal/helper/ops/wireguard.go:74-84 | blank lines and carriage returns, wherever they are set, change neither rows nor outcome |
| `Wireguard.SuccessIsComplete` | daemon/internal/helper/ops/wireguard.go:89-99 | on success the interfaces are the maximal runs of equal names in order, with one peer per 9-column row |
| `Wireguard.AcceptedIff` | daemon/internal/helper/ops/wireguard.go:100-180 | accepted iff every row has a known shape and a well-formed public key and the first names its interface |
| `Wireguard.FailsAtTheFirstBadRow` | daemon/internal/helper/ops/wireguard.go:100-180 | a failure is that of the first bad row, with its reason, after the interfaces of the rows before it |
| `Wireguard.KeyShape` | daemon/internal/helper/ops/wireguard.go:20-20 | what passes for a public key, by length and code point |
| `Wireguard.UnreadableNumbers` | daemon/internal/helper/ops/wireguard.go:124-169 | a number that cannot be read is 0 in a peer and leaves an interface's port alone |
| `Wireguard.CrashesIff` | daemon/internal/helper/ops/wireguard.go:89-99 | nil is dereferenced iff the first row is well formed but has an empty interface name |
| `Wireguard.EmptyNameCrashes` | daemon/internal/helper/ops/wireguard.go:89-99 | an input: the text of one interface row without a name |
| `Wireguard.DumpRoundTrip` | daemon/internal/helper/ops/wireguard.go:69-192 | every non-secret field of every interface and peer is recovered from the dump of a host, whatever its secrets |
| `Decimals.DecimalDigits` | daemon/internal/helper/ops/wireguard.go:156-169 | a decimal numeral is digits and is worth its number |
| `Decimals.AtoiDecimal` | plugin/internal/mcp/mcp.go:425-425 | every non-negative 64-bit integer is read back from its notation |
| `Decimals.SignedDecimal` | plugin/internal/mcp/mcp.go:425-425 | a sign in front is read as one, and what does not fit 64 bits is refused, either way |
| `Decimals.OnlyDigitsAreRead` | plugin/internal/mcp/mcp.go:425-428 | nothing is read from text without a digit or with anything but digits after its sign |
| `ElementBudget.PerSetCap` | daemon/internal/helper/ops/firewall.go:222-228 | 2000 when nothing positive is asked for, else what is asked for up to the hard cap |
| `ElementBudget.OrderSetKeys` | daemon/internal/helper/ops/firewall.go:758-776 | the loops build the visiting order: present ban sets, then the rest ascending |
| `ElementBudget.BanFirstLaw` | daemon/internal/helper/ops/firewall.go:761-767 | the ban part is exactly the present ban sets, without repetition, in the order the manifest first names them |
| `ElementBudget.OrderIsAPermutation` | daemon/internal/helper/ops/firewall.go:758-776 | the order is a duplicate-free permutation of the set keys |
| `ElementBudget.OrderIsUnique` | daemon/internal/helper/ops/firewall.go:768-775 | there is only one such order, whatever the map's iteration order |
| `ElementBudget.RenderElements` | daemon/internal/helper/ops/firewall.go:670-689 | the first min(length, cap) elements rendered, none for a cap that is not positive |
| `ElementBudget.VisitSet` | daemon/internal/helper/ops/firewall.go:421-447 | one turn of the allocator: record, budget left, warning |
| `ElementBudget.FillElements` | daemon/internal/helper/ops/firewall.go:418-448 | after the loop every record is what visiting it with the budget its predecessors left made of it |
| `ElementBudget.InspectElements` | daemon/internal/helper/ops/firewall.go:417-449 | order and allocation together |
| `ElementBudget.NothingIsWasted` | daemon/internal/helper/ops/firewall.go:418-448 | all sets together get min(budget, the sum of min(total, per-set cap)) |
| `ElementBudget.InlineIsUsed` | daemon/internal/helper/ops/firewall.go:418-448 | the elements inline number exactly what was taken, never more than the budget |
| `ElementBudget.FetchedSetIsExact` | daemon/internal/helper/ops/firewall.go:433-447 | a fetched set shows the first min(total, cap, budget left by earlier sets) elements and is flagged iff some are not shown |
| `ElementBudget.FlagIsRightIff` | daemon/internal/helper/ops/firewall.go:425-443 | exactly when the flag says whether elements are missing: a spent budget needs a non-empty set, a failed fetch an empty one |
| `ElementBudget.FlagGoesWrong` | daemon/internal/helper/ops/firewall.go:425-443 | two inputs: an empty set after the budget is spent, and a set with elements that cannot be fetched |
| `ElementBudget.SpentBudgetFlags` | daemon/internal/helper/ops/firewall.go:429-432 | every set visited with no budget left is flagged and otherwise unchanged |
| `ElementBudget.WarnedAre` | daemon/internal/helper/ops/firewall.go:433-438 | the warnings name just the sets that were asked for with budget left and not answered |
| `ElementBudget.FailedFetchChangesNothing` | daemon/internal/helper/ops/firewall.go:433-438 | such a set keeps its record |
| `ElementBudget.BanSetsComeFirst` | daemon/internal/helper/ops/firewall.go:414-420 | what a ban set gets does not depend on the sets the manifest does not name |
| `Frames.Conn.WriteFrame` | daemon/internal/shared/proto/frame.go:80-95 | over the cap nothing is emitted; otherwise prefix and body |
| `Frames.Conn.ReadFull` | daemon/internal/shared/proto/frame.go:108-108 | exactly n bytes, or all there is and a failure |
| `Frames.Conn.ReadFrame` | daemon/internal/shared/proto/frame.go:106-121 | prefix, cap check, body: the step `Read` |
| `Frames.FrameRoundTripIff` | daemon/internal/shared/proto/frame.go:80-121 | a body within the cap is read back with the rest untouched iff its length fits 32 bits |
| `Frames.StreamRoundTrip` | daemon/internal/shared/proto/frame.go:80-121 | any list of bodies within the cap, written back to back, reads back as that list, and reading goes on with what follows |
| `Frames.EncodeInjective` | daemon/internal/shared/proto/frame.go:80-95 | a stream of frames stands for one list of bodies |
| `Frames.DecodeIsFaithful` | daemon/internal/shared/proto/frame.go:106-121 | on any byte stream the bodies read re-encode to the bytes they came from, none over the cap |
| `Frames.Exchange` | daemon/internal/helper/server/server.go:313-342 | one turn: at most one request consumed, exactly one frame written for it: the very reply if it fits, else the fallback |
| `Frames.HandleConn` | daemon/internal/helper/server/server.go:309-343 | a connection answers, in order, every request frame up to the first that does not decode or whose reply is oversize; what the daemon reads back for the i-th is `reply(i, req)` if that fits a response frame and the fallback text otherwise |
| `Frames.HandledIsUnique` | daemon/internal/helper/server/server.go:309-343 | what arrived determines how many requests are handled |
| `Frames.EveryAnswerIsReadable` | daemon/internal/helper/server/server.go:324-338 | the daemon's reader gets back exactly those answers and rejects none for its size |
| `Frames.CallIsAnswered` | daemon/internal/helper/server/server.go:309-343 | a request within its cap is answered by the handler's own reply if that fits, else by the fallback text, as the daemon reads it |
| `Capture.CappedWriter.constructor` | daemon/internal/helper/exec/exec.go:454-464 | empty buffer, flag down |
| `Capture.CappedWriter.WriteChunk` | daemon/internal/helper/exec/exec.go:466-476 | one write, keeping what fits and raising the flag |
| `Capture.CappedWriter.CopyFrom` | daemon/internal/helper/exec/exec.go:466-476 | driven chunk by chunk until a write fails, it holds the first min(cap, length) bytes; flag iff longer |
| `Capture.WriterIsExact` | daemon/internal/helper/exec/exec.go:466-476 | the same for a driver that goes on after a failed write |
| `Capture.OverflowIsFinal` | daemon/internal/helper/exec/exec.go:457-464 | once overflown, later chunks change nothing |
| `Capture.TakeChunk` | daemon/internal/helper/exec/exec.go:203-213 | one turn of the read loop |
| `Capture.ReadCapped` | daemon/internal/helper/exec/exec.go:198-235 | the read loop returns the first min(cap, length) bytes; truncated iff longer; a read may carry data and the end at once |
| `Capture.ChunkingIsInvisible` | daemon/internal/helper/exec/exec.go:198-235 | however the same stream is cut, both ways of capturing hold the same |
| `BoundMessage.BoundMessage` | daemon/internal/shared/schema/envelope.go:62-72 | the decrementing loop is `Bounded` |
| `BoundMessage.CutLaw` | daemon/internal/shared/schema/envelope.go:67-70 | the cut is the last position up to 197 that starts a character |
| `BoundMessage.BoundFits` | daemon/internal/shared/schema/envelope.go:54-63 | at most 200 bytes, and idempotent, on any bytes |
| `BoundMessage.BoundKeepsText` | daemon/internal/shared/schema/envelope.go:58-72 | valid UTF-8 stays valid; short messages are unchanged; otherwise the longest prefix of at most 197 bytes that is text, 194 to 197 long, plus the ellipsis |
| `BoundMessage.NoCutInside` | daemon/internal/shared/schema/envelope.go:58-61 | a cut inside a character would leave invalid text |
| `BoundMessage.BoundOfAnyBytes` | daemon/internal/shared/schema/envelope.go:58-72 | on arbitrary bytes the result is valid iff the kept prefix is |
| `Deadlines.ConversionIsExactIff` | daemon/internal/helper/config/config.go:109-120 | the conversion is min(ms·10⁶, ceiling) iff the product does not underflow 64 bits |
| `Deadlines.OpDeadlineIsExact` | daemon/internal/helper/config/config.go:87-107 | for all 64-bit inputs, without overflow: the configured deadline up to 15 s or else 9.5 s, shortened to the caller's, never below 250 ms |
| `Deadlines.CallerOnlyShortens` | daemon/internal/helper/config/config.go:79-107 | always in [Min, Max], monotone in the caller's wish, largest when the caller asks for nothing |
| `Deadlines.SentIsPositiveIff` | daemon/internal/daemon/helperinvoke/helperinvoke.go:107-117 | deadline_ms ≥ 1 iff rounding up does not wrap |
| `Deadlines.DistantDeadlineIsLost` | daemon/internal/daemon/helperinvoke/helperinvoke.go:113-114 | a deadline 300 years ahead is sent as a negative count |
| `Deadlines.SentIsRoundedUp` | daemon/internal/daemon/helperinvoke/helperinvoke.go:107-117 | the count is the remaining time rounded up by less than a millisecond |
| `Deadlines.SentIsFor` | daemon/internal/daemon/helperinvoke/helperinvoke.go:99-117 | the count is up to half a second before the daemon's deadline while that is still to come, else to the deadline itself, in whole milliseconds rounded up, and 1 when it has passed |
| `Deadlines.ChainHoldsIff` | daemon/internal/daemon/helperinvoke/helperinvoke.go:98-118 | helper deadline plus KillGrace exceeds the daemon's remaining time by less than 1 ms iff more than 749 ms remain |
| `Deadlines.ShortCallOutlastsTheDaemon` | daemon/internal/daemon/helperinvoke/helperinvoke.go:98-118 | an input: with 700 ms left the helper may take 750 |

## Left out

- TLS, certificates, HTTP and unix-socket plumbing, peer credentials, systemd notification, subprocess spawning and signals: calls into code outside the repository.
- JSON, YAML, regexp, SHA-256 and netip text parsing: values are datatypes, marshal and unmarshal are taken to be inverse, and a cache key is the tool name and canonical body that the program hashes.
- Rounding of float64 token counts: tokens and seconds are exact reals on a clock that never goes back.
- IPv6 zones, and lines over the scanners' length cap.
- The searched_* counters and the rule text of a lookup, the ban totals and rule-text clamping of firewall_inspect, and its path without set elements: easy members.
- Write errors and idle timeouts on the helper's socket: writes succeed in `Frames.HandleConn`.
- The other tool handlers, the capability plan, registries, manifest and configuration structures: tables and simple scans.
- FirewallLookup.LookupIsTheNaiveScan: on listings whose elements are of the declared type, whose ranges are in order, that list no set twice, and in which the last set of a reference's key is the one it names; `FirewallLookup.RefAnsweredIff` covers every other reference.
