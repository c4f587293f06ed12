# Traffic analytics core, modelled in Dafny

This project models the traffic-analytics back end of
`proyecto-finalpatrones-sara`. The back end holds snapshot records (`Detection`),
each with a timestamp, a `yyyy-MM-dd HH:mm:ss` date and three JSON blobs:
vehicle counts per type, counts per lane and type, and average speed per lane.
Several services turn the history into views. The model covers five parts:

- **Expiring caches.** The two `CacheService` variants are a key to
  (value, expiration) map. An entry is live until its expiration instant. A read
  that finds an expired entry deletes it. The `projectback` variant runs `put`,
  `remove` and `clear` only when `tryLock` succeeds.
  - Files: `cache_entries.dfy`, `expiring_cache.dfy`, `locked_cache.dfy`.
- **The cache-first `AnalysisService` of the main tree.** Each view answers from
  the cache under its own fixed key. On a miss it computes the view and stores it
  for five minutes.
  - Files: `cached_analysis.dfy`, plus the loops it shares with the other services
    in `aggregation.dfy`.
- **The uncached `AnalysisService` of the `projectback` tree.** It has the hourly
  pattern with its random fill, the array view and the list items.
  - File: `uncached_analysis.dfy`.
- **`TrafficAnalysisService`.** It builds per-type volume keyed by hour and by day,
  sums lane volume over all records, and applies a stricter bottleneck rule. Its
  uncaught date-parse exception is modelled as an `Err` result.
  - Files: `traffic_analysis.dfy`, with the keyed-count algebra in `tagged_counts.dfy`.
- **`DataStructureService`.** It has a circular doubly linked list of heap nodes,
  stack and queue drains, an `int` array, and a tree rendered by a recursive `toMap`.
  - File: `data_structures.dfy`.

**Supporting files:**
- `wrappers.dfy`: `Option` and `Result`.
- `map_sums.dfy`: order-independent sums over maps, `getOrDefault`/`merge` steps, means.
- `detections.dfy`: the record; the decode helpers; the date parser; Java `/`, `%`
  and `intValue()`; number rendering.
- `ordering.dfy`: the timestamp sort, the latest record, the stable filter.

**How the model is built:**
- Every loop of the source is a method proved against a specification function
  that folds over the records in order.
- Lemmas then say what each fold means per key. They relate it to an independent
  record-by-record sum, to the grand total, to an inverse, or to a sort order.
- `HashMap` iteration is an arbitrary choice of the next key (`:|`). Every property
  is therefore stated for any iteration order.

**The most recent record:** `stream().max(comparator)` (`BinaryOperator.maxBy`,
which keeps `a` when the comparison is `>= 0`) keeps the first of several records
with the largest timestamp. `Ordering.FirstLatestIndex` and `Ordering.LatestIndex`
follow that.

## Model

| member | source | states |
|---|---|---|
| CacheEntries.ExpiryBoundary | src/main/java/com/example/demo/service/CacheService.java:126-128 | an entry is still live at its expiration instant and expired one millisecond later (strict `>`) |
| CacheEntries.PutThenLookup | src/main/java/com/example/demo/service/CacheService.java:42-69 | after storing `(v, now + ttl)` a read at `t` answers `v` exactly when `t <= now + ttl`; every other key reads as before |
| CacheEntries.EvictionUnobservable | src/main/java/com/example/demo/service/CacheService.java:62-66 | deleting an entry found expired at `now` changes no later read of any key |
| CacheEntries.LookupMonotone | src/main/java/com/example/demo/service/CacheService.java:126-128 | once an entry answers at `t`, it answered the same value at every earlier instant (absent stays absent) |
| ExpiringCache.CacheService.constructor | src/main/java/com/example/demo/service/CacheService.java:20 | a new cache is empty |
| ExpiringCache.CacheService.Put | src/main/java/com/example/demo/service/CacheService.java:23-33 | `put(k, v)` stores `(v, now + 300000)` under `k`, replacing any earlier entry, and nothing else changes |
| ExpiringCache.CacheService.PutWithExpiration | src/main/java/com/example/demo/service/CacheService.java:42-46 | stores `(v, now + expirationMs)` under `k`, overwriting, all other keys unchanged |
| ExpiringCache.CacheService.Get | src/main/java/com/example/demo/service/CacheService.java:54-70 | a missing key answers None and leaves the map; an expired entry answers None and deletes that key only; a live entry answers its value and leaves the map |
| ExpiringCache.CacheService.Contains | src/main/java/com/example/demo/service/CacheService.java:78-90 | true exactly when `get` would answer a value at the same instant, with the same deletion of an expired entry |
| ExpiringCache.CacheService.Remove | src/main/java/com/example/demo/service/CacheService.java:97-100 | deletes `k` and no other key |
| ExpiringCache.CacheService.Clear | src/main/java/com/example/demo/service/CacheService.java:105-108 | leaves the map empty, so every later read answers None |
| ExpiringCache.PutThenGet | src/main/java/com/example/demo/service/CacheService.java:31-69 | `put(k, v)` followed by `get(k)` at the same instant answers `v` and keeps the new entry |
| LockedCache.CacheService.constructor | projectback/src/main/java/com/example/demo/service/CacheService.java:17 | a new cache is empty |
| LockedCache.CacheService.Put | projectback/src/main/java/com/example/demo/service/CacheService.java:18-23 | with the lock, `put(k, v)` stores `(v, now + 300000)`; without it the map is unchanged |
| LockedCache.CacheService.PutWithExpiration | projectback/src/main/java/com/example/demo/service/CacheService.java:25-42 | with the lock, stores `(v, now + expirationMs)` replacing any entry for `k`; a failed `tryLock` leaves the map unchanged |
| LockedCache.CacheService.Get | projectback/src/main/java/com/example/demo/service/CacheService.java:44-60 | answers the live value or None whatever the lock does; an expired entry is deleted (that key only) when `remove` obtains the lock, else the map is unchanged |
| LockedCache.CacheService.Contains | projectback/src/main/java/com/example/demo/service/CacheService.java:62-74 | true exactly when `get` would answer a value, with the same lock-dependent deletion |
| LockedCache.CacheService.Remove | projectback/src/main/java/com/example/demo/service/CacheService.java:76-90 | with the lock deletes `k` only; without it the map is unchanged |
| LockedCache.CacheService.Clear | projectback/src/main/java/com/example/demo/service/CacheService.java:92-106 | with the lock empties the map; without it the map is unchanged |
| LockedCache.SkippedRemovalIsHarmless | projectback/src/main/java/com/example/demo/service/CacheService.java:52-56 | two reads of one key, at `now` and later at `t`, answer as the original map does at those instants, whether or not either read's removal obtains the lock |
| Aggregation.TotalsMeaning | src/main/java/com/example/demo/service/AnalysisService.java:62-77 | type `t` is a key of `total` exactly when some decodable record mentions it, and its value is `t`'s count summed over the records |
| Aggregation.MalformedTotalsContributeNothing | src/main/java/com/example/demo/service/AnalysisService.java:64-77 | inserting a record whose blob does not decode, anywhere in the history, changes no total |
| Aggregation.TypeCountSkip | src/main/java/com/example/demo/service/AnalysisService.java:64-77 | the per-type record-by-record count ignores an undecodable record |
| Aggregation.GrandTotal | src/main/java/com/example/demo/service/AnalysisService.java:79-87 | the sum of `total` equals the sum over records of each record's own vehicle total |
| Aggregation.MergeAll | src/main/java/com/example/demo/service/AnalysisService.java:70-73 | the inner `put(k, getOrDefault(k, 0) + v)` loop merges every entry into the accumulator, for any iteration order |
| Aggregation.ComputeTotals | src/main/java/com/example/demo/service/AnalysisService.java:62-77 | the `totalCount` loop yields the per-type totals, skipping undecodable blobs |
| Aggregation.ComputeTotalVolume | src/main/java/com/example/demo/service/AnalysisService.java:62-94 | `total` is the per-type totals; `hourly` has exactly morning/afternoon/evening and `daily` exactly weekday/weekend, being `S/3, S/2, S/4, S*5/7, S*2/7` of the grand total `S` |
| Aggregation.TotalVolumeExample | src/main/java/com/example/demo/service/AnalysisService.java:79-87 | a single record with 10 cars and 5 trucks gives hourly 5/7/3 and daily 10/4 (truncating division) |
| Aggregation.SpeedListsMeaning | src/main/java/com/example/demo/service/AnalysisService.java:196-213 | a lane has a speed list exactly when some decodable record reports it, and the list is those speeds in record order |
| Aggregation.AvgSpeedMeaning | src/main/java/com/example/demo/service/AnalysisService.java:196-222 | the average map has lane `L` exactly when some decodable record reports `L`, and its value is the mean of those speeds |
| Aggregation.AvgSpeedExample | src/main/java/com/example/demo/service/AnalysisService.java:215-222 | speeds 10.0 and 20.0 on `lane_1` average to 15.0 |
| Aggregation.AppendAll | src/main/java/com/example/demo/service/AnalysisService.java:204-209 | the inner loop appends each lane's speed to its list, creating the list on first sight |
| Aggregation.CollectSpeeds | src/main/java/com/example/demo/service/AnalysisService.java:196-213 | the `speedsByLane` loop yields the per-lane speed lists, skipping undecodable blobs |
| Aggregation.AverageLists | src/main/java/com/example/demo/service/AnalysisService.java:215-222 | each non-empty list is replaced by its mean |
| Aggregation.ComputeAvgSpeedByLane | src/main/java/com/example/demo/service/AnalysisService.java:194-222 | the average-speed view equals the per-lane mean specification |
| Aggregation.CountLaneVehicles | src/main/java/com/example/demo/service/AnalysisService.java:253-264 | `totalVehicles` is the sum of the lane's counts and `heavyVehicles` its trucks plus buses, both 0 for an absent lane |
| Aggregation.SlowestLane | src/main/java/com/example/demo/service/AnalysisService.java:277-280 | on a non-empty speed map, returns a lane whose speed is at most every other lane's |
| Aggregation.SlowStep | src/main/java/com/example/demo/service/AnalysisService.java:247-272 | examining one more lane, and listing it when it is below 15 km/h, keeps the list correct for the lanes seen |
| Aggregation.SlowDone | src/main/java/com/example/demo/service/AnalysisService.java:247-275 | after every lane, a non-empty list is a bottleneck report and an empty one means no lane is below 15 km/h |
| Aggregation.FindBottlenecks | src/main/java/com/example/demo/service/AnalysisService.java:245-288 | one entry per lane below 15 km/h with its total and heavy counts, and nothing else; if none qualifies but speeds exist, exactly one 30/8 entry for a slowest lane at its own speed; no speeds gives the empty list |
| Aggregation.Share | src/main/java/com/example/demo/service/AnalysisService.java:409 | a share is between 0 and 100 when the count is within the sum, and 0.0 when the sum is not positive |
| Aggregation.SumOfShares | src/main/java/com/example/demo/service/AnalysisService.java:405-411 | the shares of the counts add up to the share of their sum |
| Aggregation.DominanceSumsToHundred | src/main/java/com/example/demo/service/AnalysisService.java:405-411 | when anything was counted the shares add up to exactly 100 |
| Aggregation.ComputeShares | src/main/java/com/example/demo/service/AnalysisService.java:405-411 | the dominance loop gives each counted type `count * 100 / sum` (0.0 when the sum is 0) |
| Aggregation.PaddedHourKey | projectback/src/main/java/com/example/demo/trafficanalysis/service/AnalysisService.java:111 | `%02d:00` of an hour is a five-character key |
| Aggregation.PaddedHourKeyInjective | projectback/src/main/java/com/example/demo/trafficanalysis/service/AnalysisService.java:108-112 | different hours get different keys, so the 24 keys are distinct |
| Aggregation.BucketTotalsMeaning | projectback/src/main/java/com/example/demo/trafficanalysis/service/AnalysisService.java:92-105 | a bucket (hour) has an entry exactly when some record falls in it, and the entry is the sum of those records' vehicle totals |
| Ordering.InsertCounts | src/main/java/com/example/demo/service/AnalysisService.java:306-308 | one insertion step adds exactly the inserted record |
| Ordering.InsertSorted | src/main/java/com/example/demo/service/AnalysisService.java:306-308 | inserting into an ascending list keeps it ascending |
| Ordering.SortByTimestamp | src/main/java/com/example/demo/service/AnalysisService.java:306-308 | the sorted list is ascending by `timestampMs` and a permutation of the input |
| Ordering.SortIsStable | src/main/java/com/example/demo/service/AnalysisService.java:306-308 | records with equal timestamps keep their input order (the library sort is stable) |
| Ordering.SortOfSorted | src/main/java/com/example/demo/service/AnalysisService.java:306-308 | an already ascending list is returned unchanged |
| Ordering.FirstLatestUnique | src/main/java/com/example/demo/service/AnalysisService.java:114-116 | at most one index is the first record with the largest timestamp |
| Ordering.FirstLatestIndex | src/main/java/com/example/demo/service/AnalysisService.java:114-116 | on a non-empty list, the index of a record with the largest timestamp that no earlier record ties |
| Ordering.LatestIndex | src/main/java/com/example/demo/service/AnalysisService.java:114-116 | the `max` loop answers None exactly on an empty list, else the first latest record |
| Ordering.HeadOfDescendingIsLatest | projectback/src/main/java/com/example/demo/trafficanalysis/service/AnalysisService.java:66-73 | the head of the newest-first list has a largest timestamp |
| Ordering.Keep | src/main/java/com/example/demo/service/AnalysisService.java:315-328 | dropping records never lengthens the list |
| Ordering.KeepFacts | src/main/java/com/example/demo/service/AnalysisService.java:315-328 | exactly the records passing the test survive, and an ascending list stays ascending |
| CachedAnalysis.AfterViewHits | src/main/java/com/example/demo/service/AnalysisService.java:96 | a view stored at `now` is answered from the cache for the next five minutes |
| CachedAnalysis.AfterViewOthers | src/main/java/com/example/demo/service/AnalysisService.java:50-98 | a view touches only its own key: every other key reads as before, now and later |
| CachedAnalysis.AfterViewWithout | src/main/java/com/example/demo/service/AnalysisService.java:50-98 | deleting an unrelated key before or after a view gives the same cache |
| CachedAnalysis.AfterBottlenecksEvicted | src/main/java/com/example/demo/service/AnalysisService.java:230-293 | the expired bottleneck entry deleted by the first lookup leaves no trace once the new list is stored |
| CachedAnalysis.HourlyPatternsShape | src/main/java/com/example/demo/service/AnalysisService.java:150-174 | the constant table has exactly the keys `"00:00"`..`"23:00"`, with values from 8 to 210 |
| CachedAnalysis.HourlyPatternsHasHour | src/main/java/com/example/demo/service/AnalysisService.java:150-174 | every hour 0..23 has its padded key in the constant table |
| CachedAnalysis.HourlyPatternsKeyIsHour | src/main/java/com/example/demo/service/AnalysisService.java:150-174 | every key of the constant table is the padded key of an hour 0..23 |
| CachedAnalysis.EvolutionRecords | src/main/java/com/example/demo/service/AnalysisService.java:306-328 | the kept records are ascending and are exactly the input records that pass the decode test |
| CachedAnalysis.CollectTrafficEvolution | src/main/java/com/example/demo/service/AnalysisService.java:315-328 | point `i` of all four lists is kept record `i`'s date and car/bus/truck counts (0 when missing); an undecodable record is in no list |
| CachedAnalysis.CollectSpeedEvolution | src/main/java/com/example/demo/service/AnalysisService.java:362-375 | point `i` of all four lists is kept record `i`'s date and lane 1-3 speeds (0.0 when missing) |
| CachedAnalysis.AnalysisService.constructor | src/main/java/com/example/demo/service/AnalysisService.java:22-39 | the service starts with an empty cache |
| CachedAnalysis.AnalysisService.RefreshCache | src/main/java/com/example/demo/service/AnalysisService.java:45-48 | the scheduled refresh empties the cache |
| CachedAnalysis.AnalysisService.GetTotalVolume | src/main/java/com/example/demo/service/AnalysisService.java:50-98 | a live cached view is returned unchanged; otherwise the totals and splits of the history are returned and stored for 300000 ms under `totalVolume` |
| CachedAnalysis.AnalysisService.GetVolumeByLane | src/main/java/com/example/demo/service/AnalysisService.java:101-135 | a live cached view is returned; otherwise the decoded lanes of the first latest record; an empty history or a decode failure gives `{}` and stores nothing |
| CachedAnalysis.AnalysisService.GetHourlyPatterns | src/main/java/com/example/demo/service/AnalysisService.java:138-180 | a live cached view is returned; otherwise the constant 24-hour table, which is then stored |
| CachedAnalysis.AnalysisService.GetAvgSpeedByLane | src/main/java/com/example/demo/service/AnalysisService.java:182-228 | a live cached view is returned; otherwise the per-lane mean speeds, which are then stored |
| CachedAnalysis.AnalysisService.GetBottlenecks | src/main/java/com/example/demo/service/AnalysisService.java:230-294 | a live cached list is returned; otherwise the 15 km/h report over the (possibly cached) speed and lane views, stored under `bottlenecks` |
| CachedAnalysis.AnalysisService.ComputeBottlenecks | src/main/java/com/example/demo/service/AnalysisService.java:240-291 | the report is a bottleneck report over the speed and lane views that the two nested calls answer, each from the cache when live |
| CachedAnalysis.AnalysisService.GetTrafficEvolution | src/main/java/com/example/demo/service/AnalysisService.java:296-341 | a live cached series is returned; otherwise the series of the timestamp-sorted records whose totals decode, stored |
| CachedAnalysis.AnalysisService.GetSpeedEvolution | src/main/java/com/example/demo/service/AnalysisService.java:343-388 | a live cached series is returned; otherwise the series of the sorted records whose speeds decode, stored |
| CachedAnalysis.AnalysisService.GetVehicleTypeDominance | src/main/java/com/example/demo/service/AnalysisService.java:390-417 | a live cached map is returned; otherwise the shares of the (possibly cached) total-volume view's totals, stored |
| UncachedAnalysis.GetTotalVolume | projectback/src/main/java/com/example/demo/trafficanalysis/service/AnalysisService.java:26-62 | per-type totals over the records, and hourly/daily as the truncating divisions of their sum |
| UncachedAnalysis.VolumeByLane | projectback/src/main/java/com/example/demo/trafficanalysis/service/AnalysisService.java:64-81 | `{}` for no records, else the decoded lanes of the head of the newest-first list (`{}` when it fails to decode); the head has a largest timestamp |
| UncachedAnalysis.ComputeHourCounts | projectback/src/main/java/com/example/demo/trafficanalysis/service/AnalysisService.java:90-105 | the `hourCounts` loop sums each parsable record's vehicle total under its hour; a bad date contributes to no hour |
| UncachedAnalysis.GetHourlyPatterns | projectback/src/main/java/com/example/demo/trafficanalysis/service/AnalysisService.java:83-115 | exactly the 24 keys `"00:00"`..`"23:00"`; an hour with a usable record maps to those records' total; any other gets 100..199 for hours 7-19 and 20..69 otherwise |
| UncachedAnalysis.FillStep | projectback/src/main/java/com/example/demo/trafficanalysis/service/AnalysisService.java:108-112 | putting the next hour's key extends a table of the first `h` hours to `h + 1` hours |
| UncachedAnalysis.FillHours | projectback/src/main/java/com/example/demo/trafficanalysis/service/AnalysisService.java:108-112 | the fill loop keeps every counted hour's count and gives every other hour a value in its simulated range |
| UncachedAnalysis.GetAvgSpeedByLane | projectback/src/main/java/com/example/demo/trafficanalysis/service/AnalysisService.java:117-149 | the per-lane mean speeds over the decodable records |
| UncachedAnalysis.GetBottlenecks | projectback/src/main/java/com/example/demo/trafficanalysis/service/AnalysisService.java:151-204 | the 15 km/h report, truck+bus as heavy, the single 30/8 fallback only when speeds exist, over this service's speed and lane views |
| UncachedAnalysis.GetTrafficEvolution | projectback/src/main/java/com/example/demo/trafficanalysis/service/AnalysisService.java:206-234 | one point per record of the ascending list (an undecodable blob reads as `{}`), 0 for a missing type |
| UncachedAnalysis.GetSpeedEvolution | projectback/src/main/java/com/example/demo/trafficanalysis/service/AnalysisService.java:236-264 | one point per record of the ascending list, 0.0 for a missing lane |
| UncachedAnalysis.GetVehicleTypeDominance | projectback/src/main/java/com/example/demo/trafficanalysis/service/AnalysisService.java:266-281 | each counted type's share of the total, 0.0 for all when the sum is 0 |
| UncachedAnalysis.ArrayData | projectback/src/main/java/com/example/demo/trafficanalysis/service/AnalysisService.java:283-292 | `min(10, n)` values, value `i` being record `i`'s `timestampMs % 100` with Java's sign rule (negative only for a negative timestamp) |
| UncachedAnalysis.CreateListItems | projectback/src/main/java/com/example/demo/trafficanalysis/service/AnalysisService.java:347-377 | with records, `min(count, n)` items with ids `1..k` carrying the first records' dates; with none, `count` fallback items dated `i` hours ago |
| TrafficAnalysis.HourLabel | src/main/java/com/example/demo/service/TrafficAnalysisService.java:89 | the hour label is the unpadded hour followed by `:00` (`"7:00"`, `"17:00"`) |
| TrafficAnalysis.HourLabelInjective | src/main/java/com/example/demo/service/TrafficAnalysisService.java:89 | different hours get different labels |
| TrafficAnalysis.DayTag | src/main/java/com/example/demo/service/TrafficAnalysisService.java:44 | the day part `"_" + yyyy-MM-dd` is eleven characters |
| TrafficAnalysis.HourKeyCancel | src/main/java/com/example/demo/service/TrafficAnalysisService.java:47 | `t1 + "_" + h1 + ":00"` equals `t2 + "_" + h2 + ":00"` only for the same type and hour |
| TrafficAnalysis.DateTagsFail | src/main/java/com/example/demo/service/TrafficAnalysisService.java:42-44 | a record has no hour tag and no day tag exactly when its date does not parse |
| TrafficAnalysis.AddTypeVolume | src/main/java/com/example/demo/service/TrafficAnalysisService.java:38-51 | one vehicle type's step, given the outcome of parsing the record's date: a failed parse raises the exception naming the date; otherwise the count is merged into total, into `type_hour` and into `type_day` |
| TrafficAnalysis.AddNextType | src/main/java/com/example/demo/service/TrafficAnalysisService.java:38-51 | one turn of the inner `forEach`: fails exactly when the date does not parse; otherwise one type fewer is left and the volume still to come, merged into the new maps, is the volume the record adds to the old ones |
| TrafficAnalysis.AddTypeVolumes | src/main/java/com/example/demo/service/TrafficAnalysisService.java:38-51 | the inner `forEach`: fails exactly when the record has a vehicle type and its date does not parse; otherwise every type's count is merged into total and into its hour and day keys, whatever the iteration order |
| TrafficAnalysis.MergeTaggedStep | src/main/java/com/example/demo/service/TrafficAnalysisService.java:39-50 | merging one type's count under its three keys and then the remaining types gives the same maps as merging all the types |
| TrafficAnalysis.AddRecordVolume | src/main/java/com/example/demo/service/TrafficAnalysisService.java:35-52 | one record: fails exactly when it has a vehicle type and its date does not parse; otherwise adds that record's volume |
| TrafficAnalysis.VolumeStep | src/main/java/com/example/demo/service/TrafficAnalysisService.java:34-51 | the outer `forEach` on record `i`: fails exactly when that record fails; otherwise the maps of the first `i + 1` records |
| TrafficAnalysis.VolumesUpToIs | src/main/java/com/example/demo/service/TrafficAnalysisService.java:34-51 | folding the first `n` records by index gives the maps of the prefix of length `n` |
| TrafficAnalysis.CollectVolumeByType | src/main/java/com/example/demo/service/TrafficAnalysisService.java:34-52 | fails exactly when some record fails, reporting the first one; otherwise the three maps of the whole history |
| TrafficAnalysis.GetTotalVehicleVolumeByType | src/main/java/com/example/demo/service/TrafficAnalysisService.java:28-59 | throws exactly when a record that has a vehicle type has a malformed date, naming the first such record; otherwise hourly, daily and total of the history |
| TrafficAnalysis.HourlyVolumeMeaning | src/main/java/com/example/demo/service/TrafficAnalysisService.java:43-47 | the entry `t_H:00` is the count of type `t` over the records of hour `H` |
| TrafficAnalysis.DailyVolumeMeaning | src/main/java/com/example/demo/service/TrafficAnalysisService.java:44-50 | the entry `t_yyyy-MM-dd` is the count of type `t` over the records of that day |
| TrafficAnalysis.VolumeSlicesAddUp | src/main/java/com/example/demo/service/TrafficAnalysisService.java:38-51 | when no date fails, type `t`'s hourly entries, and likewise its daily entries, add up to `total[t]` |
| TrafficAnalysis.VolumeGrandTotals | src/main/java/com/example/demo/service/TrafficAnalysisService.java:38-51 | when no date fails, hourly, daily and total count the same number of vehicles |
| TrafficAnalysis.LaneVolumesMeaning | src/main/java/com/example/demo/service/TrafficAnalysisService.java:61-80 | a lane is present exactly when some decodable record has it, and its count of type `t` is summed over all records, not just the latest |
| TrafficAnalysis.MergeLanesAll | src/main/java/com/example/demo/service/TrafficAnalysisService.java:68-75 | the `forEach` over lanes merges every lane's counts into that lane's map, creating it first |
| TrafficAnalysis.GetVehicleVolumeByLane | src/main/java/com/example/demo/service/TrafficAnalysisService.java:61-80 | the per-lane, per-type sums over all records |
| TrafficAnalysis.CollectHourlyCounts | src/main/java/com/example/demo/service/TrafficAnalysisService.java:86-95 | fails at the first record without a label; otherwise the per-label vehicle totals |
| TrafficAnalysis.GetTrafficPatternsByHour | src/main/java/com/example/demo/service/TrafficAnalysisService.java:82-97 | throws exactly when some date is malformed, naming the first; otherwise the per-hour-label totals |
| TrafficAnalysis.HourLabelBuckets | src/main/java/com/example/demo/service/TrafficAnalysisService.java:86-93 | bucketing by label `"H:00"` is bucketing by hour `H` |
| TrafficAnalysis.TrafficPatternsMeaning | src/main/java/com/example/demo/service/TrafficAnalysisService.java:86-96 | label `"H:00"` is a key exactly when some record falls in hour `H`, mapped to the sum of those records' totals |
| TrafficAnalysis.TrafficPatternsKeys | src/main/java/com/example/demo/service/TrafficAnalysisService.java:86-96 | every key is the label of an hour that occurs |
| TrafficAnalysis.GetAverageSpeedByLane | src/main/java/com/example/demo/service/TrafficAnalysisService.java:100-123 | the per-lane mean speeds over all records |
| TrafficAnalysis.ReportStep | src/main/java/com/example/demo/service/TrafficAnalysisService.java:136-150 | examining one more lane, and adding it when congested, keeps the report correct for the lanes seen |
| TrafficAnalysis.FindCongestedLanes | src/main/java/com/example/demo/service/TrafficAnalysisService.java:136-150 | one entry exactly per lane with speed < 10.0, more than 10 vehicles and at least 2 heavy vehicles, with its counts; no synthetic entry |
| TrafficAnalysis.IdentifyBottlenecks | src/main/java/com/example/demo/service/TrafficAnalysisService.java:125-153 | the strict rule over the average speeds and the summed lane volumes |
| TrafficAnalysis.SortedFitsInt | src/main/java/com/example/demo/service/TrafficAnalysisService.java:157-170 | sorting keeps every timestamp within Java `int` range when the input had them so |
| TrafficAnalysis.GetTrafficEvolutionOverTime | src/main/java/com/example/demo/service/TrafficAnalysisService.java:156-177 | one point per record of the sorted list, timestamps narrowed by `intValue()`, 0 for a missing type; ascending timestamps when they fit an `int` |
| TrafficAnalysis.GetSpeedEvolutionOverTime | src/main/java/com/example/demo/service/TrafficAnalysisService.java:179-200 | one point per record of the sorted list, ascending timestamps, 0.0 for a missing lane |
| TrafficAnalysis.GetVehicleTypeDominance | src/main/java/com/example/demo/service/TrafficAnalysisService.java:203-230 | empty when the grand total is 0; otherwise each type's `count * 100 / grandTotal`, adding up to 100 |
| TaggedCounts.TagSum | src/main/java/com/example/demo/service/TrafficAnalysisService.java:47-50 | re-keying a record's counts as `type + tag` keeps their sum |
| TaggedCounts.TaggedFoldMeaning | src/main/java/com/example/demo/service/TrafficAnalysisService.java:47-50 | in a separated key family, the entry `t + tag` is type `t`'s count over the records with that tag |
| TaggedCounts.TaggedFoldSum | src/main/java/com/example/demo/service/TrafficAnalysisService.java:38-51 | when every counting record is tagged, the keyed table sums to the grand total |
| TaggedCounts.OfTypeSum | src/main/java/com/example/demo/service/TrafficAnalysisService.java:38-51 | type `t`'s keyed entries add up to `t`'s count over all records |
| DataStructures.Reversed | src/main/java/com/example/demo/service/datastructures/DataStructureService.java:155-166 | element `i` of the reversal is element `n - 1 - i` |
| DataStructures.ReversedTwice | src/main/java/com/example/demo/service/datastructures/DataStructureService.java:155-166 | reversing twice gives the sequence back |
| DataStructures.CircularDoubleLinkedList.constructor | src/main/java/com/example/demo/service/datastructures/DataStructureService.java:106-109 | a new list is empty, with no head |
| DataStructures.CircularDoubleLinkedList.Add | src/main/java/com/example/demo/service/datastructures/DataStructureService.java:121-138 | the element becomes the new tail, size grows by 1, `tail.next == head` and `head.prev == tail`; on an empty list the node is head and tail linked to itself; otherwise the head stays |
| DataStructures.CircularDoubleLinkedList.ToList | src/main/java/com/example/demo/service/datastructures/DataStructureService.java:140-151 | the elements in insertion order, as many as `size` (empty for an empty list) |
| DataStructures.CircularDoubleLinkedList.ToReverseList | src/main/java/com/example/demo/service/datastructures/DataStructureService.java:155-166 | exactly the reverse of the insertion order |
| DataStructures.ListBothWays | src/main/java/com/example/demo/service/datastructures/DataStructureService.java:140-166 | the backward walk is the forward walk reversed, and vice versa |
| DataStructures.GetDetectionsAsArray | src/main/java/com/example/demo/service/datastructures/DataStructureService.java:26-31 | a new array as long as the input, slot `i` holding record `i`'s `timestampMs.intValue()`, within `int` range |
| DataStructures.GetDetectionsAsLinkedList | src/main/java/com/example/demo/service/datastructures/DataStructureService.java:34-45 | the records in their original order |
| DataStructures.GetDetectionsAsCircularDoubleLinkedList | src/main/java/com/example/demo/service/datastructures/DataStructureService.java:48-53 | adding every record and walking forward gives the records in order |
| DataStructures.GetDetectionsAsStack | src/main/java/com/example/demo/service/datastructures/DataStructureService.java:56-67 | pushing all and popping until empty gives the records reversed |
| DataStructures.GetDetectionsAsQueue | src/main/java/com/example/demo/service/datastructures/DataStructureService.java:70-81 | offering all and polling until empty gives the records in order |
| DataStructures.ToMap | src/main/java/com/example/demo/service/datastructures/DataStructureService.java:183-196 | `"value"` is always present with the node's label; `"children"` is present exactly for a node that has children; no other key |
| DataStructures.ToMapInjective | src/main/java/com/example/demo/service/datastructures/DataStructureService.java:183-196 | the rendering mirrors the tree: different trees give different maps |
| DataStructures.VehicleNodes | src/main/java/com/example/demo/service/datastructures/DataStructureService.java:96-99 | one leaf `type: count` per vehicle type of the record, each type once |
| DataStructures.DetectionNode | src/main/java/com/example/demo/service/datastructures/DataStructureService.java:89-99 | the node `"Detection " + id` with one leaf per vehicle type |
| DataStructures.DetectionNodes | src/main/java/com/example/demo/service/datastructures/DataStructureService.java:88-100 | one node per record, in order, each the record's detection node |
| DataStructures.GetDetectionsAsTree | src/main/java/com/example/demo/service/datastructures/DataStructureService.java:84-103 | the rendering of a `"Root"` tree with one child per record in order, each with one leaf per vehicle type; `"children"` present exactly when there are records |
| Detections.JavaRemFacts | projectback/src/main/java/com/example/demo/trafficanalysis/service/AnalysisService.java:290 | Java `%` stays strictly within `(-b, b)`, takes the dividend's sign, and completes truncating division |
| Detections.IntValueFacts | src/main/java/com/example/demo/service/datastructures/DataStructureService.java:29 | `intValue()` gives an `int` congruent to the `long` modulo 2^32, equal to it when it fits |
| Detections.ParseDateTime | src/main/java/com/example/demo/service/TrafficAnalysisService.java:42 | a parsed date has hour 0-23, month 1-12 and a day within the month |
| Detections.HourOf | projectback/src/main/java/com/example/demo/trafficanalysis/service/AnalysisService.java:94-96 | a parsed hour lies in 0..23 |
| MapSums.SumValuesRemove | src/main/java/com/example/demo/service/AnalysisService.java:81 | the sum of a map's values does not depend on the order its keys are visited |
| MapSums.SumValuesMerge | src/main/java/com/example/demo/service/AnalysisService.java:70-73 | merging two count maps adds their grand totals |
| MapSums.SumOf | src/main/java/com/example/demo/service/AnalysisService.java:81 | `values().stream().sum()` computes the order-independent sum |
| MapSums.MeanBounds | src/main/java/com/example/demo/service/AnalysisService.java:217-220 | an average lies between the smallest and the largest speed |

## Left out

- Clocks: `Instant.now()` and `LocalDateTime.now()` become an explicit `now` argument.
  - A call that reads the clock more than once (for example `get` calling `isExpired`, then `remove`) is modelled with one instant per call.
  - The fallback list items take the formatted "i hours ago" text as a function argument.
- Concurrency:
  - The `ReentrantLock`, its 1000 ms timeout and thread interrupts become a `locked` flag per call.
  - `ConcurrentHashMap` thread safety is not modelled.
  - Two concurrent misses recomputing the same view are not modelled.
- Randomness: `Math.random()` becomes an arbitrary choice within the stated ranges.
- Floating point: Java `double` speeds, averages and percentages are exact `real` numbers, so no rounding is modelled.
- Integer overflow: counts, sums and `S*5/7` are unbounded integers, so Java `int` overflow is not modelled.
  - `long` to `int` narrowing (`intValue()`) is modelled exactly.
  - `CircularDoubleLinkedList.size` is unbounded.
- CacheEntries.PutThenLookup, ExpiringCache.CacheService.PutWithExpiration, LockedCache.CacheService.PutWithExpiration: the expiration `now + expirationMs` is an unbounded integer. The Java `long` sum wraps past 2^63 - 1 (`put(k, v, Long.MAX_VALUE)` stores a negative expiration, so the entry is expired at once); the model's entry stays live until `now + expirationMs`.
- TrafficAnalysis.GetSpeedEvolutionOverTime: the `(double) timestampMs` conversion is exact in the model; Java rounds a timestamp beyond 2^53 to the nearest `double`.
- JSON: the Jackson decoding of the blobs is given as `Option` values on the record, with `None` for a blob on which the decoder throws `JsonProcessingException`.
  - `DetectionService` of the main tree is not part of this model. Its `parseObjectsTotal`/`parseAvgSpeedByLane` are taken to return `{}` on failure, like the `parse*` helpers of the `projectback` service.
  - The JSON literal `null` and null columns are not modelled. The loaders write the text `"null"` for a missing field, and the `projectback` loader's fallback `new Detection()` leaves every column null. Jackson decodes `"null"` to `null` without throwing, and `readValue` rejects a null column with `IllegalArgumentException`. In Java, such a record:
    - makes `getTotalVolume`, `getAvgSpeedByLane`, `getTrafficEvolution` and `getSpeedEvolution` of the main-tree `AnalysisService` throw, because they catch only `JsonProcessingException`; the model can only express such a blob as an undecodable one, which `CachedAnalysis` skips;
    - counts in no hour in `projectback` `getHourlyPatterns`, which catches the `NullPointerException`; `UncachedAnalysis.GetHourlyPatterns` reads an undecodable blob as `{}` and adds 0 to the record's hour, so that hour keeps 0 instead of a simulated value;
    - adds its date but no counts in `projectback` `getTrafficEvolution`, so the four lists there can differ in length; `UncachedAnalysis.GetTrafficEvolution` reads an undecodable blob as `{}` and adds a full point with zero counts.
- The repository: `findAll()` and the ordered queries are parameters.
  - The ordered queries are parameters with a sortedness precondition.
- Date parsing: `LocalDateTime.parse` is a fixed-layout parser for `yyyy-MM-dd HH:mm:ss` with years 1-9999, months 1-12, days 1-31, hours 0-23 and minutes and seconds 0-59.
  - The resolver's clamp of a day past the month's end (`2023-02-30` reads as February 28) is modelled in `Detections.ParseDateTime`.
  - Signed or five-digit years are not modelled.
  - The resolver reads `"… 24:00:00"` as midnight of the next day. The model rejects that text instead. For such a record, `TrafficAnalysis.GetTrafficPatternsByHour` and (when the record has a vehicle type) `TrafficAnalysis.GetTotalVehicleVolumeByType` answer `Err` where Java answers, and `UncachedAnalysis.GetHourlyPatterns` counts the record in no hour where Java counts it in hour 0.
- `HashMap` iteration order is an arbitrary choice. Results whose order depends on it (bottleneck list order, tree leaf order, which tied lane is the slowest) are stated as membership and count facts.
- DataStructures.GetDetectionsAsTree: the tree is built as immutable values and rendered with `ToMap`. The in-place `addChild` on `TreeNode` objects, and the attaching of a node to its parent before its children are added, are not modelled as heap updates. The rendered map is the same.
- DataStructures.GetDetectionsAsStack, GetDetectionsAsQueue, GetDetectionsAsLinkedList: `java.util` `Stack`, `LinkedList` and `Queue` are sequences drained in loops.
- The constant `getArrayData`, `getLinkedListData`, `getStackData` and `getTreeData` of the main-tree service (src/main/java/com/example/demo/service/AnalysisService.java:419-490) are not modelled, and neither is the constant `getTreeData` of the `projectback` service.
- The `projectback` list-data endpoints only call `createListItems(8)`, which is modelled; the endpoints themselves are not.
- Controllers, filters, configuration, the file watcher and the JSON loaders are not part of this model.
- Logging is not modelled.
- TrafficAnalysis.GetTotalVehicleVolumeByType, TrafficAnalysis.GetTrafficPatternsByHour: the `DateTimeParseException` that escapes the view is an `Err` result naming the rejected text; the exception's message and stack are not modelled.
