/**
  The cache-first analytics service of the main tree (`AnalysisService`). Every view
  first asks the shared expiring cache under its own fixed key; a live entry is
  returned as it is, without reading the records. Otherwise the view is computed
  from the records (the repository's `findAll()`, passed in as `detections`) and
  stored for five minutes. The clock is the `now` argument.
*/
module CachedAnalysis {
  import opened Wrappers
  import opened MapSums
  import opened Detections
  import opened Ordering
  import opened Aggregation
  import opened CacheEntries
  import opened ExpiringCache

  const CACHE_KEY_TOTAL_VOLUME: string := "totalVolume"
  const CACHE_KEY_VOLUME_BY_LANE: string := "volumeByLane"
  const CACHE_KEY_HOURLY_PATTERNS: string := "hourlyPatterns"
  const CACHE_KEY_AVG_SPEED_BY_LANE: string := "avgSpeedByLane"
  const CACHE_KEY_BOTTLENECKS: string := "bottlenecks"
  const CACHE_KEY_TRAFFIC_EVOLUTION: string := "trafficEvolution"
  const CACHE_KEY_SPEED_EVOLUTION: string := "speedEvolution"
  const CACHE_KEY_VEHICLE_TYPE_DOMINANCE: string := "vehicleTypeDominance"

  /** Five minutes, in milliseconds. */
  const CACHE_DURATION: int := 300000

  /** The objects the service stores in the cache, one variant per view. */
  datatype View =
    | TotalVolumeView(volume: TotalVolume)
    | VolumeByLaneView(byLane: LaneCounts)
    | HourlyPatternsView(patterns: Counts)
    | AvgSpeedView(speeds: map<string, real>)
    | BottlenecksView(bottlenecks: seq<Bottleneck>)
    | TrafficEvolutionView(traffic: TrafficEvolution)
    | SpeedEvolutionView(speed: SpeedEvolution)
    | DominanceView(dominance: map<string, real>)

  /** Each fixed key holds the object its view casts the cached value to. */
  ghost predicate WellTyped(cache: CacheMap<View>) {
    && (CACHE_KEY_TOTAL_VOLUME in cache ==> cache[CACHE_KEY_TOTAL_VOLUME].value.TotalVolumeView?)
    && (CACHE_KEY_VOLUME_BY_LANE in cache ==> cache[CACHE_KEY_VOLUME_BY_LANE].value.VolumeByLaneView?)
    && (CACHE_KEY_HOURLY_PATTERNS in cache ==> cache[CACHE_KEY_HOURLY_PATTERNS].value.HourlyPatternsView?)
    && (CACHE_KEY_AVG_SPEED_BY_LANE in cache ==> cache[CACHE_KEY_AVG_SPEED_BY_LANE].value.AvgSpeedView?)
    && (CACHE_KEY_BOTTLENECKS in cache ==> cache[CACHE_KEY_BOTTLENECKS].value.BottlenecksView?)
    && (CACHE_KEY_TRAFFIC_EVOLUTION in cache ==> cache[CACHE_KEY_TRAFFIC_EVOLUTION].value.TrafficEvolutionView?)
    && (CACHE_KEY_SPEED_EVOLUTION in cache ==> cache[CACHE_KEY_SPEED_EVOLUTION].value.SpeedEvolutionView?)
    && (CACHE_KEY_VEHICLE_TYPE_DOMINANCE in cache ==> cache[CACHE_KEY_VEHICLE_TYPE_DOMINANCE].value.DominanceView?)
  }

  /** The fixed key each view stores its object under. */
  function KeyOf(v: View): string {
    match v
    case TotalVolumeView(_) => CACHE_KEY_TOTAL_VOLUME
    case VolumeByLaneView(_) => CACHE_KEY_VOLUME_BY_LANE
    case HourlyPatternsView(_) => CACHE_KEY_HOURLY_PATTERNS
    case AvgSpeedView(_) => CACHE_KEY_AVG_SPEED_BY_LANE
    case BottlenecksView(_) => CACHE_KEY_BOTTLENECKS
    case TrafficEvolutionView(_) => CACHE_KEY_TRAFFIC_EVOLUTION
    case SpeedEvolutionView(_) => CACHE_KEY_SPEED_EVOLUTION
    case DominanceView(_) => CACHE_KEY_VEHICLE_TYPE_DOMINANCE
  }

  /** Storing a view's object under its own key keeps every fixed key holding its own kind of object. */
  lemma PutWellTyped(cache: CacheMap<View>, v: View, expiry: int)
    requires WellTyped(cache)
    ensures WellTyped(cache[KeyOf(v) := CacheEntry(v, expiry)])
  {
  }

  /**
    The cache after one cache-first view at `now`: untouched on a hit; on a miss the
    `get` has deleted an expired entry under `key`, and the computed object, if the
    view stores one, is written with the five-minute lifetime.
  */
  function AfterView(cache: CacheMap<View>, key: string, now: int, computed: Option<View>): CacheMap<View> {
    if Lookup(cache, key, now).Some? then cache
    else match computed
      case None => EvictIfExpired(cache, key, now)
      case Some(v) => cache[key := CacheEntry(v, now + CACHE_DURATION)]
  }

  /**
    A view that stores its result is answered from the cache on a repeated call at
    any instant of the next five minutes, with the object it returned the first time.
  */
  lemma AfterViewHits(cache: CacheMap<View>, key: string, now: int, v: View, t: int)
    requires now <= t <= now + CACHE_DURATION
    ensures Lookup(AfterView(cache, key, now, Some(v)), key, t)
            == if Lookup(cache, key, now).Some? then Lookup(cache, key, t) else Some(v)
  {
  }

  /** A view touches only its own key: every other key reads as before, now and later. */
  lemma AfterViewOthers(cache: CacheMap<View>, key: string, now: int, computed: Option<View>, other: string, t: int)
    requires other != key && now <= t
    ensures Lookup(AfterView(cache, key, now, computed), other, t) == Lookup(cache, other, t)
  {
  }

  /** Deleting an unrelated key before a view is the same as deleting it afterwards. */
  lemma AfterViewWithout(cache: CacheMap<View>, key: string, now: int, computed: Option<View>, other: string)
    requires other != key
    ensures AfterView(cache - {other}, key, now, computed) == AfterView(cache, key, now, computed) - {other}
  {
    assert Lookup(cache - {other}, key, now) == Lookup(cache, key, now);
    if Lookup(cache, key, now).None? && computed.Some? {
      var e := CacheEntry(computed.value, now + CACHE_DURATION);
      assert (cache - {other})[key := e] == cache[key := e] - {other};
    }
  }

  /** The decoded `objectsByLane` of the record `getVolumeByLane` picks; `None` when there is none or it does not decode. */
  function LatestLanes(detections: seq<Detection>): Option<LaneCounts> {
    if |detections| == 0 then None else detections[FirstLatestIndex(detections)].objectsByLane
  }

  /** What `getVolumeByLane` stores: nothing when `LatestLanes` is `None`. */
  function LanesView(detections: seq<Detection>): Option<View> {
    match LatestLanes(detections)
    case None => None
    case Some(byLane) => Some(VolumeByLaneView(byLane))
  }

  /**
    The cache after a missed bottleneck view: the speed view, then the lane view, then
    the bottleneck list `r` stored under its own key.
  */
  ghost function AfterBottlenecks(cache: CacheMap<View>, detections: seq<Detection>, now: int, r: seq<Bottleneck>): CacheMap<View> {
    AfterView(AfterView(cache, CACHE_KEY_AVG_SPEED_BY_LANE, now, Some(AvgSpeedView(AvgSpeedOf(detections)))),
              CACHE_KEY_VOLUME_BY_LANE, now, LanesView(detections))
    [CACHE_KEY_BOTTLENECKS := CacheEntry(BottlenecksView(r), now + CACHE_DURATION)]
  }

  /** The expired bottleneck entry the first `get` deleted leaves no trace once the new list is stored. */
  lemma AfterBottlenecksEvicted(cache: CacheMap<View>, detections: seq<Detection>, now: int, r: seq<Bottleneck>)
    ensures AfterBottlenecks(EvictIfExpired(cache, CACHE_KEY_BOTTLENECKS, now), detections, now, r)
            == AfterBottlenecks(cache, detections, now, r)
  {
    if CACHE_KEY_BOTTLENECKS in cache && cache[CACHE_KEY_BOTTLENECKS].IsExpired(now) {
      var avg := Some(AvgSpeedView(AvgSpeedOf(detections)));
      AfterViewWithout(cache, CACHE_KEY_AVG_SPEED_BY_LANE, now, avg, CACHE_KEY_BOTTLENECKS);
      var mid := AfterView(cache, CACHE_KEY_AVG_SPEED_BY_LANE, now, avg);
      AfterViewWithout(mid, CACHE_KEY_VOLUME_BY_LANE, now, LanesView(detections), CACHE_KEY_BOTTLENECKS);
      var last := AfterView(mid, CACHE_KEY_VOLUME_BY_LANE, now, LanesView(detections));
      var e := CacheEntry(BottlenecksView(r), now + CACHE_DURATION);
      assert (last - {CACHE_KEY_BOTTLENECKS})[CACHE_KEY_BOTTLENECKS := e] == last[CACHE_KEY_BOTTLENECKS := e];
    }
  }

  /** The simulated hourly pattern: traffic per padded hour of the day, peaking at 18:00. */
  const HOURLY_PATTERNS: Counts := map[
    "00:00" := 20, "01:00" := 15, "02:00" := 10, "03:00" := 8, "04:00" := 12, "05:00" := 25,
    "06:00" := 60, "07:00" := 120, "08:00" := 180, "09:00" := 150, "10:00" := 130, "11:00" := 140,
    "12:00" := 160, "13:00" := 170, "14:00" := 150, "15:00" := 145, "16:00" := 160, "17:00" := 190,
    "18:00" := 210, "19:00" := 180, "20:00" := 120, "21:00" := 90, "22:00" := 60, "23:00" := 40]

  /** The table has exactly the keys `"00:00"` to `"23:00"`, with values from 8 to 210. */
  lemma HourlyPatternsShape()
    ensures forall h: nat :: h < 24 ==> PaddedHourKey(h) in HOURLY_PATTERNS
    ensures forall k :: k in HOURLY_PATTERNS ==> exists h: nat :: h < 24 && k == PaddedHourKey(h)
    ensures forall k :: k in HOURLY_PATTERNS ==> 8 <= HOURLY_PATTERNS[k] <= 210
  {
    forall h: nat | h < 24 ensures PaddedHourKey(h) in HOURLY_PATTERNS {
      HourlyPatternsHasHour(h);
    }
    forall k | k in HOURLY_PATTERNS ensures exists h: nat :: h < 24 && k == PaddedHourKey(h) {
      HourlyPatternsKeyIsHour(k);
    }
  }

  lemma HourlyPatternsHasHour(h: nat)
    requires h < 24
    ensures PaddedHourKey(h) in HOURLY_PATTERNS
  {
    assert PaddedHourKey(h) == [DigitChar(h / 10), DigitChar(h % 10), ':', '0', '0'];
  }

  lemma HourlyPatternsKeyIsHour(k: string)
    requires k in HOURLY_PATTERNS
    ensures exists h: nat :: h < 24 && k == PaddedHourKey(h)
  {
    var h: nat := DigitValue(k[0]) * 10 + DigitValue(k[1]);
    assert h < 24 && k == PaddedHourKey(h);
  }

  predicate HasTotals(d: Detection) {
    d.objectsTotal.Some?
  }

  predicate HasSpeeds(d: Detection) {
    d.avgSpeedByLane.Some?
  }

  /**
    The evolution series cover exactly the records whose blob decodes, oldest first:
    the stable sort followed by the loop that drops the undecodable ones.
  */
  lemma EvolutionRecords(detections: seq<Detection>, keep: Detection -> bool)
    ensures SortedByTimestamp(Keep(SortByTimestamp(detections), keep))
    ensures forall d :: d in Keep(SortByTimestamp(detections), keep) <==> d in detections && keep(d)
  {
    var sorted := SortByTimestamp(detections);
    KeepFacts(sorted, keep);
    forall d ensures d in sorted <==> d in detections {
      assert d in sorted <==> d in multiset(sorted);
      assert d in detections <==> d in multiset(detections);
    }
  }

  /** The traffic-evolution loop: a record is appended to all four lists only if its `objectsTotal` decodes. */
  method CollectTrafficEvolution(sorted: seq<Detection>) returns (r: TrafficEvolution)
    ensures IsTrafficSeriesOf(r, Keep(sorted, HasTotals), ParseObjectsTotal)
  {
    r := TrafficEvolution([], [], [], []);
    for i := 0 to |sorted|
      invariant IsTrafficSeriesOf(r, Keep(sorted[..i], HasTotals), ParseObjectsTotal)
    {
      assert sorted[..i + 1][..i] == sorted[..i];
      var detection := sorted[i];
      match detection.objectsTotal {
        case None =>
        case Some(objectsTotal) =>
          r := TrafficEvolution(
            r.timestamps + [detection.date],
            r.car + [Get(objectsTotal, "car")],
            r.bus + [Get(objectsTotal, "bus")],
            r.truck + [Get(objectsTotal, "truck")]);
      }
    }
    assert sorted[..|sorted|] == sorted;
  }

  /** The speed-evolution loop: a record is appended to all four lists only if its `avgSpeedByLane` decodes. */
  method CollectSpeedEvolution(sorted: seq<Detection>) returns (r: SpeedEvolution)
    ensures IsSpeedSeriesOf(r, Keep(sorted, HasSpeeds), ParseAvgSpeedByLane)
  {
    r := SpeedEvolution([], [], [], []);
    for i := 0 to |sorted|
      invariant IsSpeedSeriesOf(r, Keep(sorted[..i], HasSpeeds), ParseAvgSpeedByLane)
    {
      assert sorted[..i + 1][..i] == sorted[..i];
      var detection := sorted[i];
      match detection.avgSpeedByLane {
        case None =>
        case Some(avgSpeedByLane) =>
          r := SpeedEvolution(
            r.timestamps + [detection.date],
            r.lane1 + [GetSpeed(avgSpeedByLane, "lane_1")],
            r.lane2 + [GetSpeed(avgSpeedByLane, "lane_2")],
            r.lane3 + [GetSpeed(avgSpeedByLane, "lane_3")]);
      }
    }
    assert sorted[..|sorted|] == sorted;
  }

  /** `AnalysisService` with its `CacheService` collaborator. */
  class AnalysisService {
    const cacheService: CacheService<View>

    ghost predicate Valid()
      reads this, cacheService
    {
      WellTyped(cacheService.cache)
    }

    constructor ()
      ensures Valid() && fresh(cacheService) && cacheService.cache == map[]
    {
      cacheService := new CacheService();
    }

    /** `refreshCache()`: the scheduled purge. */
    method RefreshCache()
      modifies cacheService
      ensures Valid() && cacheService.cache == map[]
    {
      cacheService.Clear();
    }

    method GetTotalVolume(detections: seq<Detection>, now: int) returns (r: TotalVolume)
      requires Valid()
      modifies cacheService
      ensures Valid()
      ensures Lookup(old(cacheService.cache), CACHE_KEY_TOTAL_VOLUME, now).Some? ==>
                r == Lookup(old(cacheService.cache), CACHE_KEY_TOTAL_VOLUME, now).value.volume
      ensures Lookup(old(cacheService.cache), CACHE_KEY_TOTAL_VOLUME, now).None? ==> r == TotalVolumeOf(detections)
      ensures cacheService.cache == AfterView(old(cacheService.cache), CACHE_KEY_TOTAL_VOLUME, now,
                                              Some(TotalVolumeView(TotalVolumeOf(detections))))
    {
      var cached := cacheService.Get(CACHE_KEY_TOTAL_VOLUME, now);
      if cached.Some? {
        return cached.value.volume;
      }
      r := ComputeTotalVolume(detections);
      PutWellTyped(cacheService.cache, TotalVolumeView(r), now + CACHE_DURATION);
      cacheService.PutWithExpiration(CACHE_KEY_TOTAL_VOLUME, TotalVolumeView(r), CACHE_DURATION, now);
    }

    /** The latest record's lanes; an empty history or an undecodable blob gives `{}` and stores nothing. */
    method GetVolumeByLane(detections: seq<Detection>, now: int) returns (r: LaneCounts)
      requires Valid()
      modifies cacheService
      ensures Valid()
      ensures Lookup(old(cacheService.cache), CACHE_KEY_VOLUME_BY_LANE, now).Some? ==>
                r == Lookup(old(cacheService.cache), CACHE_KEY_VOLUME_BY_LANE, now).value.byLane
      ensures Lookup(old(cacheService.cache), CACHE_KEY_VOLUME_BY_LANE, now).None? ==>
                r == LatestLanes(detections).GetOr(map[])
      ensures cacheService.cache == AfterView(old(cacheService.cache), CACHE_KEY_VOLUME_BY_LANE, now, LanesView(detections))
    {
      var cached := cacheService.Get(CACHE_KEY_VOLUME_BY_LANE, now);
      if cached.Some? {
        return cached.value.byLane;
      }
      var latest := LatestIndex(detections);
      if latest.None? {
        return map[];
      }
      match detections[latest.value].objectsByLane {
        case None =>
          r := map[];
        case Some(byLane) =>
          PutWellTyped(cacheService.cache, VolumeByLaneView(byLane), now + CACHE_DURATION);
          cacheService.PutWithExpiration(CACHE_KEY_VOLUME_BY_LANE, VolumeByLaneView(byLane), CACHE_DURATION, now);
          r := byLane;
      }
    }

    method GetHourlyPatterns(now: int) returns (r: Counts)
      requires Valid()
      modifies cacheService
      ensures Valid()
      ensures Lookup(old(cacheService.cache), CACHE_KEY_HOURLY_PATTERNS, now).Some? ==>
                r == Lookup(old(cacheService.cache), CACHE_KEY_HOURLY_PATTERNS, now).value.patterns
      ensures Lookup(old(cacheService.cache), CACHE_KEY_HOURLY_PATTERNS, now).None? ==> r == HOURLY_PATTERNS
      ensures cacheService.cache == AfterView(old(cacheService.cache), CACHE_KEY_HOURLY_PATTERNS, now,
                                              Some(HourlyPatternsView(HOURLY_PATTERNS)))
    {
      var cached := cacheService.Get(CACHE_KEY_HOURLY_PATTERNS, now);
      if cached.Some? {
        return cached.value.patterns;
      }
      r := HOURLY_PATTERNS;
      PutWellTyped(cacheService.cache, HourlyPatternsView(r), now + CACHE_DURATION);
      cacheService.PutWithExpiration(CACHE_KEY_HOURLY_PATTERNS, HourlyPatternsView(r), CACHE_DURATION, now);
    }

    method GetAvgSpeedByLane(detections: seq<Detection>, now: int) returns (r: map<string, real>)
      requires Valid()
      modifies cacheService
      ensures Valid()
      ensures Lookup(old(cacheService.cache), CACHE_KEY_AVG_SPEED_BY_LANE, now).Some? ==>
                r == Lookup(old(cacheService.cache), CACHE_KEY_AVG_SPEED_BY_LANE, now).value.speeds
      ensures Lookup(old(cacheService.cache), CACHE_KEY_AVG_SPEED_BY_LANE, now).None? ==> r == AvgSpeedOf(detections)
      ensures cacheService.cache == AfterView(old(cacheService.cache), CACHE_KEY_AVG_SPEED_BY_LANE, now,
                                              Some(AvgSpeedView(AvgSpeedOf(detections))))
    {
      var cached := cacheService.Get(CACHE_KEY_AVG_SPEED_BY_LANE, now);
      if cached.Some? {
        return cached.value.speeds;
      }
      r := ComputeAvgSpeedByLane(detections);
      PutWellTyped(cacheService.cache, AvgSpeedView(r), now + CACHE_DURATION);
      cacheService.PutWithExpiration(CACHE_KEY_AVG_SPEED_BY_LANE, AvgSpeedView(r), CACHE_DURATION, now);
    }

    /**
      The bottleneck rule over the speed and lane views, each of which may itself come
      from the cache: `speeds` and `volumeByLane` are the objects those two calls returned.
    */
    method GetBottlenecks(detections: seq<Detection>, now: int)
      returns (r: seq<Bottleneck>, ghost speeds: map<string, real>, ghost volumeByLane: LaneCounts)
      requires Valid()
      modifies cacheService
      ensures Valid()
      ensures Lookup(old(cacheService.cache), CACHE_KEY_BOTTLENECKS, now).Some? ==>
                r == Lookup(old(cacheService.cache), CACHE_KEY_BOTTLENECKS, now).value.bottlenecks
                && cacheService.cache == old(cacheService.cache)
      ensures Lookup(old(cacheService.cache), CACHE_KEY_BOTTLENECKS, now).None? ==>
                && IsBottleneckReport(r, speeds, volumeByLane)
                && speeds == (if Lookup(old(cacheService.cache), CACHE_KEY_AVG_SPEED_BY_LANE, now).Some?
                              then Lookup(old(cacheService.cache), CACHE_KEY_AVG_SPEED_BY_LANE, now).value.speeds
                              else AvgSpeedOf(detections))
                && volumeByLane == (if Lookup(old(cacheService.cache), CACHE_KEY_VOLUME_BY_LANE, now).Some?
                                    then Lookup(old(cacheService.cache), CACHE_KEY_VOLUME_BY_LANE, now).value.byLane
                                    else LatestLanes(detections).GetOr(map[]))
                && cacheService.cache == AfterBottlenecks(old(cacheService.cache), detections, now, r)
    {
      var cached := cacheService.Get(CACHE_KEY_BOTTLENECKS, now);
      if cached.Some? {
        r := cached.value.bottlenecks;
        speeds, volumeByLane := map[], map[];
        return;
      }
      EvictionUnobservable(old(cacheService.cache), CACHE_KEY_BOTTLENECKS, now, CACHE_KEY_AVG_SPEED_BY_LANE, now);
      EvictionUnobservable(old(cacheService.cache), CACHE_KEY_BOTTLENECKS, now, CACHE_KEY_VOLUME_BY_LANE, now);
      r, speeds, volumeByLane := ComputeBottlenecks(detections, now);
      AfterBottlenecksEvicted(old(cacheService.cache), detections, now, r);
    }

    /** The part of `getBottlenecks` after the missed lookup. */
    method ComputeBottlenecks(detections: seq<Detection>, now: int)
      returns (r: seq<Bottleneck>, ghost speeds: map<string, real>, ghost volumeByLane: LaneCounts)
      requires Valid()
      modifies cacheService
      ensures Valid()
      ensures IsBottleneckReport(r, speeds, volumeByLane)
      ensures speeds == (if Lookup(old(cacheService.cache), CACHE_KEY_AVG_SPEED_BY_LANE, now).Some?
                         then Lookup(old(cacheService.cache), CACHE_KEY_AVG_SPEED_BY_LANE, now).value.speeds
                         else AvgSpeedOf(detections))
      ensures volumeByLane == (if Lookup(old(cacheService.cache), CACHE_KEY_VOLUME_BY_LANE, now).Some?
                               then Lookup(old(cacheService.cache), CACHE_KEY_VOLUME_BY_LANE, now).value.byLane
                               else LatestLanes(detections).GetOr(map[]))
      ensures cacheService.cache == AfterBottlenecks(old(cacheService.cache), detections, now, r)
    {
      ghost var start := cacheService.cache;
      var avgSpeedByLane := GetAvgSpeedByLane(detections, now);
      AfterViewOthers(start, CACHE_KEY_AVG_SPEED_BY_LANE, now, Some(AvgSpeedView(AvgSpeedOf(detections))),
                      CACHE_KEY_VOLUME_BY_LANE, now);
      var lanes := GetVolumeByLane(detections, now);
      r := FindBottlenecks(avgSpeedByLane, lanes);
      speeds, volumeByLane := avgSpeedByLane, lanes;
      PutWellTyped(cacheService.cache, BottlenecksView(r), now + CACHE_DURATION);
      cacheService.PutWithExpiration(CACHE_KEY_BOTTLENECKS, BottlenecksView(r), CACHE_DURATION, now);
    }

    method GetTrafficEvolution(detections: seq<Detection>, now: int) returns (r: TrafficEvolution)
      requires Valid()
      modifies cacheService
      ensures Valid()
      ensures Lookup(old(cacheService.cache), CACHE_KEY_TRAFFIC_EVOLUTION, now).Some? ==>
                r == Lookup(old(cacheService.cache), CACHE_KEY_TRAFFIC_EVOLUTION, now).value.traffic
                && cacheService.cache == old(cacheService.cache)
      ensures Lookup(old(cacheService.cache), CACHE_KEY_TRAFFIC_EVOLUTION, now).None? ==>
                && IsTrafficSeriesOf(r, Keep(SortByTimestamp(detections), HasTotals), ParseObjectsTotal)
                && cacheService.cache == old(cacheService.cache)
                     [CACHE_KEY_TRAFFIC_EVOLUTION := CacheEntry(TrafficEvolutionView(r), now + CACHE_DURATION)]
    {
      var cached := cacheService.Get(CACHE_KEY_TRAFFIC_EVOLUTION, now);
      if cached.Some? {
        return cached.value.traffic;
      }
      var sorted := SortByTimestamp(detections);
      r := CollectTrafficEvolution(sorted);
      PutWellTyped(cacheService.cache, TrafficEvolutionView(r), now + CACHE_DURATION);
      cacheService.PutWithExpiration(CACHE_KEY_TRAFFIC_EVOLUTION, TrafficEvolutionView(r), CACHE_DURATION, now);
    }

    method GetSpeedEvolution(detections: seq<Detection>, now: int) returns (r: SpeedEvolution)
      requires Valid()
      modifies cacheService
      ensures Valid()
      ensures Lookup(old(cacheService.cache), CACHE_KEY_SPEED_EVOLUTION, now).Some? ==>
                r == Lookup(old(cacheService.cache), CACHE_KEY_SPEED_EVOLUTION, now).value.speed
                && cacheService.cache == old(cacheService.cache)
      ensures Lookup(old(cacheService.cache), CACHE_KEY_SPEED_EVOLUTION, now).None? ==>
                && IsSpeedSeriesOf(r, Keep(SortByTimestamp(detections), HasSpeeds), ParseAvgSpeedByLane)
                && cacheService.cache == old(cacheService.cache)
                     [CACHE_KEY_SPEED_EVOLUTION := CacheEntry(SpeedEvolutionView(r), now + CACHE_DURATION)]
    {
      var cached := cacheService.Get(CACHE_KEY_SPEED_EVOLUTION, now);
      if cached.Some? {
        return cached.value.speed;
      }
      var sorted := SortByTimestamp(detections);
      r := CollectSpeedEvolution(sorted);
      PutWellTyped(cacheService.cache, SpeedEvolutionView(r), now + CACHE_DURATION);
      cacheService.PutWithExpiration(CACHE_KEY_SPEED_EVOLUTION, SpeedEvolutionView(r), CACHE_DURATION, now);
    }

    /** Shares of the totals of the (possibly cached) total-volume view; `totals` is that view's `total`. */
    method GetVehicleTypeDominance(detections: seq<Detection>, now: int)
      returns (r: map<string, real>, ghost totals: Counts)
      requires Valid()
      modifies cacheService
      ensures Valid()
      ensures Lookup(old(cacheService.cache), CACHE_KEY_VEHICLE_TYPE_DOMINANCE, now).Some? ==>
                r == Lookup(old(cacheService.cache), CACHE_KEY_VEHICLE_TYPE_DOMINANCE, now).value.dominance
                && cacheService.cache == old(cacheService.cache)
      ensures Lookup(old(cacheService.cache), CACHE_KEY_VEHICLE_TYPE_DOMINANCE, now).None? ==>
                && r == Shares(totals)
                && totals == (if Lookup(old(cacheService.cache), CACHE_KEY_TOTAL_VOLUME, now).Some?
                              then Lookup(old(cacheService.cache), CACHE_KEY_TOTAL_VOLUME, now).value.volume.total
                              else Totals(detections))
                && cacheService.cache ==
                     AfterView(old(cacheService.cache), CACHE_KEY_TOTAL_VOLUME, now,
                               Some(TotalVolumeView(TotalVolumeOf(detections))))
                     [CACHE_KEY_VEHICLE_TYPE_DOMINANCE := CacheEntry(DominanceView(r), now + CACHE_DURATION)]
    {
      var cached := cacheService.Get(CACHE_KEY_VEHICLE_TYPE_DOMINANCE, now);
      if cached.Some? {
        r := cached.value.dominance;
        totals := map[];
        return;
      }
      ghost var start := cacheService.cache;
      ghost var computed := Some(TotalVolumeView(TotalVolumeOf(detections)));
      var totalVolume := GetTotalVolume(detections, now);
      ghost var mid := cacheService.cache;
      assert mid == AfterView(start, CACHE_KEY_TOTAL_VOLUME, now, computed);
      totals := totalVolume.total;
      r := ComputeShares(totalVolume.total);
      PutWellTyped(cacheService.cache, DominanceView(r), now + CACHE_DURATION);
      cacheService.PutWithExpiration(CACHE_KEY_VEHICLE_TYPE_DOMINANCE, DominanceView(r), CACHE_DURATION, now);
      ghost var entry := CacheEntry(DominanceView(r), now + CACHE_DURATION);
      ghost var full := AfterView(old(cacheService.cache), CACHE_KEY_TOTAL_VOLUME, now, computed);
      if start != old(cacheService.cache) {
        AfterViewWithout(old(cacheService.cache), CACHE_KEY_TOTAL_VOLUME, now, computed, CACHE_KEY_VEHICLE_TYPE_DOMINANCE);
        assert (full - {CACHE_KEY_VEHICLE_TYPE_DOMINANCE})[CACHE_KEY_VEHICLE_TYPE_DOMINANCE := entry]
               == full[CACHE_KEY_VEHICLE_TYPE_DOMINANCE := entry];
      }
    }
  }
}
