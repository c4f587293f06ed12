/**
  The uncached analytics service of the `projectback` tree (`AnalysisService`). Each
  view reads the records afresh: `detections` is the repository's `findAll()`,
  `ascending` and `descending` are its `findAllOrderByTimestampAsc/Desc()` queries.
  The decode helpers never fail outwards: a malformed blob reads as an empty map.
*/
module UncachedAnalysis {
  import opened Wrappers
  import opened MapSums
  import opened Detections
  import opened Ordering
  import opened Aggregation

  /** `getTotalVolume()`: the per-type totals and the five divisions of their sum. */
  method GetTotalVolume(detections: seq<Detection>) returns (r: TotalVolume)
    ensures r == TotalVolumeOf(detections)
    ensures r.total == Totals(detections)
  {
    r := ComputeTotalVolume(detections);
  }

  /** `getVolumeByLane()`: the lanes of the head of the newest-first list, `{}` when there is none. */
  function VolumeByLane(descending: seq<Detection>): (r: LaneCounts)
    requires SortedByTimestampDesc(descending)
    ensures |descending| == 0 ==> r == map[]
    ensures |descending| > 0 ==>
              && r == ParseObjectsByLane(descending[0])
              && forall j :: 0 <= j < |descending| ==> descending[j].timestampMs <= descending[0].timestampMs
  {
    if |descending| == 0 then map[]
    else
      HeadOfDescendingIsLatest(descending);
      ParseObjectsByLane(descending[0])
  }

  // ---------------------------------------------------------------------------
  // Hourly patterns

  /**
    The `hourCounts` loop: each record whose date has an hour adds its vehicle total
    (0 when its `objectsTotal` does not decode) to that hour; the others are skipped.
    `hourOf` is the date parse (`HourOf`).
  */
  method ComputeHourCounts(recs: seq<Detection>, hourOf: Detection -> Option<int>) returns (hourCounts: map<int, int>)
    ensures hourCounts == BucketTotals(recs, hourOf)
  {
    hourCounts := map[];
    for i := 0 to |recs|
      invariant hourCounts == BucketTotals(recs[..i], hourOf)
    {
      BucketTotalsStep(recs, hourOf, i);
      var hourOfRecord := hourOf(recs[i]);
      if hourOfRecord.Some? {
        var totalVehicles := SumOf(ParseObjectsTotal(recs[i]));
        hourCounts := Bump(hourCounts, hourOfRecord.value, totalVehicles);
      }
    }
    assert recs[..|recs|] == recs;
  }

  /** The simulated count of an hour without data: 100..199 from 07:00 to 19:00, else 20..69. */
  predicate IsFill(hour: int, count: int) {
    if 7 <= hour <= 19 then 100 <= count < 200 else 20 <= count < 70
  }

  /**
    `getHourlyPatterns()`: exactly the 24 keys `"00:00"`..`"23:00"`; an hour some
    record falls in carries that hour's total, any other hour a simulated count
    (the random draw is an arbitrary choice in its range).
  */
  method GetHourlyPatterns(detections: seq<Detection>) returns (r: Counts)
    ensures forall h: nat :: h < 24 ==> PaddedHourKey(h) in r
    ensures forall k :: k in r ==> exists h: nat :: h < 24 && k == PaddedHourKey(h)
    ensures forall h: nat :: h < 24 && InBucket(detections, HourOf, h) ==> r[PaddedHourKey(h)] == BucketSum(detections, HourOf, h)
    ensures forall h: nat :: h < 24 && !InBucket(detections, HourOf, h) ==> IsFill(h, r[PaddedHourKey(h)])
  {
    var hourCounts := ComputeHourCounts(detections, HourOf);
    r := FillHours(hourCounts);
    forall h: nat | h < 24
      ensures (h in hourCounts <==> InBucket(detections, HourOf, h)) && Get(hourCounts, h) == BucketSum(detections, HourOf, h)
    {
      BucketTotalsMeaning(detections, HourOf, h);
    }
  }

  /** The value hour `h` gets: its count when it has one, a simulated count otherwise. */
  predicate HourEntry(hourCounts: map<int, int>, h: nat, v: int) {
    if h in hourCounts then v == hourCounts[h] else IsFill(h, v)
  }

  /** `r` holds exactly the keys of the hours below `n`, each with its `HourEntry` value. */
  predicate FilledUpTo(r: Counts, hourCounts: map<int, int>, n: nat)
    requires n <= 24
  {
    && (forall h: nat :: h < n ==> PaddedHourKey(h) in r && HourEntry(hourCounts, h, r[PaddedHourKey(h)]))
    && (forall k :: k in r ==> exists h: nat :: h < n && k == PaddedHourKey(h))
  }

  /** Adding the next hour's key extends the table by one hour. */
  lemma FillStep(r: Counts, hourCounts: map<int, int>, hour: nat, count: int)
    requires hour < 24 && FilledUpTo(r, hourCounts, hour)
    requires HourEntry(hourCounts, hour, count)
    ensures FilledUpTo(r[PaddedHourKey(hour) := count], hourCounts, hour + 1)
  {
    var r' := r[PaddedHourKey(hour) := count];
    forall h: nat | h < hour
      ensures PaddedHourKey(h) in r' && r'[PaddedHourKey(h)] == r[PaddedHourKey(h)]
    {
      PaddedHourKeyInjective(h, hour);
    }
    forall k | k in r' ensures exists h: nat :: h < hour + 1 && k == PaddedHourKey(h) {
      if k != PaddedHourKey(hour) {
        var h: nat :| h < hour && k == PaddedHourKey(h);
      }
    }
  }

  /** The 24-hour loop of `getHourlyPatterns()`: a counted hour keeps its count, any other gets a simulated one. */
  method FillHours(hourCounts: map<int, int>) returns (r: Counts)
    ensures forall h: nat :: h < 24 ==> PaddedHourKey(h) in r
    ensures forall k :: k in r ==> exists h: nat :: h < 24 && k == PaddedHourKey(h)
    ensures forall h: nat :: h < 24 && h in hourCounts ==> r[PaddedHourKey(h)] == hourCounts[h]
    ensures forall h: nat :: h < 24 && h !in hourCounts ==> IsFill(h, r[PaddedHourKey(h)])
  {
    r := map[];
    for hour := 0 to 24
      invariant FilledUpTo(r, hourCounts, hour)
    {
      var count;
      if hour in hourCounts {
        count := hourCounts[hour];
      } else if 7 <= hour <= 19 {
        var draw :| 0 <= draw < 100;
        count := 100 + draw;
      } else {
        var draw :| 0 <= draw < 50;
        count := 20 + draw;
      }
      FillStep(r, hourCounts, hour, count);
      r := r[PaddedHourKey(hour) := count];
    }
  }

  // ---------------------------------------------------------------------------
  // Speeds, bottlenecks, series, dominance

  /** `getAvgSpeedByLane()`. */
  method GetAvgSpeedByLane(detections: seq<Detection>) returns (r: map<string, real>)
    ensures r == AvgSpeedOf(detections)
  {
    r := ComputeAvgSpeedByLane(detections);
  }

  /** `getBottlenecks()`: the 15 km/h rule over this service's speed and lane views. */
  method GetBottlenecks(detections: seq<Detection>, descending: seq<Detection>) returns (r: seq<Bottleneck>)
    requires SortedByTimestampDesc(descending)
    ensures IsBottleneckReport(r, AvgSpeedOf(detections), VolumeByLane(descending))
  {
    var avgSpeedByLane := GetAvgSpeedByLane(detections);
    var volumeByLane := VolumeByLane(descending);
    r := FindBottlenecks(avgSpeedByLane, volumeByLane);
  }

  /** `getTrafficEvolution()`: one point per record, oldest first, 0 for a missing type. */
  method GetTrafficEvolution(ascending: seq<Detection>) returns (r: TrafficEvolution)
    requires SortedByTimestamp(ascending)
    ensures IsTrafficSeriesOf(r, ascending, ParseObjectsTotal)
  {
    r := TrafficEvolution([], [], [], []);
    for i := 0 to |ascending|
      invariant IsTrafficSeriesOf(r, ascending[..i], ParseObjectsTotal)
    {
      var objectsTotal := ParseObjectsTotal(ascending[i]);
      r := TrafficEvolution(
        r.timestamps + [ascending[i].date],
        r.car + [Get(objectsTotal, "car")],
        r.bus + [Get(objectsTotal, "bus")],
        r.truck + [Get(objectsTotal, "truck")]);
    }
    assert ascending[..|ascending|] == ascending;
  }

  /** `getSpeedEvolution()`: one point per record, oldest first, 0.0 for a missing lane. */
  method GetSpeedEvolution(ascending: seq<Detection>) returns (r: SpeedEvolution)
    requires SortedByTimestamp(ascending)
    ensures IsSpeedSeriesOf(r, ascending, ParseAvgSpeedByLane)
  {
    r := SpeedEvolution([], [], [], []);
    for i := 0 to |ascending|
      invariant IsSpeedSeriesOf(r, ascending[..i], ParseAvgSpeedByLane)
    {
      var avgSpeedByLane := ParseAvgSpeedByLane(ascending[i]);
      r := SpeedEvolution(
        r.timestamps + [ascending[i].date],
        r.lane1 + [GetSpeed(avgSpeedByLane, "lane_1")],
        r.lane2 + [GetSpeed(avgSpeedByLane, "lane_2")],
        r.lane3 + [GetSpeed(avgSpeedByLane, "lane_3")]);
    }
    assert ascending[..|ascending|] == ascending;
  }

  /** `getVehicleTypeDominance()`: each type's share of the total volume, all 0.0 when nothing was counted. */
  method GetVehicleTypeDominance(detections: seq<Detection>) returns (r: map<string, real>)
    ensures r == Shares(Totals(detections))
  {
    var totalVolume := GetTotalVolume(detections);
    r := ComputeShares(totalVolume.total);
  }

  // ---------------------------------------------------------------------------
  // Data-structure views

  /**
    `getArrayData()`: the first ten records' `timestampMs % 100` (Java's remainder,
    which `Math.toIntExact` always accepts since it lies strictly between -100 and 100).
  */
  function ArrayData(detections: seq<Detection>): (r: seq<int>)
    ensures |r| == if |detections| < 10 then |detections| else 10
    ensures forall i :: 0 <= i < |r| ==> -100 < r[i] < 100 && r[i] == JavaRem(detections[i].timestampMs, 100)
    ensures forall i :: 0 <= i < |r| ==> (r[i] >= 0 <==> detections[i].timestampMs >= 0 || r[i] == 0)
  {
    var n := if |detections| < 10 then |detections| else 10;
    var r := seq(n, i requires 0 <= i < n => JavaRem(detections[i].timestampMs, 100));
    forall i | 0 <= i < n
      ensures -100 < r[i] < 100
      ensures r[i] >= 0 <==> detections[i].timestampMs >= 0 || r[i] == 0
    {
      JavaRemFacts(detections[i].timestampMs, 100);
    }
    r
  }

  /** `ListItemDto`. */
  datatype ListItem = ListItem(id: int, date: string)

  /**
    `createListItems(count)`: with records, items `1..min(count, n)` carrying the
    first records' dates; without records, the clock-based fallback items `1..count`
    dated `hoursAgo(i)` (the formatted instant `i` hours before now).
  */
  method CreateListItems(count: int, detections: seq<Detection>, hoursAgo: int -> string) returns (items: seq<ListItem>)
    ensures |detections| == 0 ==>
              && |items| == (if count < 0 then 0 else count)
              && forall i :: 0 <= i < |items| ==> items[i] == ListItem(i + 1, hoursAgo(i + 1))
    ensures |detections| > 0 ==>
              && |items| == (if count < 0 then 0 else if count < |detections| then count else |detections|)
              && forall i :: 0 <= i < |items| ==> items[i] == ListItem(i + 1, detections[i].date)
  {
    items := [];
    if |detections| == 0 {
      var i := 1;
      while i <= count
        invariant 1 <= i && (count >= 0 ==> i <= count + 1) && (count < 0 ==> i == 1)
        invariant |items| == i - 1
        invariant forall j :: 0 <= j < |items| ==> items[j] == ListItem(j + 1, hoursAgo(j + 1))
      {
        items := items + [ListItem(i, hoursAgo(i))];
        i := i + 1;
      }
      return;
    }
    var limit := if count < |detections| then count else |detections|;
    var i := 0;
    while i < limit
      invariant 0 <= i <= |detections| && (limit >= 0 ==> i <= limit) && (limit < 0 ==> i == 0)
      invariant |items| == i
      invariant forall j :: 0 <= j < i ==> items[j] == ListItem(j + 1, detections[j].date)
    {
      items := items + [ListItem(i + 1, detections[i].date)];
      i := i + 1;
    }
  }
}
