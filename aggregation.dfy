/**
  The aggregation loops that the analytics services share word for word: summing
  vehicle counts per type, collecting speeds per lane and averaging them, counting a
  lane's vehicles, the 15 km/h bottleneck rule with its synthetic fallback, the
  percentage shares, the latest record by timestamp and the timestamp sort.

  Each loop is a method proved against a specification function that folds over the
  records in order (the `...Of` functions); the lemmas say what those folds mean per key.
*/
module Aggregation {
  import opened Wrappers
  import opened MapSums
  import opened Detections

  // ---------------------------------------------------------------------------
  // Vehicle totals per type

  /** The per-type totals after folding the decoded `objectsTotal` of every record into a map. */
  function Totals(recs: seq<Detection>): Counts {
    if |recs| == 0 then map[]
    else MergeCounts(Totals(recs[..|recs| - 1]), ParseObjectsTotal(recs[|recs| - 1]))
  }

  /** The count of vehicle type `t` summed record by record (0 where a record lacks `t`). */
  function TypeCount(recs: seq<Detection>, t: string): int {
    if |recs| == 0 then 0
    else TypeCount(recs[..|recs| - 1], t) + Get(ParseObjectsTotal(recs[|recs| - 1]), t)
  }

  /** Some record decodes and mentions vehicle type `t`. */
  ghost predicate MentionsType(recs: seq<Detection>, t: string) {
    exists i :: 0 <= i < |recs| && t in ParseObjectsTotal(recs[i])
  }

  /**
    `total[t]` is present exactly for the types some decodable record mentions, and
    holds the sum of that type's counts over all records.
  */
  lemma {:induction false} TotalsMeaning(recs: seq<Detection>, t: string)
    ensures t in Totals(recs) <==> MentionsType(recs, t)
    ensures Get(Totals(recs), t) == TypeCount(recs, t)
  {
    if |recs| > 0 {
      var init := recs[..|recs| - 1];
      TotalsMeaning(init, t);
      if MentionsType(init, t) {
        var i :| 0 <= i < |init| && t in ParseObjectsTotal(init[i]);
        assert recs[i] == init[i];
      }
      if MentionsType(recs, t) && t !in ParseObjectsTotal(recs[|recs| - 1]) {
        var i :| 0 <= i < |recs| && t in ParseObjectsTotal(recs[i]);
        assert i < |init| && init[i] == recs[i];
      }
    }
  }

  /** Inserting a record whose `objectsTotal` fails to decode changes no total. */
  lemma MalformedTotalsContributeNothing(recs: seq<Detection>, i: nat, bad: Detection)
    requires i <= |recs|
    requires bad.objectsTotal.None?
    ensures Totals(recs[..i] + [bad] + recs[i..]) == Totals(recs)
  {
    var recs' := recs[..i] + [bad] + recs[i..];
    forall t
      ensures (t in Totals(recs') <==> t in Totals(recs))
      ensures Get(Totals(recs'), t) == Get(Totals(recs), t)
    {
      TotalsMeaning(recs', t);
      TotalsMeaning(recs, t);
      TypeCountSkip(recs, i, bad, t);
      MentionsSkip(recs, i, bad, t);
    }
    assert Totals(recs').Keys == Totals(recs).Keys;
  }

  lemma MentionsSkip(recs: seq<Detection>, i: nat, bad: Detection, t: string)
    requires i <= |recs|
    requires bad.objectsTotal.None?
    ensures MentionsType(recs[..i] + [bad] + recs[i..], t) <==> MentionsType(recs, t)
  {
    var recs' := recs[..i] + [bad] + recs[i..];
    assert forall j :: 0 <= j < i ==> recs'[j] == recs[j];
    assert forall j :: i < j < |recs'| ==> recs'[j] == recs[j - 1];
    if MentionsType(recs, t) {
      var j :| 0 <= j < |recs| && t in ParseObjectsTotal(recs[j]);
      if j >= i { assert recs'[j + 1] == recs[j]; }
    }
  }

  lemma {:induction false} TypeCountSkip(recs: seq<Detection>, i: nat, bad: Detection, t: string)
    requires i <= |recs|
    requires bad.objectsTotal.None?
    ensures TypeCount(recs[..i] + [bad] + recs[i..], t) == TypeCount(recs, t)
    decreases |recs|
  {
    var recs' := recs[..i] + [bad] + recs[i..];
    if i == |recs| {
      assert recs' == recs + [bad];
      assert recs'[..|recs'| - 1] == recs;
    } else {
      var init := recs[..|recs| - 1];
      TypeCountSkip(init, i, bad, t);
      assert recs'[..|recs'| - 1] == init[..i] + [bad] + init[i..];
      assert recs'[|recs'| - 1] == recs[|recs| - 1];
    }
  }

  /** The grand total of `total` is the sum, over records, of each record's own total. */
  ghost function RecordTotalsSum(recs: seq<Detection>): int
  {
    if |recs| == 0 then 0
    else RecordTotalsSum(recs[..|recs| - 1]) + RecordTotal(recs[|recs| - 1])
  }

  /** One record's vehicle total: the sum of its decoded `objectsTotal` values (0 on failure). */
  ghost function RecordTotal(d: Detection): int {
    SumValues(ParseObjectsTotal(d))
  }

  lemma {:induction false} GrandTotal(recs: seq<Detection>)
    ensures SumValues(Totals(recs)) == RecordTotalsSum(recs)
  {
    if |recs| > 0 {
      GrandTotal(recs[..|recs| - 1]);
      SumValuesMerge(Totals(recs[..|recs| - 1]), ParseObjectsTotal(recs[|recs| - 1]));
    } else {
      assert Totals(recs) == map[];
    }
  }

  /** Merges every entry of `m` into `acc`, one `put(k, getOrDefault(k, 0) + v)` at a time. */
  method MergeAll(acc: Counts, m: Counts) returns (r: Counts)
    ensures r == MergeCounts(acc, m)
  {
    r := acc;
    var rest := m;
    while |rest| > 0
      invariant MergeCounts(r, rest) == MergeCounts(acc, m)
      decreases |rest|
    {
      var k :| k in rest;
      MergeBump(r, rest, k);
      CardRemove(rest, k);
      r := r[k := Get(r, k) + rest[k]];
      rest := rest - {k};
    }
    MergeNothing(r);
  }

  /** The `totalCount` loop: per-type totals over all records, skipping undecodable blobs. */
  method ComputeTotals(recs: seq<Detection>) returns (total: Counts)
    ensures total == Totals(recs)
  {
    total := map[];
    for i := 0 to |recs|
      invariant total == Totals(recs[..i])
    {
      assert recs[..i + 1][..i] == recs[..i];
      match recs[i].objectsTotal {
        case None =>
        case Some(objectsTotal) =>
          total := MergeAll(total, objectsTotal);
      }
    }
    assert recs[..|recs|] == recs;
  }

  // ---------------------------------------------------------------------------
  // The total-volume view

  /** `TotalVolumeDTO`: the declared approximations `hourly` and `daily` beside the real `total`. */
  datatype TotalVolume = TotalVolume(hourly: Counts, daily: Counts, total: Counts)

  /**
    Derives the view from the per-type totals and their grand total `s`, with Java's
    truncating `int` division.
  */
  function VolumeSplit(total: Counts, s: int): TotalVolume {
    TotalVolume(
      map["morning" := JavaDiv(s, 3), "afternoon" := JavaDiv(s, 2), "evening" := JavaDiv(s, 4)],
      map["weekday" := JavaDiv(s * 5, 7), "weekend" := JavaDiv(s * 2, 7)],
      total)
  }

  /** The view computed from a record history. */
  ghost function TotalVolumeOf(recs: seq<Detection>): (r: TotalVolume)
    ensures r.total == Totals(recs)
  {
    VolumeSplit(Totals(recs), SumValues(Totals(recs)))
  }

  /** The totals loop, then the five divisions of the grand total. */
  method ComputeTotalVolume(recs: seq<Detection>) returns (r: TotalVolume)
    ensures r == TotalVolumeOf(recs)
    ensures r.total == Totals(recs)
    ensures r.hourly.Keys == {"morning", "afternoon", "evening"}
    ensures r.daily.Keys == {"weekday", "weekend"}
  {
    var totalCount := ComputeTotals(recs);
    var totalVehicles := SumOf(totalCount);
    r := VolumeSplit(totalCount, totalVehicles);
  }

  /**
    One record `{car: 10, truck: 5}` gives `total == {car: 10, truck: 5}` and, from
    the grand total 15, morning 5, afternoon 7, evening 3, weekday 10 and weekend 4.
  */
  lemma TotalVolumeExample(d: Detection)
    requires d.objectsTotal == Some(map["car" := 10, "truck" := 5])
    ensures TotalVolumeOf([d]).total == map["car" := 10, "truck" := 5]
    ensures TotalVolumeOf([d]).hourly == map["morning" := 5, "afternoon" := 7, "evening" := 3]
    ensures TotalVolumeOf([d]).daily == map["weekday" := 10, "weekend" := 4]
  {
    var m := map["car" := 10, "truck" := 5];
    assert [d][..0] == [];
    assert Totals([d]) == MergeCounts(map[], m);
    assert MergeCounts(map[], m) == m;
    SumOfCarAndTruck(m);
    assert TotalVolumeOf([d]) == VolumeSplit(m, 15);
    assert JavaDiv(15, 3) == 5 && JavaDiv(15, 2) == 7 && JavaDiv(15, 4) == 3;
    assert JavaDiv(75, 7) == 10 && JavaDiv(30, 7) == 4;
  }

  lemma SumOfCarAndTruck(m: Counts)
    requires m == map["car" := 10, "truck" := 5]
    ensures SumValues(m) == 15
  {
    SumValuesRemove(m, "car");
    var m1 := m - {"car"};
    assert m1 == map["truck" := 5];
    SumValuesRemove(m1, "truck");
    assert m1 - {"truck"} == map[];
  }

  // ---------------------------------------------------------------------------
  // Average speed per lane

  function GetSpeeds(acc: map<string, seq<real>>, lane: string): seq<real> {
    if lane in acc then acc[lane] else []
  }

  /** Appends each speed of `m` to its lane's list, creating the list on first sight. */
  function AppendSpeeds(acc: map<string, seq<real>>, m: LaneSpeeds): map<string, seq<real>> {
    map lane | lane in acc.Keys + m.Keys ::
      GetSpeeds(acc, lane) + (if lane in m then [m[lane]] else [])
  }

  /** `speedsByLane` after every record: each list that exists is non-empty. */
  function SpeedLists(recs: seq<Detection>): (r: map<string, seq<real>>)
    ensures forall lane :: lane in r ==> |r[lane]| > 0
  {
    if |recs| == 0 then map[]
    else AppendSpeeds(SpeedLists(recs[..|recs| - 1]), ParseAvgSpeedByLane(recs[|recs| - 1]))
  }

  /** The speeds recorded for `lane`, in record order, from the records whose blob decodes and has it. */
  function LaneSpeedsOf(recs: seq<Detection>, lane: string): seq<real> {
    if |recs| == 0 then []
    else
      var m := ParseAvgSpeedByLane(recs[|recs| - 1]);
      LaneSpeedsOf(recs[..|recs| - 1], lane) + (if lane in m then [m[lane]] else [])
  }

  ghost predicate MentionsLane(recs: seq<Detection>, lane: string) {
    exists i :: 0 <= i < |recs| && lane in ParseAvgSpeedByLane(recs[i])
  }

  /** A lane has a list exactly when some decodable record reports its speed; the list is those speeds. */
  lemma {:induction false} SpeedListsMeaning(recs: seq<Detection>, lane: string)
    ensures lane in SpeedLists(recs) <==> MentionsLane(recs, lane)
    ensures GetSpeeds(SpeedLists(recs), lane) == LaneSpeedsOf(recs, lane)
  {
    if |recs| > 0 {
      var init := recs[..|recs| - 1];
      SpeedListsMeaning(init, lane);
      if MentionsLane(init, lane) {
        var i :| 0 <= i < |init| && lane in ParseAvgSpeedByLane(init[i]);
        assert recs[i] == init[i];
      }
      if MentionsLane(recs, lane) && lane !in ParseAvgSpeedByLane(recs[|recs| - 1]) {
        var i :| 0 <= i < |recs| && lane in ParseAvgSpeedByLane(recs[i]);
        assert i < |init| && init[i] == recs[i];
      }
    }
  }

  /** Each list replaced by its mean. */
  function Averages(lists: map<string, seq<real>>): map<string, real>
    requires forall lane :: lane in lists ==> |lists[lane]| > 0
  {
    map lane | lane in lists :: Mean(lists[lane])
  }

  /** The average-speed view of a record history. */
  function AvgSpeedOf(recs: seq<Detection>): map<string, real> {
    Averages(SpeedLists(recs))
  }

  /**
    The view has a key for lane `L` exactly when some decodable `avgSpeedByLane`
    contains `L`, and its value is the mean of all those speeds.
  */
  lemma AvgSpeedMeaning(recs: seq<Detection>, lane: string)
    ensures lane in AvgSpeedOf(recs) <==> MentionsLane(recs, lane)
    ensures lane in AvgSpeedOf(recs) ==>
              |LaneSpeedsOf(recs, lane)| > 0 && AvgSpeedOf(recs)[lane] == Mean(LaneSpeedsOf(recs, lane))
  {
    SpeedListsMeaning(recs, lane);
  }

  /** Two records reporting 10.0 and 20.0 on `lane_1` average to 15.0. */
  lemma AvgSpeedExample(d1: Detection, d2: Detection)
    requires d1.avgSpeedByLane == Some(map["lane_1" := 10.0])
    requires d2.avgSpeedByLane == Some(map["lane_1" := 20.0])
    ensures AvgSpeedOf([d1, d2]) == map["lane_1" := 15.0]
  {
    assert [d1, d2][..1] == [d1];
    assert [d1][..0] == [];
    var first := AppendSpeeds(map[], map["lane_1" := 10.0]);
    assert SpeedLists([d1]) == first;
    assert first.Keys == {"lane_1"};
    assert first["lane_1"] == [] + [10.0] == [10.0];
    assert first == map["lane_1" := [10.0]];
    var second := AppendSpeeds(map["lane_1" := [10.0]], map["lane_1" := 20.0]);
    assert SpeedLists([d1, d2]) == second;
    assert second.Keys == {"lane_1"};
    assert second["lane_1"] == [10.0] + [20.0] == [10.0, 20.0];
    assert second == map["lane_1" := [10.0, 20.0]];
    assert [10.0, 20.0][..1] == [10.0];
    assert Mean([10.0, 20.0]) == 15.0;
  }

  lemma AppendSpeedsStep(acc: map<string, seq<real>>, m: LaneSpeeds, lane: string)
    requires lane in m
    ensures AppendSpeeds(acc, m) == AppendSpeeds(acc[lane := GetSpeeds(acc, lane) + [m[lane]]], m - {lane})
  {
    var lhs := AppendSpeeds(acc, m);
    var rhs := AppendSpeeds(acc[lane := GetSpeeds(acc, lane) + [m[lane]]], m - {lane});
    assert lhs.Keys == rhs.Keys;
    forall l | l in lhs ensures lhs[l] == rhs[l] {
    }
  }

  lemma AppendNothing(acc: map<string, seq<real>>)
    ensures AppendSpeeds(acc, map[]) == acc
  {
    var r := AppendSpeeds(acc, map[]);
    forall l | l in r ensures r[l] == acc[l] {
      assert acc[l] + [] == acc[l];
    }
  }

  /** The inner loop: one `speedsByLane.get(lane).add(speed)` per entry of `m`. */
  method AppendAll(acc: map<string, seq<real>>, m: LaneSpeeds) returns (r: map<string, seq<real>>)
    ensures r == AppendSpeeds(acc, m)
  {
    r := acc;
    var rest := m;
    while |rest| > 0
      invariant AppendSpeeds(r, rest) == AppendSpeeds(acc, m)
      decreases |rest|
    {
      var lane :| lane in rest;
      AppendSpeedsStep(r, rest, lane);
      CardRemove(rest, lane);
      r := r[lane := GetSpeeds(r, lane) + [rest[lane]]];
      rest := rest - {lane};
    }
    assert rest == map[];
    AppendNothing(r);
  }

  /** The first loop of the average-speed view: `speedsByLane`, skipping undecodable blobs. */
  method CollectSpeeds(recs: seq<Detection>) returns (speedsByLane: map<string, seq<real>>)
    ensures speedsByLane == SpeedLists(recs)
  {
    speedsByLane := map[];
    for i := 0 to |recs|
      invariant speedsByLane == SpeedLists(recs[..i])
    {
      assert recs[..i + 1][..i] == recs[..i];
      match recs[i].avgSpeedByLane {
        case None =>
          AppendNothing(speedsByLane);
        case Some(avgSpeedByLane) =>
          speedsByLane := AppendAll(speedsByLane, avgSpeedByLane);
      }
    }
    assert recs[..|recs|] == recs;
  }

  /** The second loop: each lane's list replaced by its `average()`. */
  method AverageLists(speedsByLane: map<string, seq<real>>) returns (result: map<string, real>)
    requires forall lane :: lane in speedsByLane ==> |speedsByLane[lane]| > 0
    ensures result == Averages(speedsByLane)
  {
    result := map[];
    var rest := speedsByLane;
    while |rest| > 0
      invariant forall lane :: lane in rest ==> lane in speedsByLane && rest[lane] == speedsByLane[lane]
      invariant forall lane :: lane in result <==> lane in speedsByLane && lane !in rest
      invariant forall lane :: lane in result ==> result[lane] == Mean(speedsByLane[lane])
      decreases |rest|
    {
      var lane :| lane in rest;
      CardRemove(rest, lane);
      result := result[lane := Mean(rest[lane])];
      rest := rest - {lane};
    }
    assert result.Keys == speedsByLane.Keys;
  }

  /** The average-speed view: collect, then average. */
  method ComputeAvgSpeedByLane(recs: seq<Detection>) returns (result: map<string, real>)
    ensures result == AvgSpeedOf(recs)
  {
    var speedsByLane := CollectSpeeds(recs);
    result := AverageLists(speedsByLane);
  }

  // ---------------------------------------------------------------------------
  // Bottlenecks

  /** `BottleneckDTO`. */
  datatype Bottleneck = Bottleneck(lane: string, avgSpeed: real, totalVehicles: int, heavyVehicles: int)

  /** Below this average speed (km/h) a lane is a bottleneck. */
  const BOTTLENECK_SPEED: real := 15.0
  /** The placeholder counts of the synthetic entry. */
  const PLACEHOLDER_TOTAL: int := 30
  const PLACEHOLDER_HEAVY: int := 8

  /** All vehicles counted on `lane`, 0 when the lane is absent. */
  ghost function LaneTotal(volumeByLane: LaneCounts, lane: string): int {
    if lane in volumeByLane then SumValues(volumeByLane[lane]) else 0
  }

  /** Trucks plus buses counted on `lane`, 0 when the lane is absent. */
  function LaneHeavy(volumeByLane: LaneCounts, lane: string): int {
    if lane in volumeByLane then Get(volumeByLane[lane], "truck") + Get(volumeByLane[lane], "bus") else 0
  }

  ghost predicate HasSlowLane(avgSpeedByLane: map<string, real>) {
    exists lane :: lane in avgSpeedByLane && avgSpeedByLane[lane] < BOTTLENECK_SPEED
  }

  /** `lane` has the smallest average speed of all. */
  ghost predicate IsSlowest(avgSpeedByLane: map<string, real>, lane: string) {
    lane in avgSpeedByLane && forall other :: other in avgSpeedByLane ==> avgSpeedByLane[lane] <= avgSpeedByLane[other]
  }

  /**
    The bottleneck rule: one entry per lane slower than 15 km/h with that lane's
    vehicle counts; when there is none but some speed exists, exactly one synthetic
    entry for a slowest lane with 30 vehicles of which 8 heavy; no speeds, no entries.
    Entries are listed in the unspecified iteration order of the speed map.
  */
  ghost predicate IsBottleneckReport(bs: seq<Bottleneck>, avgSpeedByLane: map<string, real>, volumeByLane: LaneCounts) {
    if HasSlowLane(avgSpeedByLane) then
      && (forall i :: 0 <= i < |bs| ==>
            bs[i].lane in avgSpeedByLane && avgSpeedByLane[bs[i].lane] < BOTTLENECK_SPEED
            && bs[i] == Bottleneck(bs[i].lane, avgSpeedByLane[bs[i].lane],
                                   LaneTotal(volumeByLane, bs[i].lane), LaneHeavy(volumeByLane, bs[i].lane)))
      && (forall lane :: lane in avgSpeedByLane && avgSpeedByLane[lane] < BOTTLENECK_SPEED ==>
            exists i :: 0 <= i < |bs| && bs[i].lane == lane)
      && (forall i, j :: 0 <= i < j < |bs| ==> bs[i].lane != bs[j].lane)
    else if |avgSpeedByLane| > 0 then
      && |bs| == 1
      && IsSlowest(avgSpeedByLane, bs[0].lane)
      && bs[0] == Bottleneck(bs[0].lane, avgSpeedByLane[bs[0].lane], PLACEHOLDER_TOTAL, PLACEHOLDER_HEAVY)
    else
      bs == []
  }

  /** The inner loop over a lane's vehicle map: all vehicles, and trucks plus buses. */
  method CountLaneVehicles(volumeByLane: LaneCounts, lane: string) returns (totalVehicles: int, heavyVehicles: int)
    ensures totalVehicles == LaneTotal(volumeByLane, lane)
    ensures heavyVehicles == LaneHeavy(volumeByLane, lane)
  {
    totalVehicles, heavyVehicles := 0, 0;
    if lane in volumeByLane {
      var vehicles := volumeByLane[lane];
      var rest := vehicles;
      while |rest| > 0
        invariant totalVehicles + SumValues(rest) == SumValues(vehicles)
        invariant heavyVehicles + Get(rest, "truck") + Get(rest, "bus")
                  == Get(vehicles, "truck") + Get(vehicles, "bus")
        decreases |rest|
      {
        var vehicleType :| vehicleType in rest;
        SumValuesRemove(rest, vehicleType);
        CardRemove(rest, vehicleType);
        totalVehicles := totalVehicles + rest[vehicleType];
        if vehicleType == "truck" || vehicleType == "bus" {
          heavyVehicles := heavyVehicles + rest[vehicleType];
        }
        rest := rest - {vehicleType};
      }
    }
  }

  /** `min(Map.Entry.comparingByValue())` over a non-empty speed map. */
  method SlowestLane(avgSpeedByLane: map<string, real>) returns (slowest: string)
    requires |avgSpeedByLane| > 0
    ensures IsSlowest(avgSpeedByLane, slowest)
  {
    var rest := avgSpeedByLane;
    slowest :| slowest in rest;
    while |rest| > 0
      invariant slowest in avgSpeedByLane
      invariant forall lane :: lane in rest ==> lane in avgSpeedByLane && rest[lane] == avgSpeedByLane[lane]
      invariant forall lane :: lane in avgSpeedByLane && lane !in rest ==>
                  avgSpeedByLane[slowest] <= avgSpeedByLane[lane]
      decreases |rest|
    {
      var lane :| lane in rest;
      CardRemove(rest, lane);
      if rest[lane] < avgSpeedByLane[slowest] {
        slowest := lane;
      }
      rest := rest - {lane};
    }
  }

  /** `lane` has an average speed below 15 km/h. */
  ghost predicate IsSlow(avgSpeedByLane: map<string, real>, lane: string) {
    lane in avgSpeedByLane && avgSpeedByLane[lane] < BOTTLENECK_SPEED
  }

  /**
    The list after the lanes outside `rest` have been looked at: every entry is a
    slow lane already looked at, with its counts; every slow lane looked at has an
    entry; no lane twice.
  */
  ghost predicate SlowSoFar(bs: seq<Bottleneck>, avgSpeedByLane: map<string, real>, volumeByLane: LaneCounts, rest: map<string, real>) {
    && (forall i :: 0 <= i < |bs| ==>
          bs[i].lane !in rest && IsSlow(avgSpeedByLane, bs[i].lane)
          && bs[i] == Bottleneck(bs[i].lane, avgSpeedByLane[bs[i].lane],
                                 LaneTotal(volumeByLane, bs[i].lane), LaneHeavy(volumeByLane, bs[i].lane)))
    && (forall lane :: lane !in rest && IsSlow(avgSpeedByLane, lane) ==>
          exists i :: 0 <= i < |bs| && bs[i].lane == lane)
    && (forall i, j :: 0 <= i < j < |bs| ==> bs[i].lane != bs[j].lane)
  }

  /** Looking at one more lane, and listing it when it is slow, keeps the list right. */
  lemma SlowStep(bs: seq<Bottleneck>, avgSpeedByLane: map<string, real>, volumeByLane: LaneCounts, rest: map<string, real>, lane: string)
    requires lane in rest && lane in avgSpeedByLane && SlowSoFar(bs, avgSpeedByLane, volumeByLane, rest)
    ensures SlowSoFar(if IsSlow(avgSpeedByLane, lane)
                      then bs + [Bottleneck(lane, avgSpeedByLane[lane], LaneTotal(volumeByLane, lane), LaneHeavy(volumeByLane, lane))]
                      else bs,
                      avgSpeedByLane, volumeByLane, rest - {lane})
  {
    var bs' := if IsSlow(avgSpeedByLane, lane)
               then bs + [Bottleneck(lane, avgSpeedByLane[lane], LaneTotal(volumeByLane, lane), LaneHeavy(volumeByLane, lane))]
               else bs;
    forall l | l !in rest - {lane} && IsSlow(avgSpeedByLane, l)
      ensures exists i :: 0 <= i < |bs'| && bs'[i].lane == l
    {
      if l == lane {
        assert bs'[|bs'| - 1].lane == l;
      } else {
        var i :| 0 <= i < |bs| && bs[i].lane == l;
        assert bs'[i] == bs[i];
      }
    }
  }

  /** Once every lane was looked at, a non-empty list is a report, and an empty one means no lane is slow. */
  lemma SlowDone(bs: seq<Bottleneck>, avgSpeedByLane: map<string, real>, volumeByLane: LaneCounts)
    requires SlowSoFar(bs, avgSpeedByLane, volumeByLane, map[])
    ensures |bs| > 0 ==> IsBottleneckReport(bs, avgSpeedByLane, volumeByLane)
    ensures |bs| == 0 ==> !HasSlowLane(avgSpeedByLane)
  {
    if |bs| > 0 {
      assert IsSlow(avgSpeedByLane, bs[0].lane);
      forall lane | lane in avgSpeedByLane && avgSpeedByLane[lane] < BOTTLENECK_SPEED
        ensures exists i :: 0 <= i < |bs| && bs[i].lane == lane
      {
        assert IsSlow(avgSpeedByLane, lane);
      }
    } else if HasSlowLane(avgSpeedByLane) {
      var lane :| lane in avgSpeedByLane && avgSpeedByLane[lane] < BOTTLENECK_SPEED;
      assert IsSlow(avgSpeedByLane, lane);
    }
  }

  /** The bottleneck loop over the average speeds, then the synthetic fallback. */
  method FindBottlenecks(avgSpeedByLane: map<string, real>, volumeByLane: LaneCounts) returns (bs: seq<Bottleneck>)
    ensures IsBottleneckReport(bs, avgSpeedByLane, volumeByLane)
  {
    bs := [];
    var rest := avgSpeedByLane;
    while |rest| > 0
      invariant forall lane :: lane in rest ==> lane in avgSpeedByLane && rest[lane] == avgSpeedByLane[lane]
      invariant SlowSoFar(bs, avgSpeedByLane, volumeByLane, rest)
      decreases |rest|
    {
      var lane :| lane in rest;
      CardRemove(rest, lane);
      var avgSpeed := rest[lane];
      SlowStep(bs, avgSpeedByLane, volumeByLane, rest, lane);
      if avgSpeed < BOTTLENECK_SPEED {
        var totalVehicles, heavyVehicles := CountLaneVehicles(volumeByLane, lane);
        bs := bs + [Bottleneck(lane, avgSpeed, totalVehicles, heavyVehicles)];
      }
      rest := rest - {lane};
    }
    assert rest == map[];
    SlowDone(bs, avgSpeedByLane, volumeByLane);
    if |bs| == 0 && |avgSpeedByLane| > 0 {
      var slowestLane := SlowestLane(avgSpeedByLane);
      bs := [Bottleneck(slowestLane, avgSpeedByLane[slowestLane], PLACEHOLDER_TOTAL, PLACEHOLDER_HEAVY)];
    }
  }

  // ---------------------------------------------------------------------------
  // Vehicle-type dominance

  /** `count * 100.0 / sum` when `sum > 0`, else `0.0`. */
  function Share(count: int, sum: int): (r: real)
    ensures sum > 0 && 0 <= count <= sum ==> 0.0 <= r <= 100.0
    ensures sum <= 0 ==> r == 0.0
  {
    if sum > 0 then
      assert 0 <= count <= sum ==> 0.0 <= (count as real) * 100.0 / (sum as real) <= 100.0;
      (count as real) * 100.0 / (sum as real)
    else 0.0
  }

  /** Each count as a percentage of `sum`. */
  function SharesOf(m: Counts, sum: int): map<string, real> {
    map t | t in m :: Share(m[t], sum)
  }

  /** Each type's share of the grand total, in percent. */
  ghost function Shares(totals: Counts): map<string, real> {
    SharesOf(totals, SumValues(totals))
  }

  /** Shares of two parts add up to the share of their sum. */
  lemma ShareStep(a: int, b: int, c: int, s: int)
    requires s > 0 && a + b == c
    ensures Share(a, s) + Share(b, s) == Share(c, s)
  {
    assert (a as real) * 100.0 / (s as real) + (b as real) * 100.0 / (s as real)
        == ((a as real) * 100.0 + (b as real) * 100.0) / (s as real);
    assert (a as real) * 100.0 + (b as real) * 100.0 == (c as real) * 100.0;
  }

  /** Scaling each count by `100 / s` scales their sum the same way. */
  lemma {:induction false} SumOfShares(m: Counts, s: int)
    requires s > 0
    ensures SumReals(SharesOf(m, s)) == Share(SumValues(m), s)
    decreases |m|
  {
    if |m| == 0 {
      assert SharesOf(m, s) == map[];
      assert SumValues(m) == 0;
      assert SumReals(SharesOf(m, s)) == 0.0;
      assert 0.0 * 100.0 / (s as real) == 0.0;
    } else {
      var k :| k in m;
      var rest := m - {k};
      CardRemove(m, k);
      var scaled := SharesOf(m, s);
      SumOfShares(rest, s);
      assert SharesOf(m, s) - {k} == SharesOf(rest, s);
      SumRealsRemove(scaled, k);
      assert SumReals(scaled) == Share(m[k], s) + Share(SumValues(rest), s);
      SumValuesRemove(m, k);
      ShareStep(m[k], SumValues(rest), SumValues(m), s);
    }
  }

  /** When anything was counted, the shares add up to 100 percent. */
  lemma DominanceSumsToHundred(totals: Counts)
    requires SumValues(totals) > 0
    ensures SumReals(Shares(totals)) == 100.0
  {
    var s := SumValues(totals);
    SumOfShares(totals, s);
    SelfFraction(s as real);
  }

  /** Kept apart so that the division is proved without the map facts in scope. */
  lemma SelfFraction(s: real)
    requires s > 0.0
    ensures s * 100.0 / s == 100.0
  {
  }

  /** The dominance loop: one share per counted type. */
  method ComputeShares(totals: Counts) returns (dominance: map<string, real>)
    ensures dominance == Shares(totals)
  {
    var sum := SumOf(totals);
    dominance := map[];
    var rest := totals;
    while |rest| > 0
      invariant forall t :: t in rest ==> t in totals && rest[t] == totals[t]
      invariant forall t :: t in dominance <==> t in totals && t !in rest
      invariant forall t :: t in dominance ==> dominance[t] == Share(totals[t], sum)
      decreases |rest|
    {
      var t :| t in rest;
      CardRemove(rest, t);
      dominance := dominance[t := Share(rest[t], sum)];
      rest := rest - {t};
    }
  }

  // ---------------------------------------------------------------------------
  // Evolution series

  /** `TrafficEvolutionDTO`: one point per kept record, dates and three vehicle counts. */
  datatype TrafficEvolution = TrafficEvolution(timestamps: seq<string>, car: seq<int>, bus: seq<int>, truck: seq<int>)

  /** `SpeedEvolutionDTO`: one point per kept record, dates and three lane speeds. */
  datatype SpeedEvolution = SpeedEvolution(timestamps: seq<string>, lane1: seq<real>, lane2: seq<real>, lane3: seq<real>)

  /** `getOrDefault(key, 0.0)` on a speed map. */
  function GetSpeed(m: LaneSpeeds, lane: string): real {
    if lane in m then m[lane] else 0.0
  }

  /** Point `i` of the traffic series is record `kept[i]`'s date and car, bus and truck counts. */
  ghost predicate IsTrafficSeriesOf(r: TrafficEvolution, kept: seq<Detection>, counts: Detection -> Counts) {
    && |r.timestamps| == |kept| && |r.car| == |kept| && |r.bus| == |kept| && |r.truck| == |kept|
    && forall i :: 0 <= i < |kept| ==>
         && r.timestamps[i] == kept[i].date
         && r.car[i] == Get(counts(kept[i]), "car")
         && r.bus[i] == Get(counts(kept[i]), "bus")
         && r.truck[i] == Get(counts(kept[i]), "truck")
  }

  /** Point `i` of the speed series is record `kept[i]`'s date and its speeds on lanes 1 to 3. */
  ghost predicate IsSpeedSeriesOf(r: SpeedEvolution, kept: seq<Detection>, speeds: Detection -> LaneSpeeds) {
    && |r.timestamps| == |kept| && |r.lane1| == |kept| && |r.lane2| == |kept| && |r.lane3| == |kept|
    && forall i :: 0 <= i < |kept| ==>
         && r.timestamps[i] == kept[i].date
         && r.lane1[i] == GetSpeed(speeds(kept[i]), "lane_1")
         && r.lane2[i] == GetSpeed(speeds(kept[i]), "lane_2")
         && r.lane3[i] == GetSpeed(speeds(kept[i]), "lane_3")
  }

  // ---------------------------------------------------------------------------
  // Hour keys

  /** `String.format("%02d:00", hour)`. */
  function PaddedHourKey(hour: nat): (r: string)
    requires hour < 24
    ensures |r| == 5
  {
    TwoDigits(hour) + ":00"
  }

  /** Different hours get different keys, so a 24-hour table has 24 entries. */
  lemma PaddedHourKeyInjective(h1: nat, h2: nat)
    requires h1 < 24 && h2 < 24 && h1 != h2
    ensures PaddedHourKey(h1) != PaddedHourKey(h2)
  {
    var k1, k2 := PaddedHourKey(h1), PaddedHourKey(h2);
    assert k1[0] == DigitChar(h1 / 10) && k1[1] == DigitChar(h1 % 10);
    assert k2[0] == DigitChar(h2 / 10) && k2[1] == DigitChar(h2 % 10);
    if h1 / 10 == h2 / 10 {
      assert h1 % 10 != h2 % 10;
      assert k1[1] != k2[1];
    } else {
      assert k1[0] != k2[0];
    }
  }

  // ---------------------------------------------------------------------------
  // Vehicle totals per time bucket

  /**
    The records' vehicle totals added up per bucket (`hourCounts.merge(hour, totalVehicles,
    Integer::sum)`): `bucketOf` names the bucket of a record, `None` skips the record.
  */
  ghost function BucketTotals<K>(recs: seq<Detection>, bucketOf: Detection -> Option<K>): map<K, int> {
    if |recs| == 0 then map[]
    else
      var acc := BucketTotals(recs[..|recs| - 1], bucketOf);
      match bucketOf(recs[|recs| - 1])
      case None => acc
      case Some(b) => Bump(acc, b, RecordTotal(recs[|recs| - 1]))
  }

  /** Some record falls in bucket `b`. */
  ghost predicate InBucket<K>(recs: seq<Detection>, bucketOf: Detection -> Option<K>, b: K) {
    exists i :: 0 <= i < |recs| && bucketOf(recs[i]) == Some(b)
  }

  /** The vehicle totals of the records in bucket `b`, added up record by record. */
  ghost function BucketSum<K>(recs: seq<Detection>, bucketOf: Detection -> Option<K>, b: K): int {
    if |recs| == 0 then 0
    else
      BucketSum(recs[..|recs| - 1], bucketOf, b)
      + (if bucketOf(recs[|recs| - 1]) == Some(b) then RecordTotal(recs[|recs| - 1]) else 0)
  }

  /** A bucket has an entry exactly when a record falls in it, and the entry is that bucket's total. */
  lemma {:induction false} BucketTotalsMeaning<K>(recs: seq<Detection>, bucketOf: Detection -> Option<K>, b: K)
    ensures b in BucketTotals(recs, bucketOf) <==> InBucket(recs, bucketOf, b)
    ensures Get(BucketTotals(recs, bucketOf), b) == BucketSum(recs, bucketOf, b)
  {
    if |recs| > 0 {
      var init := recs[..|recs| - 1];
      BucketTotalsMeaning(init, bucketOf, b);
      if InBucket(init, bucketOf, b) {
        var i :| 0 <= i < |init| && bucketOf(init[i]) == Some(b);
        assert recs[i] == init[i];
      }
      if InBucket(recs, bucketOf, b) && bucketOf(recs[|recs| - 1]) != Some(b) {
        var i :| 0 <= i < |recs| && bucketOf(recs[i]) == Some(b);
        assert i != |recs| - 1;
        assert i < |init| && init[i] == recs[i];
      }
    }
  }

  lemma BucketTotalsStep<K>(recs: seq<Detection>, bucketOf: Detection -> Option<K>, i: int)
    requires 0 <= i < |recs|
    ensures BucketTotals(recs[..i + 1], bucketOf) ==
              if bucketOf(recs[i]).Some? then Bump(BucketTotals(recs[..i], bucketOf), bucketOf(recs[i]).value, RecordTotal(recs[i]))
              else BucketTotals(recs[..i], bucketOf)
  {
    assert recs[..i + 1][..i] == recs[..i];
  }
}
