/**
  The traffic analytics service of the `src` tree (`TrafficAnalysisService`). Every view
  reads all records (`detections`, the repository's `findAll()`) and folds them into
  local maps and lists. Unlike the other analytics services it parses dates with
  `LocalDateTime.parse` without catching the failure: the `DateTimeParseException`
  aborts the view and is modelled as an `Err` result.
*/
module TrafficAnalysis {
  import opened Wrappers
  import opened MapSums
  import opened Detections
  import opened Ordering
  import opened Aggregation
  import opened TaggedCounts

  /** The uncaught `DateTimeParseException` and the text it rejected. */
  datatype Failure = DateTimeParseException(text: string)

  /** The date of `d` does not parse. */
  predicate BadDate(d: Detection) {
    ParseDateTime(d.date).None?
  }

  /** `recs[i]` is the first record satisfying `bad`: the one whose failure escapes. */
  ghost predicate IsFirstFailure(recs: seq<Detection>, bad: Detection -> bool, i: int) {
    0 <= i < |recs| && bad(recs[i]) && forall j :: 0 <= j < i ==> !bad(recs[j])
  }

  // ---------------------------------------------------------------------------
  // Hour and day keys

  /** `dateTime.getHour() + ":00"`: the hour without zero padding, as in `"7:00"`. */
  function HourLabel(hour: nat): (r: string)
    requires hour < 24
    ensures r == if hour < 10 then [DigitChar(hour), ':', '0', '0'] else [DigitChar(hour / 10), DigitChar(hour % 10), ':', '0', '0']
  {
    NatToStringBelow100(hour);
    NatToString(hour) + ":00"
  }

  /** Different hours get different labels. */
  lemma HourLabelInjective(h1: nat, h2: nat)
    requires h1 < 24 && h2 < 24 && HourLabel(h1) == HourLabel(h2)
    ensures h1 == h2
  {
    var l1, l2 := HourLabel(h1), HourLabel(h2);
    if h1 < 10 {
      assert DigitValue(l1[0]) == h1;
      assert DigitValue(l2[0]) == h2;
    } else {
      assert DigitValue(l1[0]) == h1 / 10 && DigitValue(l1[1]) == h1 % 10;
      assert DigitValue(l2[0]) == h2 / 10 && DigitValue(l2[1]) == h2 % 10;
    }
  }

  /** The label of the hour a record's date falls in. */
  function HourLabelOf(d: Detection): Option<string> {
    match HourOf(d)
    case None => None
    case Some(h) => Some(HourLabel(h))
  }

  /** The tag of the per-hour volume key `vehicleType + "_" + hour`. */
  function HourTag(hour: nat): string
    requires hour < 24
  {
    "_" + HourLabel(hour)
  }

  /** The tag of the per-day volume key `vehicleType + "_" + dateTime.toLocalDate()`. */
  function DayTag(dt: DateTime): (r: string)
    requires 1 <= dt.year < 10000 && 1 <= dt.month <= 12 && 1 <= dt.day <= 31
    ensures |r| == 11
  {
    "_" + LocalDateString(dt)
  }

  function HourTagOf(d: Detection): Option<string> {
    match HourOf(d)
    case None => None
    case Some(h) => Some(HourTag(h))
  }

  function DayTagOf(d: Detection): Option<string> {
    match ParseDateTime(d.date)
    case None => None
    case Some(dt) => Some(DayTag(dt))
  }

  ghost predicate IsHourTag(s: string) {
    exists h: nat :: h < 24 && s == HourTag(h)
  }

  ghost predicate IsDayTag(s: string) {
    exists dt: DateTime :: 1 <= dt.year < 10000 && 1 <= dt.month <= 12 && 1 <= dt.day <= 31 && s == DayTag(dt)
  }

  /** `t1 + "_" + hour1` and `t2 + "_" + hour2` coincide only for the same type and hour. */
  lemma HourKeyCancel(a: string, h1: nat, b: string, h2: nat)
    requires h1 < 24 && h2 < 24 && a + HourTag(h1) == b + HourTag(h2)
    ensures a == b && h1 == h2
  {
    var k := a + HourTag(h1);
    var s1, s2 := HourTag(h1), HourTag(h2);
    // Five characters from the end sits the `_` of a one-digit hour, or the first digit of a two-digit one.
    assert k[|k| - 5] == if |s1| == 5 then '_' else s1[1];
    assert k[|k| - 5] == if |s2| == 5 then '_' else s2[1];
    assert |s1| == |s2|;
    assert a == k[..|a|] && b == k[..|b|];
    assert s1 == k[|a|..] && s2 == k[|b|..];
    assert HourLabel(h1) == s1[1..] == s2[1..] == HourLabel(h2);
    HourLabelInjective(h1, h2);
  }

  lemma HourTagsSeparated()
    ensures Separated(IsHourTag)
  {
    forall a: string, b: string, s1: string, s2: string | IsHourTag(s1) && IsHourTag(s2) && a + s1 == b + s2
      ensures a == b && s1 == s2
    {
      var h1: nat :| h1 < 24 && s1 == HourTag(h1);
      var h2: nat :| h2 < 24 && s2 == HourTag(h2);
      HourKeyCancel(a, h1, b, h2);
    }
  }

  lemma DayTagsSeparated()
    ensures Separated(IsDayTag)
  {
    forall a: string, b: string, s1: string, s2: string | IsDayTag(s1) && IsDayTag(s2) && a + s1 == b + s2
      ensures a == b && s1 == s2
    {
      var k := a + s1;
      assert |s1| == 11 && |s2| == 11;
      assert a == k[..|a|] && b == k[..|b|];
    }
  }

  lemma HourTagsOf(recs: seq<Detection>)
    ensures TagsIn(recs, HourTagOf, IsHourTag)
  {
    forall i | 0 <= i < |recs| && HourTagOf(recs[i]).Some? ensures IsHourTag(HourTagOf(recs[i]).value) {
      var h: nat := HourOf(recs[i]).value;
      assert HourTagOf(recs[i]).value == HourTag(h);
    }
  }

  lemma DayTagsOf(recs: seq<Detection>)
    ensures TagsIn(recs, DayTagOf, IsDayTag)
  {
    forall i | 0 <= i < |recs| && DayTagOf(recs[i]).Some? ensures IsDayTag(DayTagOf(recs[i]).value) {
      var dt := ParseDateTime(recs[i].date).value;
      assert DayTagOf(recs[i]).value == DayTag(dt);
    }
  }

  // ---------------------------------------------------------------------------
  // Vehicle volume by type

  /** The `hourly`, `daily` and `total` maps of `getTotalVehicleVolumeByType()`. */
  datatype VolumeByType = VolumeByType(hourly: Counts, daily: Counts, total: Counts)

  /** The record's date is parsed only inside the loop over its vehicle types, so only when it has one. */
  predicate DateParsed(d: Detection) {
    |ParseObjectsTotal(d)| > 0
  }

  /** A record whose date is parsed and fails. */
  predicate VolumeFailure(d: Detection) {
    DateParsed(d) && BadDate(d)
  }

  /** The three maps after every record, when no date fails. */
  function VolumeByTypeOf(recs: seq<Detection>): VolumeByType {
    VolumesWith(recs, HourTagOf, DayTagOf)
  }

  /** Parsing the date fails exactly when it yields no hour tag, and no day tag. */
  lemma DateTagsFail(d: Detection)
    ensures HourTagOf(d).None? <==> BadDate(d)
    ensures DayTagOf(d).None? <==> BadDate(d)
  {
  }

  /** The three maps after one more record, with the tags given. */
  function AddVolume(v: VolumeByType, d: Detection, hourTagOf: Detection -> Option<string>, dayTagOf: Detection -> Option<string>): VolumeByType {
    VolumeByType(AddTagged(v.hourly, d, hourTagOf), AddTagged(v.daily, d, dayTagOf), MergeCounts(v.total, ParseObjectsTotal(d)))
  }

  /** The three maps after every record, with the tags given. */
  function VolumesWith(recs: seq<Detection>, hourTagOf: Detection -> Option<string>, dayTagOf: Detection -> Option<string>): VolumeByType {
    VolumeByType(TaggedFold(recs, hourTagOf), TaggedFold(recs, dayTagOf), Totals(recs))
  }

  lemma VolumesStep(recs: seq<Detection>, i: int, hourTagOf: Detection -> Option<string>, dayTagOf: Detection -> Option<string>)
    requires 0 <= i < |recs|
    ensures VolumesWith(recs[..i + 1], hourTagOf, dayTagOf) == AddVolume(VolumesWith(recs[..i], hourTagOf, dayTagOf), recs[i], hourTagOf, dayTagOf)
  {
    assert recs[..i + 1][..i] == recs[..i];
  }

  /**
    The body of `objectsTotal.forEach`: one vehicle type's count merged into `total`,
    then, once the record's date parses, under the type's hour key and its day key.
    `hourTag` and `dayTag` are the outcome of that parse (the same for every type of
    the record): the rendered tags, or nothing when it fails.
  */
  method AddTypeVolume(v: VolumeByType, date: string, vehicleType: string, count: int,
                       hourTag: Option<string>, dayTag: Option<string>)
    returns (r: Result<VolumeByType, Failure>)
    requires hourTag.None? <==> dayTag.None?
    ensures r.Err? <==> hourTag.None?
    ensures r.Err? ==> r.error == DateTimeParseException(date)
    ensures r.Ok? ==> r.value == VolumeByType(Bump(v.hourly, vehicleType + hourTag.value, count),
                                              Bump(v.daily, vehicleType + dayTag.value, count),
                                              Bump(v.total, vehicleType, count))
  {
    var total := Bump(v.total, vehicleType, count);
    match (hourTag, dayTag) {
      case (Some(hour), Some(day)) =>
        var hourKey := vehicleType + hour;
        var dayKey := vehicleType + day;
        r := Ok(VolumeByType(Bump(v.hourly, hourKey, count), Bump(v.daily, dayKey, count), total));
      case _ =>
        r := Err(DateTimeParseException(date));
    }
  }

  /** The three maps once every count of `rest` is merged in, under its hour key and its day key. */
  function MergeTagged(acc: VolumeByType, rest: Counts, hourTag: string, dayTag: string): VolumeByType {
    VolumeByType(MergeCounts(acc.hourly, Tag(rest, hourTag)), MergeCounts(acc.daily, Tag(rest, dayTag)), MergeCounts(acc.total, rest))
  }

  /** Merging one type's count under its tagged key first, and the rest afterwards. */
  lemma TagStep(acc: Counts, rest: Counts, tag: string, t: string)
    requires t in rest
    ensures MergeCounts(acc, Tag(rest, tag)) == MergeCounts(Bump(acc, t + tag, rest[t]), Tag(rest - {t}, tag))
  {
    MergeBump(acc, Tag(rest, tag), t + tag);
    TagRemove(rest, tag, t);
  }

  /** Merging one vehicle type's count under its three keys first, and the rest of the types afterwards. */
  lemma MergeTaggedStep(acc: VolumeByType, rest: Counts, hourTag: string, dayTag: string, t: string, acc': VolumeByType)
    requires t in rest
    requires acc' == VolumeByType(Bump(acc.hourly, t + hourTag, rest[t]), Bump(acc.daily, t + dayTag, rest[t]), Bump(acc.total, t, rest[t]))
    ensures MergeTagged(acc', rest - {t}, hourTag, dayTag) == MergeTagged(acc, rest, hourTag, dayTag)
  {
    MergeBump(acc.total, rest, t);
    TagStep(acc.hourly, rest, hourTag, t);
    TagStep(acc.daily, rest, dayTag, t);
  }

  /** Nothing left to merge leaves the maps as they are. */
  lemma MergeTaggedNothing(acc: VolumeByType, hourTag: string, dayTag: string)
    ensures MergeTagged(acc, map[], hourTag, dayTag) == acc
  {
    TagNothing(hourTag);
    TagNothing(dayTag);
    MergeNothing(acc.hourly);
    MergeNothing(acc.daily);
    MergeNothing(acc.total);
  }

  /** A record whose date parses adds all its counts under its tags; one whose date is not parsed adds nothing. */
  lemma AddVolumeMerges(v: VolumeByType, d: Detection, hourTagOf: Detection -> Option<string>, dayTagOf: Detection -> Option<string>,
                        hourTag: string, dayTag: string)
    requires hourTagOf(d) == Some(hourTag) && dayTagOf(d) == Some(dayTag)
    ensures AddVolume(v, d, hourTagOf, dayTagOf) == MergeTagged(v, ParseObjectsTotal(d), hourTag, dayTag)
  {
  }

  lemma AddVolumeUntagged(v: VolumeByType, d: Detection, hourTagOf: Detection -> Option<string>, dayTagOf: Detection -> Option<string>)
    requires hourTagOf(d).None? && dayTagOf(d).None? && !DateParsed(d)
    ensures AddVolume(v, d, hourTagOf, dayTagOf) == v
  {
    assert ParseObjectsTotal(d) == map[];
    MergeNothing(v.total);
  }

  /**
    The `objectsTotal.forEach` loop: the vehicle types of `objectsTotal` one by one,
    as `AddTypeVolume`. A failing parse aborts at the first vehicle type; with no
    vehicle type the date is never parsed and nothing fails.
  */
  method AddTypeVolumes(v: VolumeByType, date: string, objectsTotal: Counts, hourTag: Option<string>, dayTag: Option<string>)
    returns (r: Result<VolumeByType, Failure>)
    requires hourTag.None? <==> dayTag.None?
    ensures r.Err? <==> |objectsTotal| > 0 && hourTag.None?
    ensures r.Err? ==> r.error == DateTimeParseException(date)
    ensures r.Ok? ==> r.value == MergeTagged(v, objectsTotal, hourTag.GetOr(""), dayTag.GetOr(""))
  {
    ghost var hour, day := hourTag.GetOr(""), dayTag.GetOr("");
    var acc := v;
    var rest := objectsTotal;
    while |rest| > 0
      invariant MergeTagged(acc, rest, hour, day) == MergeTagged(v, objectsTotal, hour, day)
      invariant hourTag.None? ==> rest == objectsTotal
      decreases |rest|
    {
      var step, left := AddNextType(acc, date, rest, hourTag, dayTag);
      if step.Err? {
        return step;
      }
      acc, rest := step.value, left;
    }
    MergeTaggedNothing(acc, hour, day);
    r := Ok(acc);
  }

  /**
    One iteration of `objectsTotal.forEach`: some vehicle type still in `rest` (a
    `HashMap` visits them in no specified order) goes through `AddTypeVolume` and
    leaves `rest`; merging the rest afterwards still reaches the same maps.
  */
  method AddNextType(acc: VolumeByType, date: string, rest: Counts, hourTag: Option<string>, dayTag: Option<string>)
    returns (r: Result<VolumeByType, Failure>, left: Counts)
    requires hourTag.None? <==> dayTag.None?
    requires |rest| > 0
    ensures r.Err? <==> hourTag.None?
    ensures r.Err? ==> r.error == DateTimeParseException(date)
    ensures r.Ok? ==> |left| < |rest|
    ensures r.Ok? ==> MergeTagged(r.value, left, hourTag.GetOr(""), dayTag.GetOr("")) == MergeTagged(acc, rest, hourTag.GetOr(""), dayTag.GetOr(""))
  {
    var vehicleType :| vehicleType in rest;
    r := AddTypeVolume(acc, date, vehicleType, rest[vehicleType], hourTag, dayTag);
    left := rest - {vehicleType};
    if r.Ok? {
      assert hourTag.GetOr("") == hourTag.value && dayTag.GetOr("") == dayTag.value;
      MergeTaggedStep(acc, rest, hourTag.value, dayTag.value, vehicleType, r.value);
      CardRemove(rest, vehicleType);
    }
  }

  /**
    One record of the `detections.forEach` loop. The parse and the rendering of the
    two key tags are `hourTagOf` and `dayTagOf`, which fail together.
  */
  method AddRecordVolume(v: VolumeByType, d: Detection, hourTagOf: Detection -> Option<string>, dayTagOf: Detection -> Option<string>)
    returns (r: Result<VolumeByType, Failure>)
    requires hourTagOf(d).None? <==> dayTagOf(d).None?
    ensures r.Err? <==> DateParsed(d) && hourTagOf(d).None?
    ensures r.Err? ==> r.error == DateTimeParseException(d.date)
    ensures r.Ok? ==> r.value == AddVolume(v, d, hourTagOf, dayTagOf)
  {
    var hourTag, dayTag := hourTagOf(d), dayTagOf(d);
    r := AddTypeVolumes(v, d.date, ParseObjectsTotal(d), hourTag, dayTag);
    if r.Ok? {
      if hourTag.Some? {
        AddVolumeMerges(v, d, hourTagOf, dayTagOf, hourTag.value, dayTag.value);
      } else {
        MergeTaggedNothing(v, "", "");
        AddVolumeUntagged(v, d, hourTagOf, dayTagOf);
      }
    }
  }

  /** The three maps after the first `n` records, as the loop builds them. */
  function VolumesUpTo(recs: seq<Detection>, n: nat, hourTagOf: Detection -> Option<string>, dayTagOf: Detection -> Option<string>): VolumeByType
    requires n <= |recs|
  {
    if n == 0 then VolumeByType(map[], map[], map[])
    else AddVolume(VolumesUpTo(recs, n - 1, hourTagOf, dayTagOf), recs[n - 1], hourTagOf, dayTagOf)
  }

  /** Record by record, the loop's maps are the maps of the prefix. */
  lemma {:induction false} VolumesUpToIs(recs: seq<Detection>, n: nat, hourTagOf: Detection -> Option<string>, dayTagOf: Detection -> Option<string>)
    requires n <= |recs|
    ensures VolumesUpTo(recs, n, hourTagOf, dayTagOf) == VolumesWith(recs[..n], hourTagOf, dayTagOf)
  {
    if n > 0 {
      VolumesUpToIs(recs, n - 1, hourTagOf, dayTagOf);
      VolumesStep(recs, n - 1, hourTagOf, dayTagOf);
    } else {
      assert recs[..0] == [];
    }
  }

  /** Record `i` of the loop: either it fails, or the maps now cover the records up to it. */
  method VolumeStep(detections: seq<Detection>, i: int, v: VolumeByType,
                    hourTagOf: Detection -> Option<string>, dayTagOf: Detection -> Option<string>, bad: Detection -> bool)
    returns (r: Result<VolumeByType, Failure>)
    requires 0 <= i < |detections|
    requires hourTagOf(detections[i]).None? <==> dayTagOf(detections[i]).None?
    requires bad(detections[i]) <==> DateParsed(detections[i]) && hourTagOf(detections[i]).None?
    requires v == VolumesUpTo(detections, i, hourTagOf, dayTagOf)
    ensures r.Err? <==> bad(detections[i])
    ensures r.Err? ==> r.error == DateTimeParseException(detections[i].date)
    ensures r.Ok? ==> r.value == VolumesUpTo(detections, i + 1, hourTagOf, dayTagOf)
  {
    r := AddRecordVolume(v, detections[i], hourTagOf, dayTagOf);
  }

  /**
    The `detections.forEach` loop of `getTotalVehicleVolumeByType()`, with the date
    parse rendered as `hourTagOf` and `dayTagOf` and its failure as `bad`.
  */
  method CollectVolumeByType(detections: seq<Detection>, hourTagOf: Detection -> Option<string>, dayTagOf: Detection -> Option<string>,
                             bad: Detection -> bool)
    returns (r: Result<VolumeByType, Failure>)
    requires forall i {:trigger hourTagOf(detections[i])} :: 0 <= i < |detections| ==> (hourTagOf(detections[i]).None? <==> dayTagOf(detections[i]).None?)
    requires forall i {:trigger bad(detections[i])} :: 0 <= i < |detections| ==> (bad(detections[i]) <==> DateParsed(detections[i]) && hourTagOf(detections[i]).None?)
    ensures r.Err? <==> exists i :: 0 <= i < |detections| && bad(detections[i])
    ensures r.Err? ==> exists i :: IsFirstFailure(detections, bad, i) && r.error == DateTimeParseException(detections[i].date)
    ensures r.Ok? ==> r.value == VolumesWith(detections, hourTagOf, dayTagOf)
  {
    var v := VolumeByType(map[], map[], map[]);
    for i := 0 to |detections|
      invariant forall j {:trigger bad(detections[j])} :: 0 <= j < i ==> !bad(detections[j])
      invariant v == VolumesUpTo(detections, i, hourTagOf, dayTagOf)
    {
      var step := VolumeStep(detections, i, v, hourTagOf, dayTagOf, bad);
      if step.Err? {
        assert IsFirstFailure(detections, bad, i);
        return step;
      }
      v := step.value;
    }
    VolumesUpToIs(detections, |detections|, hourTagOf, dayTagOf);
    assert detections[..|detections|] == detections;
    r := Ok(v);
  }

  /**
    `getTotalVehicleVolumeByType()`: fails with the first record whose date is parsed
    and rejected; otherwise per type, per type and hour, and per type and day totals.
  */
  method GetTotalVehicleVolumeByType(detections: seq<Detection>) returns (r: Result<VolumeByType, Failure>)
    ensures r.Err? <==> exists i :: 0 <= i < |detections| && VolumeFailure(detections[i])
    ensures r.Err? ==> exists i :: IsFirstFailure(detections, VolumeFailure, i) && r.error == DateTimeParseException(detections[i].date)
    ensures r.Ok? ==> r.value == VolumeByTypeOf(detections)
  {
    forall i | 0 <= i < |detections| {
      DateTagsFail(detections[i]);
    }
    r := CollectVolumeByType(detections, HourTagOf, DayTagOf, VolumeFailure);
  }

  /** No parsed date fails. */
  ghost predicate NoVolumeFailure(recs: seq<Detection>) {
    forall i :: 0 <= i < |recs| ==> !VolumeFailure(recs[i])
  }

  lemma HourTagged(recs: seq<Detection>)
    requires NoVolumeFailure(recs)
    ensures CountedAreTagged(recs, HourTagOf) && CountedAreTagged(recs, DayTagOf)
  {
    forall i | 0 <= i < |recs| && |ParseObjectsTotal(recs[i])| > 0 ensures HourTagOf(recs[i]).Some? && DayTagOf(recs[i]).Some? {
      assert !VolumeFailure(recs[i]);
    }
  }

  /**
    The entry under `t + "_" + hour` is the count of type `t` over the records whose
    date falls in that hour.
  */
  lemma HourlyVolumeMeaning(recs: seq<Detection>, t: string, h: nat)
    requires h < 24
    ensures Get(VolumeByTypeOf(recs).hourly, t + HourTag(h)) == TaggedCount(recs, HourTagOf, t, HourTag(h))
  {
    HourTagsSeparated();
    HourTagsOf(recs);
    TaggedFoldMeaning(recs, HourTagOf, IsHourTag, t, HourTag(h));
  }

  /** The entry under `t + "_" + day` is the count of type `t` over the records of that day. */
  lemma DailyVolumeMeaning(recs: seq<Detection>, t: string, dt: DateTime)
    requires 1 <= dt.year < 10000 && 1 <= dt.month <= 12 && 1 <= dt.day <= 31
    ensures Get(VolumeByTypeOf(recs).daily, t + DayTag(dt)) == TaggedCount(recs, DayTagOf, t, DayTag(dt))
  {
    DayTagsSeparated();
    DayTagsOf(recs);
    TaggedFoldMeaning(recs, DayTagOf, IsDayTag, t, DayTag(dt));
  }

  /**
    When no date fails, the hourly entries of each vehicle type add up to its total,
    and so do its daily entries.
  */
  lemma VolumeSlicesAddUp(recs: seq<Detection>, t: string)
    requires NoVolumeFailure(recs)
    ensures SumValues(OfType(VolumeByTypeOf(recs).hourly, t, IsHourTag)) == Get(VolumeByTypeOf(recs).total, t)
    ensures SumValues(OfType(VolumeByTypeOf(recs).daily, t, IsDayTag)) == Get(VolumeByTypeOf(recs).total, t)
  {
    HourTagged(recs);
    HourTagsSeparated();
    HourTagsOf(recs);
    DayTagsSeparated();
    DayTagsOf(recs);
    OfTypeSum(recs, HourTagOf, IsHourTag, t);
    OfTypeSum(recs, DayTagOf, IsDayTag, t);
    TotalsMeaning(recs, t);
  }

  /** When no date fails, the three maps count the same vehicles. */
  lemma VolumeGrandTotals(recs: seq<Detection>)
    requires NoVolumeFailure(recs)
    ensures SumValues(VolumeByTypeOf(recs).hourly) == SumValues(VolumeByTypeOf(recs).total)
    ensures SumValues(VolumeByTypeOf(recs).daily) == SumValues(VolumeByTypeOf(recs).total)
  {
    HourTagged(recs);
    TaggedFoldSum(recs, HourTagOf);
    TaggedFoldSum(recs, DayTagOf);
  }

  // ---------------------------------------------------------------------------
  // Vehicle volume by lane

  /** `laneVolumes.get(lane)`, or an empty map. */
  function GetLane(m: LaneCounts, lane: string): Counts {
    if lane in m then m[lane] else map[]
  }

  /** Every lane of `b` gets a map (if it had none), and its counts merged in per type. */
  function MergeLanes(acc: LaneCounts, b: LaneCounts): LaneCounts {
    map lane | lane in acc.Keys + b.Keys :: if lane in b then MergeCounts(GetLane(acc, lane), b[lane]) else acc[lane]
  }

  /** The per-lane, per-type counts after every record, in order. */
  function LaneVolumes(recs: seq<Detection>): LaneCounts {
    if |recs| == 0 then map[]
    else MergeLanes(LaneVolumes(recs[..|recs| - 1]), ParseObjectsByLane(recs[|recs| - 1]))
  }

  /** The count of type `t` on `lane`, summed over all records. */
  function LaneTypeCount(recs: seq<Detection>, lane: string, t: string): int {
    if |recs| == 0 then 0
    else LaneTypeCount(recs[..|recs| - 1], lane, t) + Get(GetLane(ParseObjectsByLane(recs[|recs| - 1]), lane), t)
  }

  /** Some record's decoded `objectsByLane` has `lane`. */
  ghost predicate MentionsLaneVolume(recs: seq<Detection>, lane: string) {
    exists i :: 0 <= i < |recs| && lane in ParseObjectsByLane(recs[i])
  }

  /**
    A lane is present exactly when some record reports it, and each of its counts is
    the sum over all records, not only the latest.
  */
  lemma {:induction false} LaneVolumesMeaning(recs: seq<Detection>, lane: string, t: string)
    ensures lane in LaneVolumes(recs) <==> MentionsLaneVolume(recs, lane)
    ensures Get(GetLane(LaneVolumes(recs), lane), t) == LaneTypeCount(recs, lane, t)
  {
    if |recs| > 0 {
      var init := recs[..|recs| - 1];
      LaneVolumesMeaning(init, lane, t);
      if MentionsLaneVolume(init, lane) {
        var i :| 0 <= i < |init| && lane in ParseObjectsByLane(init[i]);
        assert recs[i] == init[i];
      }
      if MentionsLaneVolume(recs, lane) && lane !in ParseObjectsByLane(recs[|recs| - 1]) {
        var i :| 0 <= i < |recs| && lane in ParseObjectsByLane(recs[i]);
        assert i != |recs| - 1;
        assert init[i] == recs[i];
      }
    }
  }

  lemma MergeLanesStep(acc: LaneCounts, rest: LaneCounts, lane: string)
    requires lane in rest
    ensures MergeLanes(acc, rest) == MergeLanes(acc[lane := MergeCounts(GetLane(acc, lane), rest[lane])], rest - {lane})
  {
    var lhs := MergeLanes(acc, rest);
    var rhs := MergeLanes(acc[lane := MergeCounts(GetLane(acc, lane), rest[lane])], rest - {lane});
    assert lhs.Keys == rhs.Keys;
  }

  lemma MergeLanesNothing(acc: LaneCounts)
    ensures MergeLanes(acc, map[]) == acc
  {
  }

  /** `objectsByLane.forEach`: each lane's vehicle types merged into that lane's map. */
  method MergeLanesAll(acc: LaneCounts, objectsByLane: LaneCounts) returns (r: LaneCounts)
    ensures r == MergeLanes(acc, objectsByLane)
  {
    r := acc;
    var rest := objectsByLane;
    while |rest| > 0
      invariant MergeLanes(r, rest) == MergeLanes(acc, objectsByLane)
      decreases |rest|
    {
      var lane :| lane in rest;
      MergeLanesStep(r, rest, lane);
      var laneVolume := MergeAll(GetLane(r, lane), rest[lane]);
      r := r[lane := laneVolume];
      CardRemove(rest, lane);
      rest := rest - {lane};
    }
    MergeLanesNothing(r);
  }

  /** `getVehicleVolumeByLane()`. */
  method GetVehicleVolumeByLane(detections: seq<Detection>) returns (laneVolumes: LaneCounts)
    ensures laneVolumes == LaneVolumes(detections)
  {
    laneVolumes := map[];
    for i := 0 to |detections|
      invariant laneVolumes == LaneVolumes(detections[..i])
    {
      assert detections[..i + 1][..i] == detections[..i];
      laneVolumes := MergeLanesAll(laneVolumes, ParseObjectsByLane(detections[i]));
    }
    assert detections[..|detections|] == detections;
  }

  // ---------------------------------------------------------------------------
  // Traffic patterns by hour

  /**
    The `detections.forEach` loop of `getTrafficPatternsByHour()`, with the date parse
    and the hour label as `labelOf` and its failure as `bad`.
  */
  method CollectHourlyCounts<K>(detections: seq<Detection>, labelOf: Detection -> Option<K>, bad: Detection -> bool)
    returns (r: Result<map<K, int>, Failure>)
    requires forall i :: 0 <= i < |detections| ==> (bad(detections[i]) <==> labelOf(detections[i]).None?)
    ensures r.Err? <==> exists i :: 0 <= i < |detections| && bad(detections[i])
    ensures r.Err? ==> exists i :: IsFirstFailure(detections, bad, i) && r.error == DateTimeParseException(detections[i].date)
    ensures r.Ok? ==> r.value == BucketTotals(detections, labelOf)
  {
    var hourlyCount := map[];
    for i := 0 to |detections|
      invariant forall j :: 0 <= j < i ==> !bad(detections[j])
      invariant hourlyCount == BucketTotals(detections[..i], labelOf)
    {
      BucketTotalsStep(detections, labelOf, i);
      var objectsTotal := ParseObjectsTotal(detections[i]);
      match labelOf(detections[i]) {
        case None =>
          assert IsFirstFailure(detections, bad, i);
          return Err(DateTimeParseException(detections[i].date));
        case Some(hour) =>
          var totalVehicles := SumOf(objectsTotal);
          hourlyCount := Bump(hourlyCount, hour, totalVehicles);
      }
    }
    assert detections[..|detections|] == detections;
    r := Ok(hourlyCount);
  }

  /**
    `getTrafficPatternsByHour()`: fails with the first record whose date does not
    parse; otherwise each record's vehicle total is added under its hour label.
  */
  method GetTrafficPatternsByHour(detections: seq<Detection>) returns (r: Result<Counts, Failure>)
    ensures r.Err? <==> exists i :: 0 <= i < |detections| && BadDate(detections[i])
    ensures r.Err? ==> exists i :: IsFirstFailure(detections, BadDate, i) && r.error == DateTimeParseException(detections[i].date)
    ensures r.Ok? ==> r.value == BucketTotals(detections, HourLabelOf)
  {
    forall i | 0 <= i < |detections| {
      HourLabelFails(detections[i]);
    }
    r := CollectHourlyCounts(detections, HourLabelOf, BadDate);
  }

  /** The hour label is missing exactly when the date does not parse. */
  lemma HourLabelFails(d: Detection)
    ensures HourLabelOf(d).None? <==> BadDate(d)
  {
  }

  lemma {:induction false} HourLabelBuckets(recs: seq<Detection>, h: nat)
    requires h < 24
    ensures InBucket(recs, HourLabelOf, HourLabel(h)) <==> InBucket(recs, HourOf, h)
    ensures BucketSum(recs, HourLabelOf, HourLabel(h)) == BucketSum(recs, HourOf, h)
  {
    forall i | 0 <= i < |recs| ensures HourLabelOf(recs[i]) == Some(HourLabel(h)) <==> HourOf(recs[i]) == Some(h) {
      if HourLabelOf(recs[i]) == Some(HourLabel(h)) {
        HourLabelInjective(HourOf(recs[i]).value, h);
      }
    }
    if |recs| > 0 {
      var init := recs[..|recs| - 1];
      HourLabelBuckets(init, h);
      assert recs[|recs| - 1] == recs[|recs| - 1];
    }
  }

  /**
    The patterns have a key for hour `h` exactly when some record's date falls in
    that hour, and it holds the vehicle total of those records; there is no other key.
  */
  lemma TrafficPatternsMeaning(recs: seq<Detection>, h: nat)
    requires h < 24
    ensures HourLabel(h) in BucketTotals(recs, HourLabelOf) <==> InBucket(recs, HourOf, h)
    ensures Get(BucketTotals(recs, HourLabelOf), HourLabel(h)) == BucketSum(recs, HourOf, h)
  {
    BucketTotalsMeaning(recs, HourLabelOf, HourLabel(h));
    HourLabelBuckets(recs, h);
  }

  lemma TrafficPatternsKeys(recs: seq<Detection>, k: string)
    requires k in BucketTotals(recs, HourLabelOf)
    ensures exists h: nat :: h < 24 && k == HourLabel(h) && InBucket(recs, HourOf, h)
  {
    BucketTotalsMeaning(recs, HourLabelOf, k);
    var i :| 0 <= i < |recs| && HourLabelOf(recs[i]) == Some(k);
    var h: nat := HourOf(recs[i]).value;
    assert k == HourLabel(h);
    TrafficPatternsMeaning(recs, h);
  }

  // ---------------------------------------------------------------------------
  // Speeds and bottlenecks

  /** `getAverageSpeedByLane()`. */
  method GetAverageSpeedByLane(detections: seq<Detection>) returns (r: map<string, real>)
    ensures r == AvgSpeedOf(detections)
  {
    r := ComputeAvgSpeedByLane(detections);
  }

  /** Below this average speed (km/h) a busy lane is a bottleneck. */
  const CONGESTED_SPEED: real := 10.0
  /** More vehicles than this make a lane busy. */
  const BUSY_LANE_VEHICLES: int := 10
  /** At least this many trucks and buses. */
  const BUSY_LANE_HEAVY: int := 2

  /** Slow, busy and with heavy vehicles. */
  ghost predicate IsCongested(avgSpeedByLane: map<string, real>, volumeByLane: LaneCounts, lane: string) {
    && lane in avgSpeedByLane
    && avgSpeedByLane[lane] < CONGESTED_SPEED
    && LaneTotal(volumeByLane, lane) > BUSY_LANE_VEHICLES
    && LaneHeavy(volumeByLane, lane) >= BUSY_LANE_HEAVY
  }

  /** One entry per congested lane with that lane's counts, and nothing else. */
  ghost predicate IsCongestionReport(bs: seq<Bottleneck>, avgSpeedByLane: map<string, real>, volumeByLane: LaneCounts) {
    && (forall i :: 0 <= i < |bs| ==>
          IsCongested(avgSpeedByLane, volumeByLane, bs[i].lane)
          && bs[i] == Bottleneck(bs[i].lane, avgSpeedByLane[bs[i].lane],
                                 LaneTotal(volumeByLane, bs[i].lane), LaneHeavy(volumeByLane, bs[i].lane)))
    && (forall lane :: IsCongested(avgSpeedByLane, volumeByLane, lane) ==> exists i :: 0 <= i < |bs| && bs[i].lane == lane)
    && (forall i, j :: 0 <= i < j < |bs| ==> bs[i].lane != bs[j].lane)
  }

  /**
    The report after the lanes outside `rest` have been looked at: every entry is a
    congested lane already looked at, with its counts; every congested lane looked at
    has an entry; no lane twice.
  */
  ghost predicate ReportSoFar(bs: seq<Bottleneck>, avgSpeedByLane: map<string, real>, volumeByLane: LaneCounts, rest: map<string, real>) {
    && (forall i :: 0 <= i < |bs| ==>
          bs[i].lane !in rest && IsCongested(avgSpeedByLane, volumeByLane, bs[i].lane)
          && bs[i] == Bottleneck(bs[i].lane, avgSpeedByLane[bs[i].lane],
                                 LaneTotal(volumeByLane, bs[i].lane), LaneHeavy(volumeByLane, bs[i].lane)))
    && (forall lane :: lane !in rest && IsCongested(avgSpeedByLane, volumeByLane, lane) ==>
          exists i :: 0 <= i < |bs| && bs[i].lane == lane)
    && (forall i, j :: 0 <= i < j < |bs| ==> bs[i].lane != bs[j].lane)
  }

  /** Looking at one more lane, and reporting it when it is congested, keeps the report right. */
  lemma ReportStep(bs: seq<Bottleneck>, avgSpeedByLane: map<string, real>, volumeByLane: LaneCounts, rest: map<string, real>, lane: string)
    requires lane in rest && lane in avgSpeedByLane && ReportSoFar(bs, avgSpeedByLane, volumeByLane, rest)
    ensures ReportSoFar(if IsCongested(avgSpeedByLane, volumeByLane, lane)
                        then bs + [Bottleneck(lane, avgSpeedByLane[lane], LaneTotal(volumeByLane, lane), LaneHeavy(volumeByLane, lane))]
                        else bs,
                        avgSpeedByLane, volumeByLane, rest - {lane})
  {
    var bs' := if IsCongested(avgSpeedByLane, volumeByLane, lane)
               then bs + [Bottleneck(lane, avgSpeedByLane[lane], LaneTotal(volumeByLane, lane), LaneHeavy(volumeByLane, lane))]
               else bs;
    forall l | l !in rest - {lane} && IsCongested(avgSpeedByLane, volumeByLane, l)
      ensures exists i :: 0 <= i < |bs'| && bs'[i].lane == l
    {
      if l == lane {
        assert bs'[|bs'| - 1].lane == l;
      } else {
        var i :| 0 <= i < |bs| && bs[i].lane == l;
        assert bs'[i] == bs[i];
      }
    }
  }

  /** The loop of `identifyBottlenecks()` over the speed map. */
  method FindCongestedLanes(avgSpeedByLane: map<string, real>, volumeByLane: LaneCounts) returns (bs: seq<Bottleneck>)
    ensures IsCongestionReport(bs, avgSpeedByLane, volumeByLane)
  {
    bs := [];
    var rest := avgSpeedByLane;
    while |rest| > 0
      invariant forall lane :: lane in rest ==> lane in avgSpeedByLane && rest[lane] == avgSpeedByLane[lane]
      invariant ReportSoFar(bs, avgSpeedByLane, volumeByLane, rest)
      decreases |rest|
    {
      var lane :| lane in rest;
      CardRemove(rest, lane);
      var avgSpeed := rest[lane];
      var totalVehicles, heavyVehicles := CountLaneVehicles(volumeByLane, lane);
      ReportStep(bs, avgSpeedByLane, volumeByLane, rest, lane);
      if avgSpeed < CONGESTED_SPEED && totalVehicles > BUSY_LANE_VEHICLES && heavyVehicles >= BUSY_LANE_HEAVY {
        bs := bs + [Bottleneck(lane, avgSpeed, totalVehicles, heavyVehicles)];
      }
      rest := rest - {lane};
    }
  }

  /** `identifyBottlenecks()`: the strict rule over the speed view and the summed lane view. */
  method IdentifyBottlenecks(detections: seq<Detection>) returns (bs: seq<Bottleneck>)
    ensures IsCongestionReport(bs, AvgSpeedOf(detections), LaneVolumes(detections))
  {
    var avgSpeedByLane := GetAverageSpeedByLane(detections);
    var volumeByLane := GetVehicleVolumeByLane(detections);
    bs := FindCongestedLanes(avgSpeedByLane, volumeByLane);
  }

  // ---------------------------------------------------------------------------
  // Evolution over time

  /** The `timestamps`, `car`, `bus` and `truck` lists of the traffic evolution. */
  datatype CountSeries = CountSeries(timestamps: seq<int>, car: seq<int>, bus: seq<int>, truck: seq<int>)

  /** The `timestamps`, `lane_1`, `lane_2` and `lane_3` lists of the speed evolution. */
  datatype SpeedSeries = SpeedSeries(timestamps: seq<real>, lane1: seq<real>, lane2: seq<real>, lane3: seq<real>)

  /** Point `i` is record `sorted[i]`: its `intValue()` timestamp and its three counts. */
  ghost predicate IsCountSeriesOf(r: CountSeries, sorted: seq<Detection>) {
    && |r.timestamps| == |sorted| && |r.car| == |sorted| && |r.bus| == |sorted| && |r.truck| == |sorted|
    && forall i :: 0 <= i < |sorted| ==>
         && r.timestamps[i] == IntValue(sorted[i].timestampMs)
         && r.car[i] == Get(ParseObjectsTotal(sorted[i]), "car")
         && r.bus[i] == Get(ParseObjectsTotal(sorted[i]), "bus")
         && r.truck[i] == Get(ParseObjectsTotal(sorted[i]), "truck")
  }

  /** Point `i` is record `sorted[i]`: its timestamp as a `double` and its three lane speeds. */
  ghost predicate IsSpeedSeriesOf(r: SpeedSeries, sorted: seq<Detection>) {
    && |r.timestamps| == |sorted| && |r.lane1| == |sorted| && |r.lane2| == |sorted| && |r.lane3| == |sorted|
    && forall i :: 0 <= i < |sorted| ==>
         && r.timestamps[i] == sorted[i].timestampMs as real
         && r.lane1[i] == GetSpeed(ParseAvgSpeedByLane(sorted[i]), "lane_1")
         && r.lane2[i] == GetSpeed(ParseAvgSpeedByLane(sorted[i]), "lane_2")
         && r.lane3[i] == GetSpeed(ParseAvgSpeedByLane(sorted[i]), "lane_3")
  }

  /** Every timestamp fits a Java `int`. */
  ghost predicate TimestampsFitInt(recs: seq<Detection>) {
    forall i :: 0 <= i < |recs| ==> -TWO_POW_31 <= recs[i].timestampMs < TWO_POW_31
  }

  /** The sorted list holds the same records, so it keeps the fit. */
  lemma SortedFitsInt(recs: seq<Detection>)
    requires TimestampsFitInt(recs)
    ensures TimestampsFitInt(SortByTimestamp(recs))
  {
    var sorted := SortByTimestamp(recs);
    forall i | 0 <= i < |sorted| ensures -TWO_POW_31 <= sorted[i].timestampMs < TWO_POW_31 {
      assert sorted[i] in multiset(sorted);
      assert sorted[i] in multiset(recs);
      var j :| 0 <= j < |recs| && recs[j] == sorted[i];
    }
  }

  /**
    `getTrafficEvolutionOverTime()`: one point per record of the timestamp-sorted
    list; the timestamps ascend whenever they fit an `int`.
  */
  method GetTrafficEvolutionOverTime(detections: seq<Detection>) returns (r: CountSeries)
    ensures IsCountSeriesOf(r, SortByTimestamp(detections))
    ensures |r.timestamps| == |detections|
    ensures TimestampsFitInt(detections) ==>
              forall i, j :: 0 <= i < j < |r.timestamps| ==> r.timestamps[i] <= r.timestamps[j]
  {
    var sorted := SortByTimestamp(detections);
    r := CountSeries([], [], [], []);
    for i := 0 to |sorted|
      invariant IsCountSeriesOf(r, sorted[..i])
    {
      var objectsTotal := ParseObjectsTotal(sorted[i]);
      r := CountSeries(
        r.timestamps + [IntValue(sorted[i].timestampMs)],
        r.car + [Get(objectsTotal, "car")],
        r.bus + [Get(objectsTotal, "bus")],
        r.truck + [Get(objectsTotal, "truck")]);
    }
    assert sorted[..|sorted|] == sorted;
    if TimestampsFitInt(detections) {
      SortedFitsInt(detections);
      forall i | 0 <= i < |sorted| ensures r.timestamps[i] == sorted[i].timestampMs {
        IntValueFacts(sorted[i].timestampMs);
      }
    }
  }

  /** `getSpeedEvolutionOverTime()`: one point per record of the timestamp-sorted list. */
  method GetSpeedEvolutionOverTime(detections: seq<Detection>) returns (r: SpeedSeries)
    ensures IsSpeedSeriesOf(r, SortByTimestamp(detections))
    ensures |r.timestamps| == |detections|
    ensures forall i, j :: 0 <= i < j < |r.timestamps| ==> r.timestamps[i] <= r.timestamps[j]
  {
    var sorted := SortByTimestamp(detections);
    r := SpeedSeries([], [], [], []);
    for i := 0 to |sorted|
      invariant IsSpeedSeriesOf(r, sorted[..i])
    {
      var avgSpeedByLane := ParseAvgSpeedByLane(sorted[i]);
      r := SpeedSeries(
        r.timestamps + [sorted[i].timestampMs as real],
        r.lane1 + [GetSpeed(avgSpeedByLane, "lane_1")],
        r.lane2 + [GetSpeed(avgSpeedByLane, "lane_2")],
        r.lane3 + [GetSpeed(avgSpeedByLane, "lane_3")]);
    }
    assert sorted[..|sorted|] == sorted;
  }

  // ---------------------------------------------------------------------------
  // Vehicle-type dominance

  /**
    `getVehicleTypeDominance()`: no entries when nothing was counted, otherwise each
    type's share of the grand total, the shares adding up to 100.
  */
  method GetVehicleTypeDominance(detections: seq<Detection>) returns (r: map<string, real>)
    ensures SumValues(Totals(detections)) > 0 ==> r == Shares(Totals(detections))
    ensures SumValues(Totals(detections)) <= 0 ==> r == map[]
    ensures |r| > 0 ==> SumReals(r) == 100.0
  {
    var totalByType := ComputeTotals(detections);
    var grandTotal := SumOf(totalByType);
    r := map[];
    if grandTotal > 0 {
      r := ComputeShares(totalByType);
      DominanceSumsToHundred(totalByType);
    }
  }
}
