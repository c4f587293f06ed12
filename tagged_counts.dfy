/**
  Vehicle counts kept under composite keys `vehicleType + tag`, as the per-hour and
  per-day volume tables build them with `merge(vehicleType + "_" + hour, count,
  Integer::sum)`: a record's per-type counts are re-keyed by appending that record's
  tag and merged into the table. A family of tags is separated when a composite key
  can be split back into its type and its tag in only one way; for such a family the
  table can be read back per key and per vehicle type.
*/
module TaggedCounts {
  import opened Wrappers
  import opened MapSums
  import opened Detections
  import opened Aggregation

  /** Appending the same tag to two different types gives two different keys. */
  lemma SuffixCancel(tag: string)
    ensures forall a: string, b: string :: a + tag == b + tag ==> a == b
  {
    forall a: string, b: string | a + tag == b + tag ensures a == b {
      assert |a| == |b|;
      assert a == (a + tag)[..|a|];
      assert b == (b + tag)[..|b|];
    }
  }

  /** The counts of `m` under the keys `t + tag`. */
  function Tag(m: Counts, tag: string): Counts {
    SuffixCancel(tag);
    map t | t in m :: t + tag := m[t]
  }

  /** Each type of `m` has its count under its own tagged key, and there are no other keys. */
  lemma TagFacts(m: Counts, tag: string)
    ensures forall t :: t in m <==> t + tag in Tag(m, tag)
    ensures forall t :: t in m ==> Tag(m, tag)[t + tag] == m[t]
    ensures forall k :: k in Tag(m, tag) ==> exists t :: t in m && k == t + tag
  {
    SuffixCancel(tag);
  }

  lemma TagRemove(m: Counts, tag: string, t: string)
    requires t in m
    ensures Tag(m, tag) - {t + tag} == Tag(m - {t}, tag)
  {
    SuffixCancel(tag);
  }

  lemma TagNothing(tag: string)
    ensures Tag(map[], tag) == map[]
  {
  }

  /** Re-keying keeps the grand total. */
  lemma {:induction false} TagSum(m: Counts, tag: string)
    ensures SumValues(Tag(m, tag)) == SumValues(m)
    decreases |m|
  {
    if |m| == 0 {
      TagNothing(tag);
      assert m == map[];
    } else {
      var t :| t in m;
      CardRemove(m, t);
      TagSum(m - {t}, tag);
      TagRemove(m, tag, t);
      TagFacts(m, tag);
      SumValuesRemove(m, t);
      SumValuesRemove(Tag(m, tag), t + tag);
    }
  }

  /** A composite key of the family splits into one type and one tag. */
  ghost predicate Separated(family: string -> bool) {
    forall a: string, b: string, s1: string, s2: string ::
      family(s1) && family(s2) && a + s1 == b + s2 ==> a == b && s1 == s2
  }

  /** In a separated family, the key `t + tag` of a table tagged `other` is there only when the tags agree. */
  lemma TagGet(m: Counts, other: string, t: string, tag: string, family: string -> bool)
    requires Separated(family) && family(tag) && family(other)
    ensures Get(Tag(m, other), t + tag) == if other == tag then Get(m, t) else 0
  {
    if t + tag in Tag(m, other) {
      var t' :| t' in m && t + tag == t' + other;
    }
  }

  // ---------------------------------------------------------------------------
  // The table over a record history

  /** One record's counts merged into `acc` under its tag; a record without a tag adds nothing. */
  function AddTagged(acc: Counts, d: Detection, tagOf: Detection -> Option<string>): Counts {
    match tagOf(d)
    case None => acc
    case Some(tag) => MergeCounts(acc, Tag(ParseObjectsTotal(d), tag))
  }

  /** The table after every record, in order. */
  function TaggedFold(recs: seq<Detection>, tagOf: Detection -> Option<string>): Counts {
    if |recs| == 0 then map[]
    else AddTagged(TaggedFold(recs[..|recs| - 1], tagOf), recs[|recs| - 1], tagOf)
  }

  /** The count of type `t` over the records tagged `tag`, added up record by record. */
  function TaggedCount(recs: seq<Detection>, tagOf: Detection -> Option<string>, t: string, tag: string): int {
    if |recs| == 0 then 0
    else
      TaggedCount(recs[..|recs| - 1], tagOf, t, tag)
      + (if tagOf(recs[|recs| - 1]) == Some(tag) then Get(ParseObjectsTotal(recs[|recs| - 1]), t) else 0)
  }

  /** Every tag the records carry belongs to `family`. */
  ghost predicate TagsIn(recs: seq<Detection>, tagOf: Detection -> Option<string>, family: string -> bool) {
    forall i :: 0 <= i < |recs| && tagOf(recs[i]).Some? ==> family(tagOf(recs[i]).value)
  }

  /** Every record that counts some vehicle has a tag. */
  ghost predicate CountedAreTagged(recs: seq<Detection>, tagOf: Detection -> Option<string>) {
    forall i :: 0 <= i < |recs| && |ParseObjectsTotal(recs[i])| > 0 ==> tagOf(recs[i]).Some?
  }

  lemma TagsInPrefix(recs: seq<Detection>, tagOf: Detection -> Option<string>, family: string -> bool)
    requires |recs| > 0 && TagsIn(recs, tagOf, family)
    ensures TagsIn(recs[..|recs| - 1], tagOf, family)
  {
    var init := recs[..|recs| - 1];
    forall i | 0 <= i < |init| && tagOf(init[i]).Some? ensures family(tagOf(init[i]).value) {
      assert init[i] == recs[i];
    }
  }

  lemma CountedAreTaggedPrefix(recs: seq<Detection>, tagOf: Detection -> Option<string>)
    requires |recs| > 0 && CountedAreTagged(recs, tagOf)
    ensures CountedAreTagged(recs[..|recs| - 1], tagOf)
  {
    var init := recs[..|recs| - 1];
    forall i | 0 <= i < |init| && |ParseObjectsTotal(init[i])| > 0 ensures tagOf(init[i]).Some? {
      assert init[i] == recs[i];
    }
  }

  /** The entry under `t + tag` is the count of type `t` over the records tagged `tag`. */
  lemma {:induction false} TaggedFoldMeaning(recs: seq<Detection>, tagOf: Detection -> Option<string>, family: string -> bool, t: string, tag: string)
    requires Separated(family) && family(tag) && TagsIn(recs, tagOf, family)
    ensures Get(TaggedFold(recs, tagOf), t + tag) == TaggedCount(recs, tagOf, t, tag)
  {
    if |recs| > 0 {
      var init, last := recs[..|recs| - 1], recs[|recs| - 1];
      TagsInPrefix(recs, tagOf, family);
      TaggedFoldMeaning(init, tagOf, family, t, tag);
      if tagOf(last).Some? {
        TagGet(ParseObjectsTotal(last), tagOf(last).value, t, tag, family);
      }
    }
  }

  /** When every counted record is tagged, the table holds every vehicle exactly once. */
  lemma {:induction false} TaggedFoldSum(recs: seq<Detection>, tagOf: Detection -> Option<string>)
    requires CountedAreTagged(recs, tagOf)
    ensures SumValues(TaggedFold(recs, tagOf)) == SumValues(Totals(recs))
  {
    if |recs| == 0 {
      assert Totals(recs) == map[];
    } else {
      var init, last := recs[..|recs| - 1], recs[|recs| - 1];
      var m := ParseObjectsTotal(last);
      CountedAreTaggedPrefix(recs, tagOf);
      TaggedFoldSum(init, tagOf);
      SumValuesMerge(Totals(init), m);
      match tagOf(last) {
        case None =>
          assert |m| == 0;
        case Some(tag) =>
          SumValuesMerge(TaggedFold(init, tagOf), Tag(m, tag));
          TagSum(m, tag);
      }
    }
  }

  // ---------------------------------------------------------------------------
  // One vehicle type's slice of the table

  /** The entries whose key is type `t` followed by a tag of `family`. */
  ghost function OfType(m: Counts, t: string, family: string -> bool): Counts {
    map k | k in m && (exists tag :: family(tag) && k == t + tag) :: m[k]
  }

  lemma OfTypeMerge(a: Counts, b: Counts, t: string, family: string -> bool)
    ensures OfType(MergeCounts(a, b), t, family) == MergeCounts(OfType(a, t, family), OfType(b, t, family))
  {
    var lhs := OfType(MergeCounts(a, b), t, family);
    var rhs := MergeCounts(OfType(a, t, family), OfType(b, t, family));
    assert lhs.Keys == rhs.Keys;
  }

  /** A separated family slices one record's tagged counts down to its count of `t`. */
  lemma OfTypeTag(m: Counts, tag: string, t: string, family: string -> bool)
    requires Separated(family) && family(tag)
    ensures OfType(Tag(m, tag), t, family) == if t in m then map[t + tag := m[t]] else map[]
  {
    var tagged := Tag(m, tag);
    var slice := OfType(tagged, t, family);
    forall k | k in slice ensures k == t + tag && t in m {
      var tag' :| family(tag') && k == t + tag';
      var t' :| t' in m && k == t' + tag;
    }
    if t in m {
      assert t + tag in slice;
    }
  }

  lemma SumSingleton(k: string, v: int)
    ensures SumValues(map[k := v]) == v
  {
    SumValuesRemove(map[k := v], k);
    assert map[k := v] - {k} == map[];
  }

  /**
    With every counted record tagged from a separated family, the entries of one
    vehicle type add up to that type's count over all records.
  */
  lemma {:induction false} OfTypeSum(recs: seq<Detection>, tagOf: Detection -> Option<string>, family: string -> bool, t: string)
    requires Separated(family) && TagsIn(recs, tagOf, family) && CountedAreTagged(recs, tagOf)
    ensures SumValues(OfType(TaggedFold(recs, tagOf), t, family)) == TypeCount(recs, t)
  {
    if |recs| == 0 {
      assert OfType(map[], t, family) == map[];
    } else {
      var init, last := recs[..|recs| - 1], recs[|recs| - 1];
      var m := ParseObjectsTotal(last);
      TagsInPrefix(recs, tagOf, family);
      CountedAreTaggedPrefix(recs, tagOf);
      OfTypeSum(init, tagOf, family, t);
      assert TypeCount(recs, t) == TypeCount(init, t) + Get(m, t);
      match tagOf(last) {
        case None =>
          assert |m| == 0;
        case Some(tag) =>
          OfTypeStep(TaggedFold(init, tagOf), m, tag, t, family);
      }
    }
  }

  /** Merging one tagged record adds its count of `t` to the slice's total. */
  lemma OfTypeStep(acc: Counts, m: Counts, tag: string, t: string, family: string -> bool)
    requires Separated(family) && family(tag)
    ensures SumValues(OfType(MergeCounts(acc, Tag(m, tag)), t, family)) == SumValues(OfType(acc, t, family)) + Get(m, t)
  {
    OfTypeMerge(acc, Tag(m, tag), t, family);
    SumValuesMerge(OfType(acc, t, family), OfType(Tag(m, tag), t, family));
    OfTypeTag(m, tag, t, family);
    if t in m {
      SumSingleton(t + tag, m[t]);
    } else {
      assert SumValues(OfType(Tag(m, tag), t, family)) == 0;
    }
  }
}
