/**
  Ordering records by `timestampMs`: the stable sort behind
  `sorted(Comparator.comparing(Detection::getTimestampMs))`, the order the
  repository's `...OrderByTimestampAsc/Desc` queries deliver, and
  `max(Comparator.comparing(Detection::getTimestampMs))`, which keeps the earliest
  of several records sharing the largest timestamp.
*/
module Ordering {
  import opened Wrappers
  import opened Detections

  /** Ascending `timestampMs` (ties in any order). */
  predicate SortedByTimestamp(s: seq<Detection>) {
    forall i, j :: 0 <= i < j < |s| ==> s[i].timestampMs <= s[j].timestampMs
  }

  /** Descending `timestampMs`, the order of `findAllOrderByTimestampDesc`. */
  predicate SortedByTimestampDesc(s: seq<Detection>) {
    forall i, j :: 0 <= i < j < |s| ==> s[i].timestampMs >= s[j].timestampMs
  }

  /** The records stamped `t`, in the order they appear in `s`. */
  function WithTimestamp(s: seq<Detection>, t: int): seq<Detection> {
    if |s| == 0 then []
    else (if s[0].timestampMs == t then [s[0]] else []) + WithTimestamp(s[1..], t)
  }

  /** Places `x` in front of the first record stamped later than `x`. */
  function Insert(s: seq<Detection>, x: Detection): seq<Detection> {
    if |s| == 0 then [x]
    else if x.timestampMs < s[0].timestampMs then [x] + s
    else [s[0]] + Insert(s[1..], x)
  }

  /** Inserting adds exactly `x`. */
  lemma {:induction false} InsertCounts(s: seq<Detection>, x: Detection)
    ensures multiset(Insert(s, x)) == multiset(s) + multiset{x}
    ensures |Insert(s, x)| == |s| + 1
  {
    if |s| > 0 && x.timestampMs >= s[0].timestampMs {
      InsertCounts(s[1..], x);
      assert s == [s[0]] + s[1..];
    }
  }

  /** No record of `Insert(s, x)` is stamped before `lo` when none of `s` and `x` is. */
  lemma {:induction false} InsertLowerBound(s: seq<Detection>, x: Detection, lo: int)
    requires forall i :: 0 <= i < |s| ==> s[i].timestampMs >= lo
    requires x.timestampMs >= lo
    ensures forall i :: 0 <= i < |Insert(s, x)| ==> Insert(s, x)[i].timestampMs >= lo
  {
    if |s| > 0 && x.timestampMs >= s[0].timestampMs {
      InsertLowerBound(s[1..], x, lo);
    }
  }

  /** Inserting keeps a sorted sequence sorted. */
  lemma {:induction false} InsertSorted(s: seq<Detection>, x: Detection)
    requires SortedByTimestamp(s)
    ensures SortedByTimestamp(Insert(s, x))
  {
    if |s| > 0 && x.timestampMs >= s[0].timestampMs {
      InsertSorted(s[1..], x);
      InsertLowerBound(s[1..], x, s[0].timestampMs);
      var rest := Insert(s[1..], x);
      assert Insert(s, x) == [s[0]] + rest;
    }
  }

  /** The insertion sort the stable library sort is modelled by: records are inserted in list order. */
  function SortByTimestamp(s: seq<Detection>): (r: seq<Detection>)
    ensures SortedByTimestamp(r)
    ensures multiset(r) == multiset(s)
    ensures |r| == |s|
  {
    if |s| == 0 then []
    else
      var init := SortByTimestamp(s[..|s| - 1]);
      InsertCounts(init, s[|s| - 1]);
      InsertSorted(init, s[|s| - 1]);
      assert s == s[..|s| - 1] + [s[|s| - 1]];
      assert multiset(s) == multiset(s[..|s| - 1]) + multiset{s[|s| - 1]};
      Insert(init, s[|s| - 1])
  }

  lemma {:induction false} WithTimestampAppend(a: seq<Detection>, b: seq<Detection>, t: int)
    ensures WithTimestamp(a + b, t) == WithTimestamp(a, t) + WithTimestamp(b, t)
  {
    if |a| == 0 {
      assert a + b == b;
    } else {
      assert (a + b)[0] == a[0];
      assert (a + b)[1..] == a[1..] + b;
      WithTimestampAppend(a[1..], b, t);
    }
  }

  lemma {:induction false} WithTimestampNone(s: seq<Detection>, t: int)
    requires forall i :: 0 <= i < |s| ==> s[i].timestampMs > t
    ensures WithTimestamp(s, t) == []
  {
    if |s| > 0 {
      WithTimestampNone(s[1..], t);
    }
  }

  /** Inserting into a sorted sequence puts `x` after every record stamped like it. */
  lemma {:induction false} WithTimestampInsert(s: seq<Detection>, x: Detection, t: int)
    requires SortedByTimestamp(s)
    ensures WithTimestamp(Insert(s, x), t) == WithTimestamp(s, t) + (if x.timestampMs == t then [x] else [])
  {
    var mine := if x.timestampMs == t then [x] else [];
    if |s| > 0 {
      if x.timestampMs < s[0].timestampMs {
        assert ([x] + s)[1..] == s;
        assert WithTimestamp(Insert(s, x), t) == mine + WithTimestamp(s, t);
        if x.timestampMs == t {
          WithTimestampNone(s, t);
        }
      } else {
        var rest := Insert(s[1..], x);
        var head := if s[0].timestampMs == t then [s[0]] else [];
        assert ([s[0]] + rest)[1..] == rest;
        assert WithTimestamp(Insert(s, x), t) == head + WithTimestamp(rest, t);
        WithTimestampInsert(s[1..], x, t);
        assert head + (WithTimestamp(s[1..], t) + mine) == (head + WithTimestamp(s[1..], t)) + mine;
      }
    }
  }

  lemma SortUnfold(s: seq<Detection>)
    requires |s| > 0
    ensures SortByTimestamp(s) == Insert(SortByTimestamp(s[..|s| - 1]), s[|s| - 1])
  {
  }

  lemma WithTimestampSingle(x: Detection, t: int)
    ensures WithTimestamp([x], t) == if x.timestampMs == t then [x] else []
  {
    assert [x][1..] == [];
  }

  /**
    The sort is stable: the records sharing any one timestamp keep their original
    relative order.
  */
  lemma {:induction false} SortIsStable(s: seq<Detection>, t: int)
    ensures WithTimestamp(SortByTimestamp(s), t) == WithTimestamp(s, t)
  {
    if |s| > 0 {
      var init, last := s[..|s| - 1], s[|s| - 1];
      SortUnfold(s);
      SortIsStable(init, t);
      WithTimestampInsert(SortByTimestamp(init), last, t);
      WithTimestampAppend(init, [last], t);
      WithTimestampSingle(last, t);
      assert s == init + [last];
    }
  }

  /** A sorted input is returned unchanged. */
  lemma {:induction false} SortOfSorted(s: seq<Detection>)
    requires SortedByTimestamp(s)
    ensures SortByTimestamp(s) == s
  {
    if |s| > 0 {
      var init, last := s[..|s| - 1], s[|s| - 1];
      SortUnfold(s);
      SortOfSorted(init);
      InsertAtEnd(init, last);
      assert s == init + [last];
    }
  }

  lemma {:induction false} InsertAtEnd(s: seq<Detection>, x: Detection)
    requires forall i :: 0 <= i < |s| ==> s[i].timestampMs <= x.timestampMs
    ensures Insert(s, x) == s + [x]
  {
    if |s| > 0 {
      InsertAtEnd(s[1..], x);
      assert s == [s[0]] + s[1..];
    }
  }

  // ---------------------------------------------------------------------------
  // The latest record

  /**
    Index `i` holds a largest timestamp, and every record before it is strictly older:
    the one `Stream.max` returns, as `BinaryOperator.maxBy` keeps its left operand on a tie.
  */
  predicate IsFirstLatest(s: seq<Detection>, i: int) {
    && 0 <= i < |s|
    && (forall j :: 0 <= j < |s| ==> s[j].timestampMs <= s[i].timestampMs)
    && (forall j :: 0 <= j < i ==> s[j].timestampMs < s[i].timestampMs)
  }

  /** At most one index is the first latest record. */
  lemma FirstLatestUnique(s: seq<Detection>, i: int, j: int)
    requires IsFirstLatest(s, i) && IsFirstLatest(s, j)
    ensures i == j
  {
    assert s[j].timestampMs <= s[i].timestampMs;
    assert s[i].timestampMs <= s[j].timestampMs;
  }

  /** The reduction `maxBy` performs, left to right: a later record wins only when strictly newer. */
  function FirstLatestIndex(s: seq<Detection>): (i: nat)
    requires |s| > 0
    ensures IsFirstLatest(s, i)
  {
    if |s| == 1 then 0
    else
      var best := FirstLatestIndex(s[..|s| - 1]);
      if s[|s| - 1].timestampMs > s[best].timestampMs then |s| - 1 else best
  }

  /** `stream().max(Comparator.comparing(Detection::getTimestampMs))`, as an index; `None` is the empty `Optional`. */
  method LatestIndex(s: seq<Detection>) returns (r: Option<nat>)
    ensures r.None? <==> |s| == 0
    ensures r.Some? ==> IsFirstLatest(s, r.value) && r.value == FirstLatestIndex(s)
  {
    if |s| == 0 {
      return None;
    }
    var best := 0;
    for k := 1 to |s|
      invariant best == FirstLatestIndex(s[..k])
    {
      assert s[..k + 1][..k] == s[..k];
      if s[k].timestampMs > s[best].timestampMs {
        best := k;
      }
    }
    assert s[..|s|] == s;
    return Some(best);
  }

  /** The head of a descending list has a largest timestamp. */
  lemma {:induction false} HeadOfDescendingIsLatest(s: seq<Detection>)
    requires SortedByTimestampDesc(s) && |s| > 0
    ensures forall j :: 0 <= j < |s| ==> s[j].timestampMs <= s[0].timestampMs
  {
    forall j | 0 < j < |s| ensures s[j].timestampMs <= s[0].timestampMs {
      assert s[0].timestampMs >= s[j].timestampMs;
    }
  }

  // ---------------------------------------------------------------------------
  // Dropping records

  /** The records satisfying `keep`, in their original order. */
  function Keep(s: seq<Detection>, keep: Detection -> bool): (r: seq<Detection>)
    ensures |r| <= |s|
  {
    if |s| == 0 then []
    else Keep(s[..|s| - 1], keep) + (if keep(s[|s| - 1]) then [s[|s| - 1]] else [])
  }

  /** Exactly the records satisfying `keep` survive, and a sorted sequence stays sorted. */
  lemma {:induction false} KeepFacts(s: seq<Detection>, keep: Detection -> bool)
    ensures forall x :: x in Keep(s, keep) <==> x in s && keep(x)
    ensures SortedByTimestamp(s) ==> SortedByTimestamp(Keep(s, keep))
  {
    if |s| > 0 {
      var init, last := s[..|s| - 1], s[|s| - 1];
      KeepFacts(init, keep);
      assert s == init + [last];
      var kept := Keep(init, keep);
      if SortedByTimestamp(s) && keep(last) {
        forall i | 0 <= i < |kept| ensures kept[i].timestampMs <= last.timestampMs {
          assert kept[i] in kept;
          assert kept[i] in init;
          var j :| 0 <= j < |init| && init[j] == kept[i];
          assert s[j] == init[j];
        }
      }
    }
  }
}
