/** The pair selector (`findNextComparisonPair`): enumerates every pair of
    watched ids, counts how often each pair was already compared, and offers a
    least-compared pair, the earliest one in enumeration order on ties. */
module PairSelector {
  import opened Wrappers
  import opened Domain
  import StableSort

  /** Comparison `c` is between `a` and `b`, in either orientation. */
  predicate Between(c: Comparison, a: MediaId, b: MediaId)
  {
    (c.winner == a && c.loser == b) || (c.winner == b && c.loser == a)
  }

  /** `comparisons.filter(c => Between(c, a, b)).length`. */
  function PairCount(log: seq<Comparison>, a: MediaId, b: MediaId): nat
  {
    if |log| == 0 then 0
    else (if Between(log[0], a, b) then 1 else 0) + PairCount(log[1..], a, b)
  }

  /** One element of the `pairs` array. Besides the source's `id1`, `id2` and
      `count`, it records the two positions `i < j` it was built from, so that
      enumeration order can be stated. */
  datatype Candidate = Candidate(id1: MediaId, id2: MediaId, count: nat, i: nat, j: nat)

  function CandidateAt(ids: seq<MediaId>, log: seq<Comparison>, i: nat, j: nat): Candidate
    requires i < j < |ids|
  {
    Candidate(ids[i], ids[j], PairCount(log, ids[i], ids[j]), i, j)
  }

  /** The inner loop's output for row `i` after columns i+1 .. j-1. */
  function Row(ids: seq<MediaId>, log: seq<Comparison>, i: nat, j: nat): seq<Candidate>
    requires i < j <= |ids|
    decreases j
  {
    if j == i + 1 then [] else Row(ids, log, i, j - 1) + [CandidateAt(ids, log, i, j - 1)]
  }

  /** The outer loop's output after rows 0 .. i-1. */
  function PairsBefore(ids: seq<MediaId>, log: seq<Comparison>, i: nat): seq<Candidate>
    requires i <= |ids|
  {
    if i == 0 then [] else PairsBefore(ids, log, i - 1) + Row(ids, log, i - 1, |ids|)
  }

  /** Every pair `i < j` of positions, row by row. */
  function AllPairs(ids: seq<MediaId>, log: seq<Comparison>): seq<Candidate>
  {
    PairsBefore(ids, log, |ids|)
  }

  /** The key of `pairs.sort((a, b) => a.count - b.count)`. */
  function CountKey(c: Candidate): real { c.count as real }

  /** The pair the source offers: the head of the stably sorted `pairs`, or
      nothing when there is no pair. */
  function NextPair(ids: seq<MediaId>, log: seq<Comparison>): Option<(MediaId, MediaId)>
  {
    var sorted := StableSort.SortBy(AllPairs(ids, log), CountKey);
    if |sorted| == 0 then None else Some((sorted[0].id1, sorted[0].id2))
  }

  /** (a, b) comes before (c, d) in the nested-loop enumeration. */
  predicate EnumeratedBefore(a: nat, b: nat, c: nat, d: nat)
  {
    a < c || (a == c && b < d)
  }

  /** The pair at positions (i, j) has been compared no more often than any
      other pair, and every pair enumerated before it strictly more often. */
  ghost predicate IsEarliestLeastCompared(ids: seq<MediaId>, log: seq<Comparison>, i: nat, j: nat)
    requires i < j < |ids|
  {
    && (forall a, b :: 0 <= a < b < |ids| ==> PairCount(log, ids[i], ids[j]) <= PairCount(log, ids[a], ids[b]))
    && (forall a, b :: 0 <= a < b < |ids| && EnumeratedBefore(a, b, i, j) ==>
          PairCount(log, ids[i], ids[j]) < PairCount(log, ids[a], ids[b]))
  }

  // ---------------------------------------------------------------------
  // The operation

  /** `findNextComparisonPair`, returning the chosen ids (the media lookups
      that follow are persistence). */
  method FindNextComparisonPair(ids: seq<MediaId>, log: seq<Comparison>) returns (r: Option<(MediaId, MediaId)>)
    ensures r == NextPair(ids, log)
  {
    var pairs: seq<Candidate> := [];
    var i := 0;
    while i < |ids|
      invariant 0 <= i <= |ids|
      invariant pairs == PairsBefore(ids, log, i)
    {
      var j := i + 1;
      while j < |ids|
        invariant i + 1 <= j <= |ids|
        invariant pairs == PairsBefore(ids, log, i) + Row(ids, log, i, j)
      {
        var count := PairCount(log, ids[i], ids[j]);
        pairs := pairs + [Candidate(ids[i], ids[j], count, i, j)];
        j := j + 1;
      }
      i := i + 1;
    }
    var sorted := StableSort.SortBy(pairs, CountKey);
    if |sorted| == 0 {
      return None;
    }
    r := Some((sorted[0].id1, sorted[0].id2));
  }

  // ---------------------------------------------------------------------
  // Properties

  /** The count does not depend on the orientation of the pair. */
  lemma {:induction false} PairCountIsSymmetric(log: seq<Comparison>, a: MediaId, b: MediaId)
    ensures PairCount(log, a, b) == PairCount(log, b, a)
  {
    if |log| > 0 {
      PairCountIsSymmetric(log[1..], a, b);
    }
  }

  /** Where row `a` starts in the enumeration of `n` ids. */
  function RowStart(n: nat, a: nat): nat
    requires a <= n
  {
    if a == 0 then 0 else RowStart(n, a - 1) + (n - a)
  }

  /** The position of pair (a, b) in the enumeration. */
  function Position(n: nat, a: nat, b: nat): nat
    requires a < b < n
  {
    RowStart(n, a) + (b - a - 1)
  }

  lemma {:induction false} RowAt(ids: seq<MediaId>, log: seq<Comparison>, i: nat, j: nat)
    requires i < j <= |ids|
    ensures |Row(ids, log, i, j)| == j - i - 1
    ensures forall k :: 0 <= k < j - i - 1 ==> Row(ids, log, i, j)[k] == CandidateAt(ids, log, i, i + 1 + k)
    decreases j
  {
    if j > i + 1 {
      RowAt(ids, log, i, j - 1);
    }
  }

  /** Rows before `a + 1` end after every position of row `a`. */
  lemma PositionInRow(n: nat, a: nat, b: nat)
    requires a < b < n
    ensures RowStart(n, a) <= Position(n, a, b) < RowStart(n, a + 1)
  {
  }

  /** `ps` lists the pairs of rows 0 .. i-1, pair (a, b) at `Position(n, a, b)`. */
  ghost predicate Enumerates(ids: seq<MediaId>, log: seq<Comparison>, ps: seq<Candidate>, i: nat)
    requires i <= |ids|
  {
    && |ps| == RowStart(|ids|, i)
    && (forall a, b :: 0 <= a < i && a < b < |ids| ==>
          Position(|ids|, a, b) < |ps| && ps[Position(|ids|, a, b)] == CandidateAt(ids, log, a, b))
    && (forall k :: 0 <= k < |ps| ==>
          ps[k].i < i && ps[k].i < ps[k].j < |ids| && ps[k] == CandidateAt(ids, log, ps[k].i, ps[k].j)
          && Position(|ids|, ps[k].i, ps[k].j) == k)
  }

  /** Positions are enumerated row by row. */
  lemma {:induction false} PairsBeforeAt(ids: seq<MediaId>, log: seq<Comparison>, i: nat)
    requires i <= |ids|
    ensures Enumerates(ids, log, PairsBefore(ids, log, i), i)
  {
    if i > 0 {
      PairsBeforeAt(ids, log, i - 1);
      RowAt(ids, log, i - 1, |ids|);
      EnumeratesStep(ids, log, PairsBefore(ids, log, i - 1), Row(ids, log, i - 1, |ids|), i);
    }
  }

  lemma EnumeratesStep(ids: seq<MediaId>, log: seq<Comparison>, init: seq<Candidate>, row: seq<Candidate>, i: nat)
    requires 0 < i <= |ids|
    requires Enumerates(ids, log, init, i - 1)
    requires |row| == |ids| - i
    requires forall k :: 0 <= k < |ids| - i ==> row[k] == CandidateAt(ids, log, i - 1, i + k)
    ensures Enumerates(ids, log, init + row, i)
  {
    var n := |ids|;
    var all := init + row;
    assert |all| == RowStart(n, i);
    forall a, b | 0 <= a < i && a < b < n
      ensures Position(n, a, b) < |all| && all[Position(n, a, b)] == CandidateAt(ids, log, a, b)
    {
      StepPosition(ids, log, init, row, i, a, b);
    }
    forall k | 0 <= k < |all|
      ensures all[k].i < i && all[k].i < all[k].j < n && all[k] == CandidateAt(ids, log, all[k].i, all[k].j)
        && Position(n, all[k].i, all[k].j) == k
    {
      StepElement(ids, log, init, row, i, k);
    }
  }

  lemma StepPosition(ids: seq<MediaId>, log: seq<Comparison>, init: seq<Candidate>, row: seq<Candidate>, i: nat, a: nat, b: nat)
    requires 0 < i <= |ids|
    requires Enumerates(ids, log, init, i - 1)
    requires |row| == |ids| - i
    requires forall k :: 0 <= k < |ids| - i ==> row[k] == CandidateAt(ids, log, i - 1, i + k)
    requires a < i && a < b < |ids|
    ensures Position(|ids|, a, b) < |init + row| && (init + row)[Position(|ids|, a, b)] == CandidateAt(ids, log, a, b)
  {
    var n := |ids|;
    PositionInRow(n, a, b);
    if a < i - 1 {
      RowStartGrows(n, a + 1, i - 1);
      assert Position(n, a, b) < |init|;
    } else {
      assert Position(n, a, b) - |init| == b - i;
    }
  }

  lemma StepElement(ids: seq<MediaId>, log: seq<Comparison>, init: seq<Candidate>, row: seq<Candidate>, i: nat, k: nat)
    requires 0 < i <= |ids|
    requires Enumerates(ids, log, init, i - 1)
    requires |row| == |ids| - i
    requires forall k :: 0 <= k < |ids| - i ==> row[k] == CandidateAt(ids, log, i - 1, i + k)
    requires k < |init + row|
    ensures var c := (init + row)[k];
      c.i < i && c.i < c.j < |ids| && c == CandidateAt(ids, log, c.i, c.j) && Position(|ids|, c.i, c.j) == k
  {
    if k >= |init| {
      assert (init + row)[k] == row[k - |init|];
    } else {
      assert (init + row)[k] == init[k];
    }
  }

  /** Earlier in the enumeration means an earlier position. */
  lemma PositionIsMonotone(n: nat, a: nat, b: nat, c: nat, d: nat)
    requires a < b < n && c < d < n
    requires EnumeratedBefore(a, b, c, d)
    ensures Position(n, a, b) < Position(n, c, d)
  {
    if a < c {
      RowStartGrows(n, a + 1, c);
    }
  }

  lemma {:induction false} RowStartGrows(n: nat, a: nat, c: nat)
    requires a <= c <= n
    ensures RowStart(n, a) <= RowStart(n, c)
    decreases c
  {
    if a < c {
      RowStartGrows(n, a, c - 1);
    }
  }

  lemma AllPairsFacts(ids: seq<MediaId>, log: seq<Comparison>)
    ensures forall a, b :: 0 <= a < b < |ids| ==>
      Position(|ids|, a, b) < |AllPairs(ids, log)| && AllPairs(ids, log)[Position(|ids|, a, b)] == CandidateAt(ids, log, a, b)
    ensures forall k :: 0 <= k < |AllPairs(ids, log)| ==>
      AllPairs(ids, log)[k].i < AllPairs(ids, log)[k].j < |ids|
      && AllPairs(ids, log)[k] == CandidateAt(ids, log, AllPairs(ids, log)[k].i, AllPairs(ids, log)[k].j)
      && Position(|ids|, AllPairs(ids, log)[k].i, AllPairs(ids, log)[k].j) == k
    ensures StableSort.NoDuplicates(AllPairs(ids, log))
    ensures |AllPairs(ids, log)| == RowStart(|ids|, |ids|)
    ensures 2 * |AllPairs(ids, log)| == |ids| * (|ids| - 1)
  {
    PairsBeforeAt(ids, log, |ids|);
    RowStartClosedForm(|ids|, |ids|);
  }

  /** The first `a` rows hold a(2n - a - 1)/2 pairs. */
  lemma {:induction false} RowStartClosedForm(n: nat, a: nat)
    requires a <= n
    ensures 2 * RowStart(n, a) == a * (2 * n - a - 1)
  {
    if a > 0 {
      RowStartClosedForm(n, a - 1);
      calc {
        2 * RowStart(n, a);
        2 * RowStart(n, a - 1) + 2 * (n - a);
        (a - 1) * (2 * n - a) + 2 * (n - a);
        a * (2 * n - a) - (2 * n - a) + 2 * (n - a);
        a * (2 * n - a) - a;
        a * (2 * n - a - 1);
      }
    }
  }

  /** The pair offered: none exactly when fewer than two ids are watched;
      otherwise the ids at positions i < j of a least-compared pair, the
      earliest such pair in enumeration order. */
  lemma NextPairIsEarliestLeastCompared(ids: seq<MediaId>, log: seq<Comparison>)
    ensures NextPair(ids, log).None? <==> |ids| < 2
    ensures NextPair(ids, log).Some? ==>
      exists i, j :: 0 <= i < j < |ids| && NextPair(ids, log).value == (ids[i], ids[j])
        && IsEarliestLeastCompared(ids, log, i, j)
  {
    var p := AllPairs(ids, log);
    AllPairsFacts(ids, log);
    StableSort.SortByIsSortedPermutation(p, CountKey);
    if |ids| >= 2 {
      assert Position(|ids|, 0, 1) < |p|;
      var h := StableSort.SortBy(p, CountKey)[0];
      StableSort.SortByHeadIsFirstMinimum(p, CountKey);
      var k := StableSort.IndexOf(p, h);
      var i, j := h.i, h.j;
      assert h == CandidateAt(ids, log, i, j);
      forall a, b | 0 <= a < b < |ids| ensures PairCount(log, ids[i], ids[j]) <= PairCount(log, ids[a], ids[b]) {
        assert p[Position(|ids|, a, b)] == CandidateAt(ids, log, a, b);
        assert CountKey(h) <= CountKey(p[Position(|ids|, a, b)]);
      }
      forall a, b | 0 <= a < b < |ids| && EnumeratedBefore(a, b, i, j)
        ensures PairCount(log, ids[i], ids[j]) < PairCount(log, ids[a], ids[b])
      {
        PositionIsMonotone(|ids|, a, b, i, j);
        assert Position(|ids|, a, b) < k;
        assert CountKey(h) < CountKey(p[Position(|ids|, a, b)]);
      }
      assert IsEarliestLeastCompared(ids, log, i, j);
    } else {
      assert RowStart(|ids|, |ids|) == 0;
    }
  }

  /** The worked example: with watched ids X, Y, Z, X and Y compared twice, Y
      and Z once, and X and Z never, the pair offered is (X, Z). */
  lemma ExampleNextPair()
    ensures NextPair(["X", "Y", "Z"], [Comparison("X", "Y"), Comparison("Y", "X"), Comparison("Y", "Z")]) == Some(("X", "Z"))
  {
    var ids := ["X", "Y", "Z"];
    var log := [Comparison("X", "Y"), Comparison("Y", "X"), Comparison("Y", "Z")];
    assert PairCount(log, "X", "Y") == 2;
    assert PairCount(log, "X", "Z") == 0;
    assert PairCount(log, "Y", "Z") == 1;
    NextPairIsEarliestLeastCompared(ids, log);
    var i, j :| 0 <= i < j < |ids| && NextPair(ids, log).value == (ids[i], ids[j])
      && IsEarliestLeastCompared(ids, log, i, j);
    assert PairCount(log, ids[i], ids[j]) <= PairCount(log, ids[0], ids[2]);
  }
}
