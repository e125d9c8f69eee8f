/** What the attribution counters and statistics are, stated over the rows and the figures themselves. */
module AccumulatorMeaning {
  import opened Wrappers
  import opened Picking
  import opened Accumulator

  // ----- Ranks -----

  function UpTo(top: real): real -> Option<real> { (x: real) => if x <= top then Some(x) else None }

  function Under(top: real): real -> Option<real> { (x: real) => if x < top then Some(x) else None }

  /** A figure of the list with at most `k` figures below it and more than `k` at or below it. */
  predicate HasRank(xs: seq<real>, x: real, k: nat) {
    x in xs && |Picked(Under(x), xs)| <= k < |Picked(UpTo(x), xs)|
  }

  lemma SortedRankBelow(s: seq<real>, k: nat)
    requires Sorted(s) && k < |s|
    ensures |Picked(Under(s[k]), s)| <= k
  {
    PickedConcat(Under(s[k]), s[..k], s[k..]);
    PickedNothingIff(Under(s[k]), s[k..]);
    assert s == s[..k] + s[k..];
  }

  lemma SortedRankUpTo(s: seq<real>, k: nat)
    requires Sorted(s) && k < |s|
    ensures k < |Picked(UpTo(s[k]), s)|
  {
    var head := s[..k + 1];
    PickedConcat(UpTo(s[k]), head, s[k + 1..]);
    assert Holds(UpTo(s[k]), head, head);
    HeldIsPicked(UpTo(s[k]), head, head);
    assert s == head + s[k + 1..];
  }

  /** What stands at a place of the sorted list has that rank in the list. */
  lemma SortedHasRank(xs: seq<real>, k: nat)
    requires k < |xs|
    ensures HasRank(xs, Sort(xs)[k], k)
  {
    var s := Sort(xs);
    SortSorts(xs);
    SortKeepsItems(xs);
    SortedRankBelow(s, k);
    SortedRankUpTo(s, k);
    PickedPermutation(Under(s[k]), s, xs);
    SameLength(Picked(Under(s[k]), s), Picked(Under(s[k]), xs));
    PickedPermutation(UpTo(s[k]), s, xs);
    SameLength(Picked(UpTo(s[k]), s), Picked(UpTo(s[k]), xs));
    assert s[k] in multiset(s);
    assert s[k] in multiset(xs);
  }

  lemma {:induction false} FewerUnder(xs: seq<real>, x: real, y: real)
    requires x < y
    ensures |Picked(UpTo(x), xs)| <= |Picked(Under(y), xs)|
  {
    if xs != [] {
      FewerUnder(xs[..|xs| - 1], x, y);
    }
  }

  /** One figure has a given rank. */
  lemma RankUnique(xs: seq<real>, x: real, y: real, k: nat)
    requires HasRank(xs, x, k) && HasRank(xs, y, k)
    ensures x == y
  {
    if x < y {
      FewerUnder(xs, x, y);
    } else if y < x {
      FewerUnder(xs, y, x);
    }
  }

  /** The median is halfway between the figures of the two middle ranks, which are one when the number
      of figures is odd; the 90th percentile has the rank at nine tenths of the last one. */
  lemma MedianIff(xs: seq<real>, low: real, high: real)
    requires xs != []
    requires HasRank(xs, low, (|xs| - 1) / 2) && HasRank(xs, high, |xs| / 2)
    ensures Median(xs) == Some((low + high) / 2.0)
  {
    SortedHasRank(xs, (|xs| - 1) / 2);
    SortedHasRank(xs, |xs| / 2);
    RankUnique(xs, low, Sort(xs)[(|xs| - 1) / 2], (|xs| - 1) / 2);
    RankUnique(xs, high, Sort(xs)[|xs| / 2], |xs| / 2);
  }

  lemma P90Iff(xs: seq<real>, x: real)
    requires xs != []
    ensures P90(xs) == Some(x) <==> HasRank(xs, x, (|xs| - 1) * 9 / 10)
  {
    var k := (|xs| - 1) * 9 / 10;
    SortedHasRank(xs, k);
    if HasRank(xs, x, k) {
      RankUnique(xs, x, Sort(xs)[k], k);
    }
  }

  /** There is a figure of every rank. */
  lemma RankHeld(xs: seq<real>, k: nat) returns (x: real)
    requires k < |xs|
    ensures HasRank(xs, x, k)
  {
    x := Sort(xs)[k];
    SortedHasRank(xs, k);
  }

  /** At least half of the figures lie at or below the median, and at least half at or above it. */
  lemma MedianHalves(xs: seq<real>, m: real)
    requires Median(xs) == Some(m)
    ensures 2 * |Picked(UpTo(m), xs)| >= |xs| && 2 * |Picked(Under(m), xs)| <= |xs|
  {
    var low, high := Sort(xs)[(|xs| - 1) / 2], Sort(xs)[|xs| / 2];
    SortSorts(xs);
    SortedHasRank(xs, (|xs| - 1) / 2);
    SortedHasRank(xs, |xs| / 2);
    assert low <= m <= high by { MedianIff(xs, low, high); }
    MoreUpTo(xs, low, m);
    MoreUpTo(xs, m, high);
  }

  lemma {:induction false} MoreUpTo(xs: seq<real>, x: real, y: real)
    requires x <= y
    ensures |Picked(UpTo(x), xs)| <= |Picked(UpTo(y), xs)|
    ensures |Picked(Under(x), xs)| <= |Picked(Under(y), xs)|
  {
    if xs != [] {
      MoreUpTo(xs[..|xs| - 1], x, y);
    }
  }

  /** The sum grows by the figure that is added. */
  lemma SumStep(xs: seq<real>, x: real)
    ensures Sum(xs + [x]) == Sum(xs) + x && Sum([]) == 0.0
  {
    assert (xs + [x])[..|xs|] == xs;
  }

  /** The average times the number of figures is their sum. */
  lemma AverageIff(xs: seq<real>, a: real, sum: real, n: nat)
    requires sum == Sum(xs) && n == |xs|
    ensures Average(xs) == Some(a) <==> n > 0 && a * n as real == sum
  {
    if n > 0 {
      QuotientIff(a, sum, n as real);
    }
  }

  lemma QuotientIff(q: real, x: real, y: real)
    requires y > 0.0
    ensures q == x / y <==> q * y == x
  {
    assert (x / y) * y == x;
  }

  lemma ShareOfIff(count: nat, total: nat, share: real)
    ensures Share(count, total) == Some(share) <==> total > 0 && share * total as real == count as real
    ensures total > 0 ==> Ratio(count, total) * total as real == count as real
  {
    if total > 0 {
      QuotientIff(share, count as real, total as real);
      QuotientIff(Ratio(count, total), count as real, total as real);
    }
  }

  // ----- Counting rows -----

  function Tallied(wanted: Row -> bool, rows: seq<Row>): nat {
    if rows == [] then 0 else Tallied(wanted, rows[..|rows| - 1]) + if wanted(rows[|rows| - 1]) then 1 else 0
  }

  function RawIs(s: string): Row -> bool { (row: Row) => row.rawSignal == s }

  function FinalIs(s: string): Row -> bool { (row: Row) => row.finalSignal == s }

  function BlockedIn(f: Filter): Row -> bool { (row: Row) => f in row.blockedBy }

  function Submits(s: string, expected: bool): Row -> bool {
    (row: Row) => row.finalSignal == s && row.submitExpected == Some(expected)
  }

  function GapIs(x: real): Row -> bool { (row: Row) => row.gapRatio == Some(x) }

  function RequiredIs(x: real): Row -> bool { (row: Row) => row.requiredEdgeRatio == Some(x) }

  predicate Both(row: Row) { row.gapRatio.Some? && row.requiredEdgeRatio.Some? }

  predicate Short(row: Row) { Both(row) && row.gapRatio.value < row.requiredEdgeRatio.value }

  lemma {:induction false} SignalsCounted(rows: seq<Row>, s: string, f: Filter)
    ensures
      var t := After(rows);
      && t.rawSignals[s] == Tallied(RawIs(s), rows)
      && t.finalSignals[s] == Tallied(FinalIs(s), rows)
      && t.filters[f] == Tallied(BlockedIn(f), rows)
  {
    if rows != [] {
      SignalsCounted(rows[..|rows| - 1], s, f);
    }
  }

  lemma {:induction false} SubmissionsCounted(rows: seq<Row>)
    ensures
      var t := After(rows);
      && t.submitExpectedBuy == Tallied(Submits("BUY", true), rows)
      && t.submitExpectedSell == Tallied(Submits("SELL", true), rows)
      && t.submitMismatchBuy == Tallied(Submits("BUY", false), rows)
      && t.submitMismatchSell == Tallied(Submits("SELL", false), rows)
  {
    if rows != [] {
      SubmissionsCounted(rows[..|rows| - 1]);
    }
  }

  lemma {:induction false} EdgesCounted(rows: seq<Row>, x: real)
    ensures multiset(Gaps(rows))[x] == Tallied(GapIs(x), rows)
    ensures multiset(Required(rows))[x] == Tallied(RequiredIs(x), rows)
  {
    if rows != [] {
      EdgesCounted(rows[..|rows| - 1], x);
    }
  }

  lemma {:induction false} SharesCounted(rows: seq<Row>)
    ensures |Picked(Comparable, rows)| == Tallied(Both, rows)
    ensures |Picked(Below, rows)| == Tallied(Short, rows)
  {
    if rows != [] {
      SharesCounted(rows[..|rows| - 1]);
    }
  }

  lemma ReportedShare(rows: seq<Row>)
    ensures BatchStats(rows).gapBelowRequired == Share(Tallied(Short, rows), Tallied(Both, rows))
  {
    SharesCounted(rows);
  }

  /** The reported share of gaps below the required edge, over the rows that have both figures. */
  lemma ShareIff(rows: seq<Row>, both: nat, short: nat, reported: Option<real>, share: real)
    requires both == Tallied(Both, rows) && short == Tallied(Short, rows)
    requires reported == BatchStats(rows).gapBelowRequired
    ensures reported == Some(share) <==> both > 0 && share * both as real == short as real
  {
    assert reported == Share(short, both) by { ReportedShare(rows); }
    ShareOfIff(short, both, share);
  }

  /** A filter ratio is the share of the rows that the filter blocked. */
  lemma FilterRatioIs(rows: seq<Row>, f: Filter)
    ensures Share(After(rows).filters[f], After(rows).sampleCount) == Share(Tallied(BlockedIn(f), rows), |rows|)
    ensures Ratio(After(rows).filters[f], After(rows).sampleCount) == Ratio(Tallied(BlockedIn(f), rows), |rows|)
  {
    SignalsCounted(rows, BUY, f);
    CountsBounded(rows);
  }

  // ----- The reported figures -----

  ghost predicate IsAverage(xs: seq<real>, a: Option<real>) {
    if a.None? then xs == [] else xs != [] && a.value * |xs| as real == Sum(xs)
  }

  ghost predicate IsMedian(xs: seq<real>, m: Option<real>) {
    if m.None? then xs == []
    else exists low, high :: InTheMiddle(xs, low, high) && m.value == (low + high) / 2.0
  }

  /** The figures of the two middle ranks. */
  predicate InTheMiddle(xs: seq<real>, low: real, high: real) {
    xs != [] && HasRank(xs, low, (|xs| - 1) / 2) && HasRank(xs, high, |xs| / 2)
  }

  ghost predicate IsP90(xs: seq<real>, p: Option<real>) {
    if p.None? then xs == [] else xs != [] && HasRank(xs, p.value, (|xs| - 1) * 9 / 10)
  }

  lemma AverageIs(xs: seq<real>)
    ensures IsAverage(xs, Average(xs))
  {
    if xs != [] {
      AverageIff(xs, Average(xs).value, Sum(xs), |xs|);
    }
  }

  lemma MedianIs(xs: seq<real>)
    ensures IsMedian(xs, Median(xs))
  {
    if xs != [] {
      var low := RankHeld(xs, (|xs| - 1) / 2);
      var high := RankHeld(xs, |xs| / 2);
      MedianIff(xs, low, high);
      assert InTheMiddle(xs, low, high);
    }
  }

  lemma P90Is(xs: seq<real>)
    ensures IsP90(xs, P90(xs))
  {
    if xs != [] {
      P90Iff(xs, P90(xs).value);
    }
  }

  /** After every list of rows the streamed statistics are the average, the median and the percentile of
      the gaps, and the average and the median of the required edges. */
  lemma StatsMean(rows: seq<Row>, stats: EdgeStats, gaps: seq<real>, required: seq<real>)
    requires stats == TallyStats(After(rows)) && gaps == Gaps(rows) && required == Required(rows)
    ensures IsAverage(gaps, stats.gapAverage) && IsMedian(gaps, stats.gapMedian) && IsP90(gaps, stats.gapP90)
    ensures IsAverage(required, stats.requiredAverage) && IsMedian(required, stats.requiredMedian)
  {
    StreamingIsBatch(rows);
    AverageIs(gaps);
    MedianIs(gaps);
    P90Is(gaps);
    AverageIs(required);
    MedianIs(required);
  }
}
