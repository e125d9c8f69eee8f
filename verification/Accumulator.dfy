/** The streaming decision-attribution accumulator and the batch statistics it must agree with. */
module Accumulator {
  import opened Wrappers
  import opened Picking

  datatype Filter = CostFilter | FeeAuthority | PositionGate | OrderRule | PerformanceGate

  datatype Row = Row(
    rawSignal: string, finalSignal: string, submitExpected: Option<bool>, blockedBy: set<Filter>,
    gapRatio: Option<real>, requiredEdgeRatio: Option<real>)

  datatype EdgeStats = EdgeStats(
    gapAverage: Option<real>, gapMedian: Option<real>, gapP90: Option<real>,
    requiredAverage: Option<real>, requiredMedian: Option<real>, gapBelowRequired: Option<real>)

  /** The counters after some rows. A counter over names is a multiset of names. */
  datatype Tally = Tally(
    sampleCount: nat, rawSignals: multiset<string>, finalSignals: multiset<string>, filters: multiset<Filter>,
    submitExpectedBuy: nat, submitExpectedSell: nat, submitMismatchBuy: nat, submitMismatchSell: nat,
    gaps: seq<real>, required: seq<real>, comparable: nat, below: nat)

  const BUY := "BUY"
  const SELL := "SELL"

  // ----- Selecting numbers from rows -----

  function Comparable(row: Row): Option<real> {
    if row.gapRatio.Some? && row.requiredEdgeRatio.Some? then row.gapRatio else None
  }

  function Below(row: Row): Option<real> {
    if Comparable(row).Some? && row.gapRatio.value < row.requiredEdgeRatio.value then row.gapRatio else None
  }

  function Gaps(rows: seq<Row>): seq<real> { Picked((row: Row) => row.gapRatio, rows) }

  function Required(rows: seq<Row>): seq<real> { Picked((row: Row) => row.requiredEdgeRatio, rows) }

  // ----- Statistics of a list of numbers -----

  function Sum(xs: seq<real>): real {
    if xs == [] then 0.0 else Sum(xs[..|xs| - 1]) + xs[|xs| - 1]
  }

  predicate Sorted(xs: seq<real>) {
    forall i, j :: 0 <= i < j < |xs| ==> xs[i] <= xs[j]
  }

  function Insert(xs: seq<real>, x: real): seq<real> {
    if xs == [] || xs[|xs| - 1] <= x then xs + [x]
    else Insert(xs[..|xs| - 1], x) + [xs[|xs| - 1]]
  }

  function Sort(xs: seq<real>): (r: seq<real>)
    ensures |r| == |xs|
  {
    if xs == [] then [] else
      var r := Insert(Sort(xs[..|xs| - 1]), xs[|xs| - 1]);
      InsertLaw(Sort(xs[..|xs| - 1]), xs[|xs| - 1]);
      r
  }

  lemma {:induction false} InsertLaw(xs: seq<real>, x: real)
    ensures Sum(Insert(xs, x)) == Sum(xs) + x
    ensures multiset(Insert(xs, x)) == multiset(xs) + multiset{x}
    ensures |Insert(xs, x)| == |xs| + 1
  {
    if xs == [] || xs[|xs| - 1] <= x {
      assert (xs + [x])[..|xs|] == xs;
    } else {
      var init, last := xs[..|xs| - 1], xs[|xs| - 1];
      InsertLaw(init, x);
      assert xs == init + [last];
      assert (Insert(init, x) + [last])[..|Insert(init, x)|] == Insert(init, x);
    }
  }

  predicate AllAtMost(xs: seq<real>, top: real) {
    forall i :: 0 <= i < |xs| ==> xs[i] <= top
  }

  lemma {:induction false} InsertSorted(xs: seq<real>, x: real, top: real)
    requires Sorted(xs) && AllAtMost(xs, top) && x <= top
    ensures Sorted(Insert(xs, x)) && AllAtMost(Insert(xs, x), top)
  {
    if xs != [] && xs[|xs| - 1] > x {
      InsertSorted(xs[..|xs| - 1], x, xs[|xs| - 1]);
    }
  }

  lemma {:induction false} SortSorts(xs: seq<real>)
    ensures Sorted(Sort(xs))
  {
    if xs != [] {
      SortSorts(xs[..|xs| - 1]);
      var s, x := Sort(xs[..|xs| - 1]), xs[|xs| - 1];
      InsertSorted(s, x, if s == [] || s[|s| - 1] <= x then x else s[|s| - 1]);
    }
  }

  lemma {:induction false} SortKeepsItems(xs: seq<real>)
    ensures multiset(Sort(xs)) == multiset(xs)
  {
    if xs != [] {
      SortKeepsItems(xs[..|xs| - 1]);
      InsertKeepsItems(Sort(xs[..|xs| - 1]), xs[..|xs| - 1], xs[|xs| - 1]);
      assert xs == xs[..|xs| - 1] + [xs[|xs| - 1]];
    }
  }

  lemma InsertKeepsItems(sorted: seq<real>, init: seq<real>, x: real)
    requires multiset(sorted) == multiset(init)
    ensures multiset(Insert(sorted, x)) == multiset(init + [x])
  {
    InsertLaw(sorted, x);
    assert multiset(init + [x]) == multiset(init) + multiset{x};
  }

  lemma {:induction false} SortKeepsSum(xs: seq<real>)
    ensures Sum(Sort(xs)) == Sum(xs)
  {
    if xs != [] {
      SortKeepsSum(xs[..|xs| - 1]);
      InsertLaw(Sort(xs[..|xs| - 1]), xs[|xs| - 1]);
    }
  }

  function Average(xs: seq<real>): Option<real> {
    if xs == [] then None else Some(Sum(xs) / |xs| as real)
  }

  function MiddleOf(ordered: seq<real>): real
    requires ordered != []
  {
    var half := |ordered| / 2;
    if |ordered| % 2 == 1 then ordered[half] else (ordered[half - 1] + ordered[half]) / 2.0
  }

  function Median(xs: seq<real>): Option<real> {
    if xs == [] then None else Some(MiddleOf(Sort(xs)))
  }

  function P90(xs: seq<real>): Option<real> {
    if xs == [] then None else
      var ordered := Sort(xs);
      Some(ordered[(|ordered| - 1) * 9 / 10])
  }

  /** A ratio of counts, zero without samples. */
  function Ratio(count: nat, total: nat): real {
    if total == 0 then 0.0 else count as real / total as real
  }

  /** A ratio that is not reported without samples. */
  function Share(count: nat, total: nat): Option<real> {
    if total == 0 then None else Some(Ratio(count, total))
  }

  /** The batch computation over all rows. */
  function BatchStats(rows: seq<Row>): EdgeStats {
    EdgeStats(
      Average(Gaps(rows)), Median(Gaps(rows)), P90(Gaps(rows)),
      Average(Required(rows)), Median(Required(rows)),
      Share(|Picked(Below, rows)|, |Picked(Comparable, rows)|))
  }

  /** The statistics read off the counters. */
  function TallyStats(t: Tally): EdgeStats {
    EdgeStats(
      Average(t.gaps), Median(t.gaps), P90(t.gaps),
      Average(t.required), Median(t.required), Share(t.below, t.comparable))
  }

  // ----- The accumulator -----

  const EMPTY := Tally(0, multiset{}, multiset{}, multiset{}, 0, 0, 0, 0, [], [], 0, 0)

  function One(condition: bool): nat { if condition then 1 else 0 }

  function WithSignals(t: Tally, row: Row): Tally {
    t.(sampleCount := t.sampleCount + 1,
       rawSignals := t.rawSignals + multiset{row.rawSignal},
       finalSignals := t.finalSignals + multiset{row.finalSignal},
       filters := t.filters + multiset(row.blockedBy))
  }

  function WithSubmission(t: Tally, row: Row): Tally {
    t.(submitExpectedBuy := t.submitExpectedBuy + One(row.finalSignal == BUY && row.submitExpected == Some(true)),
       submitExpectedSell := t.submitExpectedSell + One(row.finalSignal == SELL && row.submitExpected == Some(true)),
       submitMismatchBuy := t.submitMismatchBuy + One(row.finalSignal == BUY && row.submitExpected == Some(false)),
       submitMismatchSell := t.submitMismatchSell + One(row.finalSignal == SELL && row.submitExpected == Some(false)))
  }

  function WithEdges(t: Tally, row: Row): Tally {
    t.(gaps := t.gaps + Listed(row.gapRatio),
       required := t.required + Listed(row.requiredEdgeRatio),
       comparable := t.comparable + One(Comparable(row).Some?),
       below := t.below + One(Below(row).Some?))
  }

  /** One more row. */
  function Next(t: Tally, row: Row): Tally {
    WithEdges(WithSubmission(WithSignals(t, row), row), row)
  }

  function After(rows: seq<Row>): Tally {
    if rows == [] then EMPTY else Next(After(rows[..|rows| - 1]), rows[|rows| - 1])
  }

  class DecisionAttributionAccumulator {
    var sampleCount: nat
    var rawSignals: multiset<string>
    var finalSignals: multiset<string>
    var filters: multiset<Filter>
    var submitExpectedBuy: nat
    var submitExpectedSell: nat
    var submitMismatchBuy: nat
    var submitMismatchSell: nat
    var gaps: seq<real>
    var required: seq<real>
    var comparable: nat
    var below: nat

    function Contents(): Tally
      reads this
    {
      Tally(sampleCount, rawSignals, finalSignals, filters, submitExpectedBuy, submitExpectedSell,
            submitMismatchBuy, submitMismatchSell, gaps, required, comparable, below)
    }

    constructor ()
      ensures Contents() == EMPTY
    {
      sampleCount := 0;
      rawSignals, finalSignals, filters := multiset{}, multiset{}, multiset{};
      submitExpectedBuy, submitExpectedSell, submitMismatchBuy, submitMismatchSell := 0, 0, 0, 0;
      gaps, required, comparable, below := [], [], 0, 0;
    }

    method AddSignals(row: Row)
      modifies `sampleCount, `rawSignals, `finalSignals, `filters
      ensures Contents() == WithSignals(old(Contents()), row)
    {
      sampleCount := sampleCount + 1;
      rawSignals := rawSignals + multiset{row.rawSignal};
      finalSignals := finalSignals + multiset{row.finalSignal};
      filters := filters + multiset(row.blockedBy);
    }

    method AddSubmission(row: Row)
      modifies `submitExpectedBuy, `submitExpectedSell, `submitMismatchBuy, `submitMismatchSell
      ensures Contents() == WithSubmission(old(Contents()), row)
    {
      if row.finalSignal == BUY && row.submitExpected == Some(true) {
        submitExpectedBuy := submitExpectedBuy + 1;
      }
      if row.finalSignal == SELL && row.submitExpected == Some(true) {
        submitExpectedSell := submitExpectedSell + 1;
      }
      if row.finalSignal == BUY && row.submitExpected == Some(false) {
        submitMismatchBuy := submitMismatchBuy + 1;
      }
      if row.finalSignal == SELL && row.submitExpected == Some(false) {
        submitMismatchSell := submitMismatchSell + 1;
      }
    }

    method AddEdges(row: Row)
      modifies `gaps, `required, `comparable, `below
      ensures Contents() == WithEdges(old(Contents()), row)
    {
      if row.gapRatio.Some? {
        gaps := gaps + [row.gapRatio.value];
      }
      if row.requiredEdgeRatio.Some? {
        required := required + [row.requiredEdgeRatio.value];
      }
      if row.gapRatio.Some? && row.requiredEdgeRatio.Some? {
        comparable := comparable + 1;
        if row.gapRatio.value < row.requiredEdgeRatio.value {
          below := below + 1;
        }
      }
    }

    method Add(row: Row)
      modifies this
      ensures Contents() == Next(old(Contents()), row)
    {
      AddSignals(row);
      AddSubmission(row);
      AddEdges(row);
    }
  }

  /** Feeding the rows one by one gives the batch statistics. */
  method Stream(rows: seq<Row>) returns (t: Tally, stats: EdgeStats)
    ensures t == After(rows)
    ensures stats == BatchStats(rows)
  {
    var acc := new DecisionAttributionAccumulator();
    for i := 0 to |rows|
      invariant acc.Contents() == After(rows[..i])
    {
      assert rows[..i + 1][..i] == rows[..i];
      acc.Add(rows[i]);
    }
    assert rows[..|rows|] == rows;
    t := acc.Contents();
    stats := TallyStats(t);
    StreamingIsBatch(rows);
  }

  // ----- Streaming equals batch -----

  lemma {:induction false} TallyLists(rows: seq<Row>)
    ensures
      var t := After(rows);
      && t.gaps == Gaps(rows) && t.required == Required(rows)
      && t.comparable == |Picked(Comparable, rows)| && t.below == |Picked(Below, rows)|
  {
    if rows != [] {
      TallyLists(rows[..|rows| - 1]);
    }
  }

  lemma StreamingIsBatch(rows: seq<Row>)
    ensures TallyStats(After(rows)) == BatchStats(rows)
  {
    TallyLists(rows);
  }

  // ----- Row order does not matter -----

  lemma LastIsLargest(xs: seq<real>, ys: seq<real>)
    requires Sorted(xs) && Sorted(ys) && multiset(xs) == multiset(ys) && xs != [] && ys != []
    ensures xs[|xs| - 1] <= ys[|ys| - 1]
  {
    var x := xs[|xs| - 1];
    assert x in multiset(xs);
    assert x in multiset(ys);
    var i :| 0 <= i < |ys| && ys[i] == x;
  }

  /** Without a common last item, permutations stay permutations. */
  lemma DropLast(xs: seq<real>, ys: seq<real>)
    requires multiset(xs) == multiset(ys) && xs != [] && ys != [] && xs[|xs| - 1] == ys[|ys| - 1]
    ensures multiset(xs[..|xs| - 1]) == multiset(ys[..|ys| - 1])
  {
    var x, head := xs[|xs| - 1], ys[..|ys| - 1];
    assert xs == xs[..|xs| - 1] + [x] && ys == head + [x] + [];
    SameWithout(xs[..|xs| - 1], x, head, []);
    assert head + [] == head;
  }

  lemma {:induction false} SortedUnique(xs: seq<real>, ys: seq<real>)
    requires Sorted(xs) && Sorted(ys) && multiset(xs) == multiset(ys)
    ensures xs == ys
  {
    SameLength(xs, ys);
    if xs != [] {
      LastIsLargest(xs, ys);
      LastIsLargest(ys, xs);
      DropLast(xs, ys);
      SortedUnique(xs[..|xs| - 1], ys[..|ys| - 1]);
      assert xs == xs[..|xs| - 1] + [xs[|xs| - 1]];
      assert ys == ys[..|ys| - 1] + [ys[|ys| - 1]];
    }
  }

  lemma ListStatsOrderFree(xs: seq<real>, ys: seq<real>)
    requires multiset(xs) == multiset(ys)
    ensures Average(xs) == Average(ys) && Median(xs) == Median(ys) && P90(xs) == P90(ys) && |xs| == |ys|
  {
    SortSorts(xs);
    SortSorts(ys);
    SortKeepsItems(xs);
    SortKeepsItems(ys);
    SortKeepsSum(xs);
    SortKeepsSum(ys);
    SortedUnique(Sort(xs), Sort(ys));
    SameLength(xs, ys);
  }

  /** The edge statistics depend on which rows came, not on their order. */
  lemma StatsOrderFree(xs: seq<Row>, ys: seq<Row>)
    requires multiset(xs) == multiset(ys)
    ensures BatchStats(xs) == BatchStats(ys)
  {
    PickedPermutation((row: Row) => row.gapRatio, xs, ys);
    PickedPermutation((row: Row) => row.requiredEdgeRatio, xs, ys);
    PickedPermutation(Comparable, xs, ys);
    PickedPermutation(Below, xs, ys);
    ListStatsOrderFree(Gaps(xs), Gaps(ys));
    ListStatsOrderFree(Required(xs), Required(ys));
    ListStatsOrderFree(Picked(Comparable, xs), Picked(Comparable, ys));
    ListStatsOrderFree(Picked(Below, xs), Picked(Below, ys));
  }

  // ----- Counting -----

  /** Signals of both kinds are counted once per row; submissions of a side never exceed its final
      signals; no filter is counted more often than there are rows; the below-share is of its base. */
  lemma {:induction false} CountsBounded(rows: seq<Row>)
    ensures
      var t := After(rows);
      && t.sampleCount == |rows| == |t.rawSignals| == |t.finalSignals|
      && t.submitExpectedBuy + t.submitMismatchBuy <= t.finalSignals[BUY]
      && t.submitExpectedSell + t.submitMismatchSell <= t.finalSignals[SELL]
      && (forall f :: t.filters[f] <= t.sampleCount)
      && t.below <= t.comparable <= t.sampleCount
  {
    if rows != [] {
      CountsBounded(rows[..|rows| - 1]);
    }
  }

  lemma RatioBounded(count: nat, total: nat)
    requires count <= total
    ensures 0.0 <= Ratio(count, total) <= 1.0
  {
  }

  /** Every ratio lies between zero and one: the filter ratios, zero without samples, and the share of
      gaps below the required edge, where there is something to compare. */
  lemma RatiosInRange(rows: seq<Row>, f: Filter)
    ensures
      var t := After(rows);
      && 0.0 <= Ratio(t.filters[f], t.sampleCount) <= 1.0
      && var below := BatchStats(rows).gapBelowRequired;
         below.Some? ==> 0.0 <= below.value <= 1.0
  {
    var t := After(rows);
    CountsBounded(rows);
    StreamingIsBatch(rows);
    RatioBounded(t.filters[f], t.sampleCount);
    RatioBounded(t.below, t.comparable);
  }
}
