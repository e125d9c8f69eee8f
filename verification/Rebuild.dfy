/** Runs in which fees are finalised: the fill table is rewritten and the stored row is rebuilt from the
    accounting replay, between live fills and cash adjustments. */
module Rebuild {
  import opened Wrappers
  import opened Ledger
  import opened AccountingReplay
  import opened Portfolio

  /** A live call; a fee that becomes final for the fill at `index`; or the rebuild that a repair starts
      with. `rows` is the fill table afterwards, in the order of the replay. */
  datatype LedgerEvent =
    | Live(event: Event)
    | FinalizeFee(index: nat, fee: real, rows: seq<FillRow>)
    | Reset(rows: seq<FillRow>)

  function WithFee(fills: seq<Fill>, i: nat, fee: real): seq<Fill>
    requires i < |fills|
  {
    fills[i := fills[i].(fee := Some(fee))]
  }

  /** The row becomes what the report over these fills shows; without a report nothing changes. */
  function Rebuilt(startCash: real, b: Book, fills: seq<Fill>, rows: seq<FillRow>): Book {
    if multiset(FillsOf(rows)) != multiset(fills) then b else
      match Expected(startCash, Tables(rows, RowsOf(b.adjustments), [], []))
      case Err(_) => b
      case Ok(s) => Book(s, fills, b.adjustments)
  }

  function Advance(startCash: real, b: Book, e: LedgerEvent): Book {
    match e
    case Live(event) => Step(b, event)
    case FinalizeFee(i, fee, rows) =>
      if i >= |b.fills| || fee < 0.0 then b else Rebuilt(startCash, b, WithFee(b.fills, i, fee), rows)
    case Reset(rows) => Rebuilt(startCash, b, b.fills, rows)
  }

  /** The whole run from the opening portfolio. */
  function Advanced(startCash: real, events: seq<LedgerEvent>): Book {
    if events == [] then Book(Opening(startCash), [], [])
    else Advance(startCash, Advanced(startCash, events[..|events| - 1]), events[|events| - 1])
  }

  // ----- What every run keeps -----

  /** Only admitted fills, no key twice, nothing locked. */
  ghost predicate Orderly(b: Book) {
    (forall f :: f in b.fills ==> Admitted(f)) && DistinctKeys(b.adjustments) && Unlocked(b.balances)
  }

  lemma FeeKeepsAdmitted(fills: seq<Fill>, i: nat, fee: real)
    requires i < |fills| && fee >= 0.0 && forall f :: f in fills ==> Admitted(f)
    ensures forall f :: f in WithFee(fills, i, fee) ==> Admitted(f)
  {
    forall f | f in WithFee(fills, i, fee) ensures Admitted(f) {
      assert fills[i] in fills;
      if f != fills[i].(fee := Some(fee)) {
        var j :| 0 <= j < |fills| && WithFee(fills, i, fee)[j] == f;
        assert f == fills[j];
      }
    }
  }

  lemma RebuiltOrderly(startCash: real, b: Book, fills: seq<Fill>, rows: seq<FillRow>)
    requires Orderly(b) && forall f :: f in fills ==> Admitted(f)
    ensures Orderly(Rebuilt(startCash, b, fills, rows))
  {
    var t := Tables(rows, RowsOf(b.adjustments), [], []);
    if multiset(FillsOf(rows)) == multiset(fills) && Expected(startCash, t).Ok? {
      AllConsume(fills, FillsOf(rows));
      ReportUnlockedIff(startCash, t);
    }
  }

  lemma AdvanceOrderly(startCash: real, b: Book, e: LedgerEvent)
    requires Orderly(b)
    ensures Orderly(Advance(startCash, b, e))
  {
    match e
    case Live(event) =>
      StepAdmitsAndUnlocks(b, event);
      StepKeepsDistinct(b, event);
    case FinalizeFee(i, fee, rows) =>
      if i < |b.fills| && fee >= 0.0 {
        FeeKeepsAdmitted(b.fills, i, fee);
        RebuiltOrderly(startCash, b, WithFee(b.fills, i, fee), rows);
      }
    case Reset(rows) => RebuiltOrderly(startCash, b, b.fills, rows);
  }

  /** Every run, funded or not, keeps the stored row unlocked, the fills admitted and the keys distinct. */
  lemma {:induction false} RunOrderly(startCash: real, events: seq<LedgerEvent>)
    ensures Orderly(Advanced(startCash, events))
  {
    if events != [] {
      RunOrderly(startCash, events[..|events| - 1]);
      AdvanceOrderly(startCash, Advanced(startCash, events[..|events| - 1]), events[|events| - 1]);
    }
  }

  // ----- The stored row against the report -----

  /** Fills are covered when they are applied, and in the order of every rebuild. */
  predicate FundedAdvance(startCash: real, b: Book, e: LedgerEvent) {
    match e
    case Live(event) => FundedStep(b, event)
    case FinalizeFee(_, _, rows) => FundedRun(Opening(startCash), FillsOf(rows))
    case Reset(rows) => FundedRun(Opening(startCash), FillsOf(rows))
  }

  predicate FundedEvents(startCash: real, events: seq<LedgerEvent>) {
    events == [] ||
    var init := events[..|events| - 1];
    FundedEvents(startCash, init) && FundedAdvance(startCash, Advanced(startCash, init), events[|events| - 1])
  }

  /** A funded rebuild leaves the row in effect for the rewritten fills. */
  lemma RebuiltInEffect(startCash: real, b: Book, fills: seq<Fill>, rows: seq<FillRow>)
    requires DistinctKeys(b.adjustments) && forall f :: f in fills ==> Admitted(f)
    requires multiset(FillsOf(rows)) == multiset(fills) && FundedRun(Opening(startCash), FillsOf(rows))
    ensures InEffect(Opening(startCash), Rebuilt(startCash, b, fills, rows))
    ensures Rebuilt(startCash, b, fills, rows).fills == fills
  {
    AllConsume(fills, FillsOf(rows));
    UnlockedReplay(Opening(startCash), FillsOf(rows));
    EffectsOrderFree(fills, FillsOf(rows));
    ExpectedFromStored(startCash, rows, b.adjustments, Replay(Opening(startCash), FillsOf(rows)).value);
  }

  lemma AdvanceInEffect(startCash: real, b: Book, e: LedgerEvent)
    requires InEffect(Opening(startCash), b) && Orderly(b) && FundedAdvance(startCash, b, e)
    ensures InEffect(Opening(startCash), Advance(startCash, b, e))
  {
    match e
    case Live(event) => StepInEffect(Opening(startCash), b, event);
    case FinalizeFee(i, fee, rows) =>
      if i < |b.fills| && fee >= 0.0 && multiset(FillsOf(rows)) == multiset(WithFee(b.fills, i, fee)) {
        FeeKeepsAdmitted(b.fills, i, fee);
        RebuiltInEffect(startCash, b, WithFee(b.fills, i, fee), rows);
      }
    case Reset(rows) =>
      if multiset(FillsOf(rows)) == multiset(b.fills) {
        RebuiltInEffect(startCash, b, b.fills, rows);
      }
  }

  lemma {:induction false} RunInEffectToo(startCash: real, events: seq<LedgerEvent>)
    requires FundedEvents(startCash, events)
    ensures InEffect(Opening(startCash), Advanced(startCash, events))
  {
    if events != [] {
      var init := events[..|events| - 1];
      RunInEffectToo(startCash, init);
      RunOrderly(startCash, init);
      AdvanceInEffect(startCash, Advanced(startCash, init), events[|events| - 1]);
    }
  }

  /** For every funded run of fills, adjustments, fee finalisations and rebuilds, and every funded order in
      which the report replays the fills that the run leaves: the report shows the stored assets exactly
      and the stored cash to within one quantum per SELL on a tie. */
  lemma LedgerMatchesReport(startCash: real, events: seq<LedgerEvent>, b: Book, rows: seq<FillRow>)
    requires FundedEvents(startCash, events) && b == Advanced(startCash, events)
    requires multiset(FillsOf(rows)) == multiset(b.fills) && FundedRun(Opening(startCash), FillsOf(rows))
    ensures
      var expected := Expected(startCash, Tables(rows, RowsOf(b.adjustments), [], []));
      expected.Ok? && Agree(b.balances, expected.value, 0, TieSells(b.fills))
  {
    RunInEffectToo(startCash, events);
    RunOrderly(startCash, events);
    RebuiltInEffect(startCash, b, b.fills, rows);
    AllConsume(b.fills, FillsOf(rows));
    UnlockedReplay(Opening(startCash), FillsOf(rows));
    ExpectedFromStored(startCash, rows, b.adjustments, Replay(Opening(startCash), FillsOf(rows)).value);
  }

  /** Right after a rebuild that had a report, the row is that report, to the quantum. */
  lemma RebuiltIsReport(startCash: real, b: Book, fills: seq<Fill>, rows: seq<FillRow>, t: Tables)
    requires multiset(FillsOf(rows)) == multiset(fills) && t == Tables(rows, RowsOf(b.adjustments), [], [])
    requires Expected(startCash, t).Ok?
    ensures
      var after := Rebuilt(startCash, b, fills, rows);
      after.balances == Expected(startCash, t).value && Rebuilt(startCash, after, fills, rows) == after
  {
  }

  /** The fill at `i` has this fee, and everything else about the fills is as it was. */
  ghost predicate OnlyFee(before: seq<Fill>, after: seq<Fill>, i: nat, fee: real) {
    && i < |before| == |after|
    && after[i] == Fill(before[i].side, before[i].price, before[i].qty, Some(fee))
    && forall j :: 0 <= j < |before| && j != i ==> after[j] == before[j]
  }

  /** Finalising a fee is refused for a negative one, for a fill that is not there, and without a report;
      otherwise that fee alone is rewritten and the row becomes the report over the rewritten fills. */
  lemma FeeFinalised(startCash: real, b: Book, i: nat, fee: real, rows: seq<FillRow>, fills: seq<Fill>,
      report: Result<Balances, LedgerError>, after: Book)
    requires after == Advance(startCash, b, FinalizeFee(i, fee, rows))
    requires i < |b.fills| ==> OnlyFee(b.fills, fills, i, fee)
    requires report == Expected(startCash, Tables(rows, RowsOf(b.adjustments), [], []))
    ensures after ==
      if i < |b.fills| && fee >= 0.0 && multiset(FillsOf(rows)) == multiset(fills) && report.Ok?
      then Book(report.value, fills, b.adjustments) else b
  {
    if i < |b.fills| {
      assert fills == WithFee(b.fills, i, fee);
    }
  }
}
