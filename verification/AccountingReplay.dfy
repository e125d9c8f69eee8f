/** The authoritative replay: fills folded into balances, then three families of keyed deltas. */
module AccountingReplay {
  import opened Rounding
  import opened Wrappers
  import opened Ledger
  import Portfolio

  datatype FillRow = FillRow(clientOrderId: string, fillTs: int, fill: Fill)

  type FillKey = (string, int, real, real)

  /** A row of an adjustment or repair table, in whole units; cash adjustments carry no asset delta. */
  datatype DeltaRow = DeltaRow(key: string, cash: real, asset: real)

  datatype Tables = Tables(
    fills: seq<FillRow>, adjustments: seq<DeltaRow>, repairs: seq<DeltaRow>, positions: seq<DeltaRow>)

  /** Total and count of one family of keyed rows. */
  datatype Family = Family(cash: int, asset: int, count: nat)

  datatype Report = Report(
    cash: int, qty: int, balances: Balances,
    adjustments: Family, repairs: Family, positions: Family,
    feeTotal: real, duplicateFills: nat)

  function KeyOf(row: FillRow): FillKey {
    (row.clientOrderId, row.fillTs, row.fill.price, row.fill.qty)
  }

  function FillKeys(rows: seq<FillRow>): set<FillKey> {
    set i | 0 <= i < |rows| :: KeyOf(rows[i])
  }

  function DeltaKeys(rows: seq<DeltaRow>): set<string> {
    set i | 0 <= i < |rows| :: rows[i].key
  }

  function FillsOf(rows: seq<FillRow>): (r: seq<Fill>)
    ensures |r| == |rows|
    ensures forall i :: 0 <= i < |rows| ==> r[i] == rows[i].fill
  {
    seq(|rows|, i requires 0 <= i < |rows| => rows[i].fill)
  }

  function FeeSum(rows: seq<FillRow>): real {
    if rows == [] then 0.0 else
      var fee := rows[|rows| - 1].fill.fee;
      FeeSum(rows[..|rows| - 1]) + if fee.Some? then fee.value else 0.0
  }

  /** What a family contributes: the first row of every key, once. */
  function Contribution(rows: seq<DeltaRow>): Family {
    if rows == [] then Family(0, 0, 0) else
      var init := rows[..|rows| - 1];
      var row := rows[|rows| - 1];
      var before := Contribution(init);
      if row.key in DeltaKeys(init) then before
      else Family(before.cash + NormalizeCash(row.cash), before.asset + NormalizeAsset(row.asset), before.count + 1)
  }

  function Add(s: Balances, f: Family): Balances {
    s.(cashAvailable := s.cashAvailable + f.cash, assetAvailable := s.assetAvailable + f.asset)
  }

  function Opening(startCash: real): Balances {
    Balances(NormalizeCash(startCash), 0, 0, 0)
  }

  /** The balances the report must show. */
  function Expected(startCash: real, t: Tables): Result<Balances, LedgerError> {
    match Replay(Opening(startCash), FillsOf(t.fills))
    case Err(e) => Err(e)
    case Ok(s) => Ok(Add(Add(Add(s, Contribution(t.adjustments)), Contribution(t.repairs)), Contribution(t.positions)))
  }

  lemma DeltaKeysStep(rows: seq<DeltaRow>, i: nat)
    requires i < |rows|
    ensures rows[..i + 1][..i] == rows[..i]
    ensures DeltaKeys(rows[..i + 1]) == DeltaKeys(rows[..i]) + {rows[i].key}
  {
    assert rows[..i + 1] == rows[..i] + [rows[i]];
    forall k | k in DeltaKeys(rows[..i]) + {rows[i].key} ensures k in DeltaKeys(rows[..i + 1]) {
      if k == rows[i].key {
        assert rows[..i + 1][i].key == k;
      } else {
        var j :| 0 <= j < i && rows[..i][j].key == k;
        assert rows[..i + 1][j].key == k;
      }
    }
  }

  lemma FillKeysStep(rows: seq<FillRow>, i: nat)
    requires i < |rows|
    ensures FillKeys(rows[..i + 1]) == FillKeys(rows[..i]) + {KeyOf(rows[i])}
  {
    assert rows[..i + 1] == rows[..i] + [rows[i]];
    forall k | k in FillKeys(rows[..i]) + {KeyOf(rows[i])} ensures k in FillKeys(rows[..i + 1]) {
      if k == KeyOf(rows[i]) {
        assert KeyOf(rows[..i + 1][i]) == k;
      } else {
        var j :| 0 <= j < i && KeyOf(rows[..i][j]) == k;
        assert KeyOf(rows[..i + 1][j]) == k;
      }
    }
  }

  /** Counting pass over the fill rows: repeated keys and the fee total. */
  method ScanFills(rows: seq<FillRow>) returns (duplicates: nat, feeTotal: real)
    ensures duplicates == |rows| - |FillKeys(rows)|
    ensures feeTotal == FeeSum(rows)
  {
    duplicates, feeTotal := 0, 0.0;
    var seen: set<FillKey> := {};
    for i := 0 to |rows|
      invariant seen == FillKeys(rows[..i])
      invariant duplicates == i - |seen|
      invariant feeTotal == FeeSum(rows[..i])
    {
      var key := KeyOf(rows[i]);
      if key in seen {
        duplicates := duplicates + 1;
        assert seen + {key} == seen;
      }
      FillKeysStep(rows, i);
      assert rows[..i + 1][..i] == rows[..i];
      seen := seen + {key};
      var fee := rows[i].fill.fee;
      feeTotal := feeTotal + if fee.Some? then fee.value else 0.0;
    }
    assert rows[..|rows|] == rows;
  }

  /** One adjustment loop. The totals and the available parts move together, row by row. */
  method FoldFamily(cash: int, qty: int, s: Balances, rows: seq<DeltaRow>)
    returns (cash': int, qty': int, s': Balances, family: Family)
    requires cash == s.CashTotal() && qty == s.AssetTotal()
    ensures family == Contribution(rows) && family.count == |DeltaKeys(rows)|
    ensures s' == Add(s, family)
    ensures cash' == s'.CashTotal() && qty' == s'.AssetTotal()
  {
    cash', qty', s' := cash, qty, s;
    family := Family(0, 0, 0);
    var seen: set<string> := {};
    for i := 0 to |rows|
      invariant seen == DeltaKeys(rows[..i])
      invariant family == Contribution(rows[..i]) && family.count == |seen|
      invariant s' == Add(s, family)
      invariant cash' == s'.CashTotal() && qty' == s'.AssetTotal()
    {
      var row := rows[i];
      DeltaKeysStep(rows, i);
      if row.key in seen {
        assert seen + {row.key} == seen;
        continue;
      }
      seen := seen + {row.key};
      var cashDelta, assetDelta := NormalizeCash(row.cash), NormalizeAsset(row.asset);
      family := Family(family.cash + cashDelta, family.asset + assetDelta, family.count + 1);
      cash', qty' := cash' + cashDelta, qty' + assetDelta;
      s' := s'.(cashAvailable := s'.cashAvailable + cashDelta, assetAvailable := s'.assetAvailable + assetDelta);
    }
    assert rows[..|rows|] == rows;
  }

  method ComputeAccountingReplay(startCash: real, t: Tables) returns (r: Result<Report, LedgerError>)
    ensures r.Err? <==> Expected(startCash, t).Err?
    ensures r.Err? ==> r.error == Expected(startCash, t).error
    ensures r.Ok? ==>
      && r.value.balances == Expected(startCash, t).value
      && r.value.cash == r.value.balances.CashTotal() && r.value.qty == r.value.balances.AssetTotal()
      && r.value.adjustments == Contribution(t.adjustments) && r.value.adjustments.count == |DeltaKeys(t.adjustments)|
      && r.value.repairs == Contribution(t.repairs) && r.value.repairs.count == |DeltaKeys(t.repairs)|
      && r.value.positions == Contribution(t.positions) && r.value.positions.count == |DeltaKeys(t.positions)|
      && r.value.duplicateFills == |t.fills| - |FillKeys(t.fills)|
      && r.value.feeTotal == FeeSum(t.fills)
  {
    var duplicates, feeTotal := ScanFills(t.fills);
    var replayed := ReplayFills(Opening(startCash), FillsOf(t.fills));
    if replayed.Err? {
      return Err(replayed.error);
    }
    var s, cash, qty := replayed.value, replayed.value.CashTotal(), replayed.value.AssetTotal();
    var adjustments, repairs, positions;
    cash, qty, s, adjustments := FoldFamily(cash, qty, s, t.adjustments);
    cash, qty, s, repairs := FoldFamily(cash, qty, s, t.repairs);
    cash, qty, s, positions := FoldFamily(cash, qty, s, t.positions);
    r := Ok(Report(cash, qty, s, adjustments, repairs, positions, feeTotal, duplicates));
  }

  /** No balance is ever locked on the way to the report, nor in it, exactly when no BUY has a negative
      rounded spend and no SELL a negative quantity. */
  lemma ReportUnlockedIff(startCash: real, t: Tables)
    requires Expected(startCash, t).Ok?
    ensures LockedStaysZero(Opening(startCash), FillsOf(t.fills)) <==>
            forall f :: f in FillsOf(t.fills) ==> Consuming(f)
    ensures LockedStaysZero(Opening(startCash), FillsOf(t.fills)) ==>
            Expected(startCash, t).value.cashLocked == 0 && Expected(startCash, t).value.assetLocked == 0
  {
    var rows := FillsOf(t.fills);
    LockedZeroIff(Opening(startCash), rows);
    if LockedStaysZero(Opening(startCash), rows) {
      assert UnlockedAfter(Opening(startCash), rows, |rows|) && rows[..|rows|] == rows;
    }
  }

  // ----- The stored portfolio against the report -----

  /** A stored adjustment as a table row. */
  function RowOf(a: Portfolio.Adjustment): DeltaRow {
    DeltaRow(a.key, a.delta as real / CASH_QUANTA_PER_UNIT, 0.0)
  }

  function RowsOf(adjustments: seq<Portfolio.Adjustment>): (r: seq<DeltaRow>)
    ensures |r| == |adjustments|
    ensures forall i :: 0 <= i < |r| ==> r[i] == RowOf(adjustments[i])
  {
    seq(|adjustments|, i requires 0 <= i < |adjustments| => RowOf(adjustments[i]))
  }

  lemma {:induction false} StoredRowsContribute(adjustments: seq<Portfolio.Adjustment>)
    requires Portfolio.DistinctKeys(adjustments)
    ensures Contribution(RowsOf(adjustments)) ==
            Family(Portfolio.DeltaSum(adjustments), 0, |adjustments|)
  {
    if adjustments != [] {
      var init := adjustments[..|adjustments| - 1];
      var last := adjustments[|adjustments| - 1];
      StoredRowsContribute(init);
      var rows := RowsOf(adjustments);
      assert rows[..|rows| - 1] == RowsOf(init);
      assert last.key !in DeltaKeys(RowsOf(init));
      HalfEvenInteger(last.delta);
      HalfEvenInteger(0);
      assert (last.delta as real / CASH_QUANTA_PER_UNIT) * CASH_QUANTA_PER_UNIT == last.delta as real;
    }
  }

  lemma ExpectedFromStored(startCash: real, fills: seq<FillRow>, adjustments: seq<Portfolio.Adjustment>, s: Balances)
    requires Portfolio.DistinctKeys(adjustments)
    requires Replay(Opening(startCash), FillsOf(fills)) == Ok(s)
    ensures Expected(startCash, Tables(fills, RowsOf(adjustments), [], [])) ==
            Ok(Portfolio.Credit(s, Portfolio.DeltaSum(adjustments)))
  {
    StoredRowsContribute(adjustments);
    AddFamilies(s, Portfolio.DeltaSum(adjustments), |adjustments|);
  }

  lemma AddFamilies(s: Balances, cash: int, count: nat)
    ensures Add(Add(Add(s, Family(cash, 0, count)), Contribution([])), Contribution([])) == Portfolio.Credit(s, cash)
  {
    assert Contribution([]) == Family(0, 0, 0);
  }

  /** For every run from an opening portfolio, whatever its fills and adjustments and whatever the order
      in which the report replays those fills: neither the stored row nor the report locks anything. */
  lemma StoredRunUnlocked(
    startCash: real, events: seq<Portfolio.Event>, b: Portfolio.Book, t: Tables)
    requires b == Portfolio.Run(Portfolio.Book(Opening(startCash), [], []), events)
    requires multiset(FillsOf(t.fills)) == multiset(b.fills)
    ensures Unlocked(b.balances)
    ensures Expected(startCash, t).Ok? ==>
              && LockedStaysZero(Opening(startCash), FillsOf(t.fills))
              && Unlocked(Expected(startCash, t).value)
  {
    Portfolio.RunAdmitsAndUnlocks(Opening(startCash), events);
    AllConsume(b.fills, FillsOf(t.fills));
    if Expected(startCash, t).Ok? {
      ReportUnlockedIff(startCash, t);
    }
  }

  /** For every funded run from an opening portfolio, and every funded order in which the report replays
      the fills that the run wrote (by time, say, where a late fill goes before earlier ones): the report
      shows the stored assets exactly and the stored cash to within one quantum per tie SELL. */
  lemma StoredPortfolioMatchesReport(
    startCash: real, events: seq<Portfolio.Event>, b0: Portfolio.Book, b: Portfolio.Book, fills: seq<FillRow>)
    requires b0 == Portfolio.Book(Opening(startCash), [], [])
    requires b == Portfolio.Run(b0, events) && multiset(FillsOf(fills)) == multiset(b.fills)
    requires Portfolio.FundedLive(b0, events) && FundedRun(b0.balances, FillsOf(fills))
    ensures
      var expected := Expected(startCash, Tables(fills, RowsOf(b.adjustments), [], []));
      && expected.Ok?
      && Agree(b.balances, expected.value, 0, TieSells(b.fills))
  {
    Portfolio.RunKeepsDistinct(b0, events);
    Portfolio.RunAdmitsAndUnlocks(b0.balances, events);
    Portfolio.RunInEffect(b0.balances, events);
    AllConsume(b.fills, FillsOf(fills));
    UnlockedReplay(b0.balances, FillsOf(fills));
    EffectsOrderFree(b.fills, FillsOf(fills));
    ExpectedFromStored(startCash, fills, b.adjustments, Replay(b0.balances, FillsOf(fills)).value);
  }

  /** There is a report exactly when every fill, in the order of the replay, finds enough in the opening
      portfolio and what the fills before it leave: no adjustment counts. */
  lemma ReportExistsIff(startCash: real, t: Tables)
    ensures Expected(startCash, t).Ok? <==>
            forall k :: 0 <= k < |FillsOf(t.fills)| ==> EnoughAt(Opening(startCash), FillsOf(t.fills), k)
  {
    ReplayOkIff(Opening(startCash), FillsOf(t.fills));
  }

  const BUY_3000 := Fill(Buy, 0.00003, 1.0, None)

  lemma Buy3000()
    ensures Spend(BUY_3000) == 3000 && Admitted(BUY_3000)
  {
    HalfEvenInteger(3000);
    HalfEvenInteger(1000000000000);
    HalfEvenInteger(0);
  }

  lemma DepositAccepted(r: Portfolio.AdjustmentRequest, b: Portfolio.Book)
    requires Portfolio.Acceptable(r) && NormalizeCash(r.delta) == 5000
    requires b.adjustments == [] && b.balances == Balances(0, 0, 0, 0)
    ensures Portfolio.Step(b, Portfolio.CashEvent(r)).balances == Balances(5000, 0, 0, 0)
    ensures Portfolio.Step(b, Portfolio.CashEvent(r)).fills == b.fills
  {
    assert Portfolio.Keys(b.adjustments) == {};
    Portfolio.NewKeyCredits(b, r, 5000);
  }

  lemma BuyStored(b: Portfolio.Book)
    requires b.balances == Balances(5000, 0, 0, 0)
    ensures Portfolio.Step(b, Portfolio.FillEvent(BUY_3000)).fills == b.fills + [BUY_3000]
  {
    Buy3000();
    ConsumeNonNegative(Cash, 0, 5000, 3000);
    assert Tolerance(Cash, 0, 5000, 3000) >= Eps(Cash) > 0.0;
  }

  lemma RunTwo(b: Portfolio.Book, e: Portfolio.Event, f: Portfolio.Event)
    ensures Portfolio.Run(b, [e, f]) == Portfolio.Step(Portfolio.Step(b, e), f)
  {
    assert [e, f][..1] == [e] && [e][..0] == [];
    assert Portfolio.Run(b, [e]) == Portfolio.Step(b, e);
  }

  /** A BUY that a deposit pays for is stored, but its replay finds no cash: there is no report. */
  lemma DepositFundedBuyHasNoReport(r: Portfolio.AdjustmentRequest, b0: Portfolio.Book, b: Portfolio.Book,
      row: FillRow, t: Tables)
    requires Portfolio.Acceptable(r) && NormalizeCash(r.delta) == 5000
    requires b0 == Portfolio.Book(Opening(0.0), [], [])
    requires b == Portfolio.Run(b0, [Portfolio.CashEvent(r), Portfolio.FillEvent(BUY_3000)])
    requires row.fill == BUY_3000 && t == Tables([row], RowsOf(b.adjustments), [], [])
    ensures b.fills == [BUY_3000] && Expected(0.0, t) == Err(NegativeCash)
  {
    HalfEvenInteger(0);
    RunTwo(b0, Portfolio.CashEvent(r), Portfolio.FillEvent(BUY_3000));
    DepositAccepted(r, b0);
    BuyStored(Portfolio.Step(b0, Portfolio.CashEvent(r)));
    Refusal3000();
    SingleReplay(Opening(0.0), row);
  }

  lemma SingleReplay(s: Balances, row: FillRow)
    ensures Replay(s, FillsOf([row])) == ApplyFill(s, row.fill)
  {
    assert FillsOf([row])[..0] == [];
  }

  lemma Refusal3000()
    ensures ApplyFill(Opening(0.0), BUY_3000) == Err(NegativeCash)
  {
    Buy3000();
    HalfEvenInteger(0);
    SmallTolerance(0, 0, 3000);
    ConsumeNonNegative(Cash, 0, 0, 3000);
  }

  // ----- What each row contributes -----

  /** No earlier row of the family has the same key. */
  ghost predicate IsFirst(rows: seq<DeltaRow>, i: nat) {
    i < |rows| && forall j :: 0 <= j < i ==> rows[j].key != rows[i].key
  }

  /** The quantised deltas of the first rows of every key, added up. */
  ghost function FirstCash(rows: seq<DeltaRow>): int {
    if rows == [] then 0 else
      FirstCash(rows[..|rows| - 1]) + if IsFirst(rows, |rows| - 1) then NormalizeCash(rows[|rows| - 1].cash) else 0
  }

  ghost function FirstAsset(rows: seq<DeltaRow>): int {
    if rows == [] then 0 else
      FirstAsset(rows[..|rows| - 1]) + if IsFirst(rows, |rows| - 1) then NormalizeAsset(rows[|rows| - 1].asset) else 0
  }

  lemma FirstIffNew(rows: seq<DeltaRow>)
    requires rows != []
    ensures IsFirst(rows, |rows| - 1) <==> rows[|rows| - 1].key !in DeltaKeys(rows[..|rows| - 1])
  {
    var init, last := rows[..|rows| - 1], rows[|rows| - 1];
    if last.key in DeltaKeys(init) {
      var j :| 0 <= j < |init| && init[j].key == last.key;
      assert rows[j].key == last.key;
    } else {
      forall j | 0 <= j < |init| ensures rows[j].key != last.key {
        assert init[j].key in DeltaKeys(init);
      }
    }
  }

  /** A family contributes the deltas of the first row of every key, with their own signs. */
  lemma {:induction false} FamilyAddsFirstRows(rows: seq<DeltaRow>)
    ensures Contribution(rows).cash == FirstCash(rows) && Contribution(rows).asset == FirstAsset(rows)
    ensures Contribution(rows).count == |DeltaKeys(rows)|
  {
    if rows != [] {
      var n := |rows| - 1;
      FamilyAddsFirstRows(rows[..n]);
      FirstIffNew(rows);
      DeltaKeysStep(rows, n);
      assert rows[..n + 1] == rows;
      if rows[n].key in DeltaKeys(rows[..n]) {
        assert DeltaKeys(rows[..n]) + {rows[n].key} == DeltaKeys(rows[..n]);
      }
    }
  }

  /** The report with one more row is the report before, plus what that row says if its key is new. */
  predicate RaisedBy(before: Result<Balances, LedgerError>, after: Result<Balances, LedgerError>, row: DeltaRow,
      known: bool) {
    match before
    case Err(e) => after == Err(e)
    case Ok(s) =>
      && after.Ok? && after.value.cashLocked == s.cashLocked && after.value.assetLocked == s.assetLocked
      && after.value.CashTotal() == s.CashTotal() + (if known then 0 else NormalizeCash(row.cash))
      && after.value.AssetTotal() == s.AssetTotal() + (if known then 0 else NormalizeAsset(row.asset))
  }

  lemma ContributionStep(rows: seq<DeltaRow>, row: DeltaRow)
    ensures
      var before, after := Contribution(rows), Contribution(rows + [row]);
      && after.cash == before.cash + (if row.key in DeltaKeys(rows) then 0 else NormalizeCash(row.cash))
      && after.asset == before.asset + (if row.key in DeltaKeys(rows) then 0 else NormalizeAsset(row.asset))
  {
    assert (rows + [row])[..|rows|] == rows;
  }

  /** The report in terms of the replayed fills and the three families. */
  predicate ReportAdds(replayed: Result<Balances, LedgerError>, r: Result<Balances, LedgerError>, cash: int,
      asset: int) {
    match replayed
    case Err(e) => r == Err(e)
    case Ok(s) => r == Ok(s.(cashAvailable := s.cashAvailable + cash, assetAvailable := s.assetAvailable + asset))
  }

  /** What the three families add to the replayed fills. */
  function CashAdded(t: Tables): int {
    Contribution(t.adjustments).cash + Contribution(t.repairs).cash + Contribution(t.positions).cash
  }

  function AssetAdded(t: Tables): int {
    Contribution(t.adjustments).asset + Contribution(t.repairs).asset + Contribution(t.positions).asset
  }

  lemma ReportSums(startCash: real, t: Tables)
    ensures ReportAdds(Replay(Opening(startCash), FillsOf(t.fills)), Expected(startCash, t), CashAdded(t),
        AssetAdded(t))
  {
  }

  lemma RaisedFrom(
    replayed: Result<Balances, LedgerError>, before: Result<Balances, LedgerError>,
        after: Result<Balances, LedgerError>,
    cash: int, asset: int, cash': int, asset': int, row: DeltaRow, known: bool)
    requires ReportAdds(replayed, before, cash, asset) && ReportAdds(replayed, after, cash', asset')
    requires cash' == cash + (if known then 0 else NormalizeCash(row.cash))
    requires asset' == asset + (if known then 0 else NormalizeAsset(row.asset))
    ensures RaisedBy(before, after, row, known)
  {
  }

  /** `t'` is `t` with one more row in one of the families, whose key is known there or not. */
  predicate OneMoreRow(t: Tables, row: DeltaRow, t': Tables, known: bool) {
    || (t' == t.(adjustments := t.adjustments + [row]) && known == (row.key in DeltaKeys(t.adjustments)))
    || (t' == t.(repairs := t.repairs + [row]) && known == (row.key in DeltaKeys(t.repairs)))
    || (t' == t.(positions := t.positions + [row]) && known == (row.key in DeltaKeys(t.positions)))
  }

  lemma AddedStep(t: Tables, row: DeltaRow, t': Tables, known: bool)
    requires OneMoreRow(t, row, t', known)
    ensures t'.fills == t.fills
    ensures CashAdded(t') == CashAdded(t) + if known then 0 else NormalizeCash(row.cash)
    ensures AssetAdded(t') == AssetAdded(t) + if known then 0 else NormalizeAsset(row.asset)
  {
    if t' == t.(adjustments := t.adjustments + [row]) && known == (row.key in DeltaKeys(t.adjustments)) {
      ContributionStep(t.adjustments, row);
    } else if t' == t.(repairs := t.repairs + [row]) && known == (row.key in DeltaKeys(t.repairs)) {
      ContributionStep(t.repairs, row);
    } else {
      ContributionStep(t.positions, row);
    }
  }

  /** In each of the three families a row with a new key raises cash and quantity of the report by its
      quantised deltas, and a row with a known key changes nothing. */
  lemma RowRaisesReport(startCash: real, t: Tables, row: DeltaRow, t': Tables, known: bool)
    requires OneMoreRow(t, row, t', known)
    ensures RaisedBy(Expected(startCash, t), Expected(startCash, t'), row, known)
  {
    ReportSums(startCash, t);
    ReportSums(startCash, t');
    AddedStep(t, row, t', known);
    RaisedFrom(Replay(Opening(startCash), FillsOf(t.fills)), Expected(startCash, t), Expected(startCash, t'),
               CashAdded(t), AssetAdded(t), CashAdded(t'), AssetAdded(t'), row, known);
  }

  /** The empty tables report the quantised start cash and nothing else. */
  lemma EmptyReport(startCash: real)
    ensures Expected(startCash, Tables([], [], [], [])) == Ok(Balances(NormalizeCash(startCash), 0, 0, 0))
  {
    assert FillsOf([]) == [] && Contribution([]) == Family(0, 0, 0);
  }

  /** Two fills count as the same exactly when order, time, price and quantity are the same. */
  lemma SameFillIff(a: FillRow, b: FillRow)
    ensures KeyOf(a) == KeyOf(b) <==>
      a.clientOrderId == b.clientOrderId && a.fillTs == b.fillTs && a.fill.price == b.fill.price
          && a.fill.qty == b.fill.qty
  {
  }

  /** The fee total is the sum of the fees that are there. */
  lemma FeeSumStep(rows: seq<FillRow>, row: FillRow)
    ensures FeeSum([]) == 0.0
    ensures FeeSum(rows + [row]) == FeeSum(rows) + match row.fill.fee case None => 0.0 case Some(x) => x
  {
    assert (rows + [row])[..|rows|] == rows;
  }
}
