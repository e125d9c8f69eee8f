/** The portfolio arithmetic of one fill, and its replay over a list of fills. */
module Ledger {
  import opened Wrappers
  import opened Rounding
  import Picking

  datatype Unit = Cash | Asset

  datatype Side = Buy | Sell | Other

  datatype LedgerError = NegativeCash | NegativeAsset | InvalidSide

  /** One row as the fill table stores it, in whole units. */
  datatype Fill = Fill(side: Side, price: real, qty: real, fee: Option<real>)

  /** A portfolio in quanta. */
  datatype Balances = Balances(
    cashAvailable: int, cashLocked: int, assetAvailable: int, assetLocked: int)
  {
    function CashTotal(): int { cashAvailable + cashLocked }
    function AssetTotal(): int { assetAvailable + assetLocked }
  }

  // ----- Tolerance -----

  function QuantaPerUnit(u: Unit): real {
    match u
    case Cash => CASH_QUANTA_PER_UNIT
    case Asset => ASSET_QUANTA_PER_UNIT
  }

  /** 1e-12 of a whole unit, in quanta: one asset quantum, a ten-thousandth of a cash quantum. */
  function Eps(u: Unit): real {
    QuantaPerUnit(u) / 1000000000000.0
  }

  /** The largest power of two not above `x`. */
  function TopPower(x: real): (p: real)
    requires x >= 1.0
    ensures 1.0 <= p <= x < 2.0 * p
    decreases x.Floor
  {
    if x < 2.0 then 1.0 else 2.0 * TopPower(x / 2.0)
  }

  function Pow2(k: nat): real { if k == 0 then 1.0 else 2.0 * Pow2(k - 1) }

  lemma {:induction false} TopPowerIsPower(x: real)
    requires x >= 1.0
    ensures exists k: nat :: TopPower(x) == Pow2(k)
    decreases x.Floor
  {
    if x < 2.0 {
      assert Pow2(0) == 1.0;
    } else {
      TopPowerIsPower(x / 2.0);
      var k: nat :| TopPower(x / 2.0) == Pow2(k);
      assert Pow2(k + 1) == 2.0 * Pow2(k);
    }
  }

  function MaxReal(x: real, y: real): real { if x >= y then x else y }

  function AbsReal(x: int): real { if x < 0 then (-x) as real else x as real }

  function Min(x: int, y: int): int { if x <= y then x else y }

  function Max(x: int, y: int): int { if x >= y then x else y }

  const ULP_OF_ONE: real := 1.0 / 4503599627370496.0

  /** The largest operand in whole units, but at least one. */
  function Scale(u: Unit, locked: int, available: int, amount: int): (x: real)
    ensures x >= 1.0
  {
    var scale := MaxReal(AbsReal(locked), MaxReal(AbsReal(available), AbsReal(amount)));
    MaxReal(scale / QuantaPerUnit(u), 1.0)
  }

  /** Four units in the last place of the largest operand, but at least `Eps`. In quanta. */
  function Tolerance(u: Unit, locked: int, available: int, amount: int): (t: real)
    ensures t >= Eps(u)
  {
    MaxReal(Eps(u), 4.0 * ULP_OF_ONE * TopPower(Scale(u, locked, available, amount)) * QuantaPerUnit(u))
  }

  predicate AtMost(a: int, x: real) { -x <= a as real <= x }

  predicate Reaches(a: int, x: real) { a as real == x || a as real == -x }

  /** `x` quanta are the largest of the three amounts, and at least one unit. */
  predicate IsScale(unit: real, locked: int, available: int, amount: int, x: real) {
    && x >= unit && AtMost(locked, x) && AtMost(available, x) && AtMost(amount, x)
    && (x == unit || Reaches(locked, x) || Reaches(available, x) || Reaches(amount, x))
  }

  lemma ScaleIs(u: Unit, locked: int, available: int, amount: int)
    ensures IsScale(QuantaPerUnit(u), locked, available, amount, Scale(u, locked, available, amount) * QuantaPerUnit(u))
  {
  }

  /** The tolerance in cash quanta: four units in the last place of a 53-bit number of that scale, but at
      least 1e-12 of a unit. */
  lemma CashTolerance(locked: int, available: int, amount: int) returns (x: real, k: nat)
    ensures IsScale(100000000.0, locked, available, amount, x * 100000000.0) && Pow2(k) <= x < 2.0 * Pow2(k)
    ensures
      var ulps := 4.0 * Pow2(k) / 4503599627370496.0 * 100000000.0;
      Tolerance(Cash, locked, available, amount) == if ulps <= 0.0001 then 0.0001 else ulps
  {
    x := Scale(Cash, locked, available, amount);
    ScaleIs(Cash, locked, available, amount);
    TopPowerIsPower(x);
    k :| TopPower(x) == Pow2(k);
    CashUlps(locked, available, amount, Pow2(k));
  }

  lemma CashUlps(locked: int, available: int, amount: int, p: real)
    requires p == TopPower(Scale(Cash, locked, available, amount))
    ensures
      var ulps := 4.0 * p / 4503599627370496.0 * 100000000.0;
      Tolerance(Cash, locked, available, amount) == if ulps <= 0.0001 then 0.0001 else ulps
  {
  }

  lemma AssetTolerance(locked: int, available: int, amount: int) returns (x: real, k: nat)
    ensures IsScale(1000000000000.0, locked, available, amount, x * 1000000000000.0) && Pow2(k) <= x < 2.0 * Pow2(k)
    ensures
      var ulps := 4.0 * Pow2(k) / 4503599627370496.0 * 1000000000000.0;
      Tolerance(Asset, locked, available, amount) == if ulps <= 1.0 then 1.0 else ulps
  {
    x := Scale(Asset, locked, available, amount);
    ScaleIs(Asset, locked, available, amount);
    TopPowerIsPower(x);
    k :| TopPower(x) == Pow2(k);
    AssetUlps(locked, available, amount, Pow2(k));
  }

  lemma AssetUlps(locked: int, available: int, amount: int, p: real)
    requires p == TopPower(Scale(Asset, locked, available, amount))
    ensures
      var ulps := 4.0 * p / 4503599627370496.0 * 1000000000000.0;
      Tolerance(Asset, locked, available, amount) == if ulps <= 1.0 then 1.0 else ulps
  {
  }

  // ----- Consuming a balance -----

  /** A negative balance smaller than the tolerance counts as zero. */
  function Clean(value: int, tolerance: real): int {
    if -tolerance < value as real < 0.0 then 0 else value
  }

  /** What is left of (locked, available) after taking `amount`; `None` when it does not suffice. */
  function Consume(u: Unit, locked: int, available: int, amount: int): Option<(int, int)> {
    var tolerance := Tolerance(u, locked, available, amount);
    var l := Clean(locked, tolerance);
    var uncovered := amount - l;
    var a := Clean(available, tolerance) - (if uncovered as real > Eps(u) then uncovered else 0);
    if (a as real) < -tolerance then None else Some((Max(-uncovered, 0), Max(a, 0)))
  }

  /** The step-by-step consumption: locked first, then available, tiny negatives cleared at both ends. */
  method ConsumeLockedThenAvailable(u: Unit, locked: int, available: int, amount: int)
    returns (r: Option<(int, int)>)
    ensures r == Consume(u, locked, available, amount)
  {
    var tolerance := Tolerance(u, locked, available, amount);
    var remaining := amount;
    var lockedAfter := Clean(locked, tolerance);
    var availableAfter := Clean(available, tolerance);

    var fromLocked := Min(lockedAfter, remaining);
    lockedAfter := lockedAfter - fromLocked;
    remaining := remaining - fromLocked;
    if remaining as real > Eps(u) {
      availableAfter := availableAfter - remaining;
    }

    lockedAfter := Clean(lockedAfter, tolerance);
    availableAfter := Clean(availableAfter, tolerance);
    if (lockedAfter as real) < -tolerance || (availableAfter as real) < -tolerance {
      return None;
    }
    return Some((Max(lockedAfter, 0), Max(availableAfter, 0)));
  }

  /** Cleaning leaves a balance that is not negative or at least a whole tolerance below zero. */
  lemma CleanLaw(value: int, tolerance: real)
    requires tolerance > 0.0
    ensures
      var c := Clean(value, tolerance);
      && (0 <= c || c as real <= -tolerance)
      && (c as real < -tolerance <==> value as real < -tolerance)
      && 0 <= c - value && (c - value) as real < tolerance
  {
  }

  /** Available is overdrawn by more than the tolerance, or locked leaves more than `Eps` uncovered and
      the shortfall of the cleaned balances exceeds the tolerance. */
  predicate Insufficient(u: Unit, locked: int, available: int, amount: int) {
    var tolerance := Tolerance(u, locked, available, amount);
    var l, a := Clean(locked, tolerance), Clean(available, tolerance);
    || available as real < -tolerance
    || ((amount - l) as real > Eps(u) && (amount - l - a) as real > tolerance)
  }

  /** For all balances and amounts, negative ones included: it fails exactly when the balances are
      insufficient. When it succeeds both results are not negative; available is touched only once locked
      is empty; and the total of the cleaned balances drops by the amount, but for at most `Eps` that is
      kept in place and at most the tolerance that is forgiven. */
  lemma ConsumeLaw(u: Unit, locked: int, available: int, amount: int)
    ensures
      var tolerance := Tolerance(u, locked, available, amount);
      var l, a := Clean(locked, tolerance), Clean(available, tolerance);
      var uncovered := amount - l;
      var kept := if 0 < uncovered && uncovered as real <= Eps(u) then uncovered else 0;
      var forgiven := Max(Max(uncovered, 0) - kept - a, 0);
      match Consume(u, locked, available, amount)
      case None => Insufficient(u, locked, available, amount)
      case Some((locked', available')) =>
        && !Insufficient(u, locked, available, amount)
        && 0 <= locked' && 0 <= available'
        && locked' == Max(l - amount, 0)
        && (available' < a ==> locked' == 0)
        && l + a - (locked' + available') == amount - kept - forgiven
        && kept as real <= Eps(u) && forgiven as real <= tolerance
        && (forgiven > 0 ==> available' == 0)
  {
    CleanLaw(available, Tolerance(u, locked, available, amount));
  }

  /** From non-negative balances: it fails exactly when the shortfall exceeds the tolerance; and the total
      drops by the whole amount unless locked leaves at most `Eps` uncovered (kept in place) or the
      balances fall short (forgiven). */
  lemma ConsumeNonNegative(u: Unit, locked: int, available: int, amount: int)
    requires 0 <= locked && 0 <= available
    ensures
      var tolerance := Tolerance(u, locked, available, amount);
      var shortfall := amount - locked - available;
      match Consume(u, locked, available, amount)
      case None => shortfall as real > tolerance
      case Some((l, a)) =>
        && shortfall as real <= tolerance
        && 0 <= l && 0 <= a <= available
        && l == Max(locked - amount, 0)
        && (a < available ==> l == 0)
        && var retained := amount - (locked + available - (l + a));
           if 0 < amount - locked && (amount - locked) as real <= Eps(u)
           then retained == amount - locked
           else retained == Max(shortfall, 0)
  {
  }

  /** The shortfall alone decides exactly when available is not overdrawn while the total covers the
      amount, and not exactly one tolerance overdrawn while locked leaves at most `Eps` uncovered. */
  lemma ShortfallDecidesIff(u: Unit, locked: int, available: int, amount: int)
    ensures
      var tolerance := Tolerance(u, locked, available, amount);
      var l, a := Clean(locked, tolerance), Clean(available, tolerance);
      (Consume(u, locked, available, amount).None? <==> (amount - l - a) as real > tolerance) <==>
        && !(available as real < -tolerance && (amount - l - a) as real <= tolerance)
        && !(available as real == -tolerance && 0 < amount - l && (amount - l) as real <= Eps(u))
  {
    var tolerance := Tolerance(u, locked, available, amount);
    ConsumeLaw(u, locked, available, amount);
    CleanLaw(available, tolerance);
    CleanLaw(locked, tolerance);
  }

  /** It does fail with the amount covered: 10000 cash quanta locked, 5000 overdrawn, 3000 to take. */
  lemma CoveredConsumptionFails()
    ensures Consume(Cash, 10000, -5000, 3000) == None
  {
    SmallTolerance(10000, -5000, 3000);
  }

  /** Amounts of at most one unit have a tolerance below one cash quantum. */
  lemma SmallTolerance(locked: int, available: int, amount: int)
    requires -100000000 <= locked <= 100000000 && -100000000 <= available <= 100000000
    requires -100000000 <= amount <= 100000000
    ensures Tolerance(Cash, locked, available, amount) < 1.0
  {
    var scale := MaxReal(AbsReal(locked), MaxReal(AbsReal(available), AbsReal(amount)));
    assert scale / QuantaPerUnit(Cash) <= 1.0;
    assert TopPower(1.0) == 1.0;
  }

  // ----- One fill -----

  /** Price times quantity, exactly, in cash quanta. */
  function Notional(price: int, qty: int): real {
    (price as real) * (qty as real) / ASSET_QUANTA_PER_UNIT
  }

  function FillNotional(f: Fill): real { Notional(NormalizeCash(f.price), FillQty(f)) }

  function FillQty(f: Fill): int { NormalizeAsset(f.qty) }

  function FillFee(f: Fill): int { NormalizeCash(if f.fee.Some? then f.fee.value else 0.0) }

  /** What a BUY takes from cash: notional plus fee, rounded on its own. */
  function Spend(f: Fill): int { HalfEven(FillNotional(f) + FillFee(f) as real) }

  /** A SELL rounds only after adding the proceeds to the available balance. */
  function Proceeds(f: Fill): real { FillNotional(f) - FillFee(f) as real }

  function ApplyFill(s: Balances, f: Fill): Result<Balances, LedgerError> {
    match f.side
    case Buy => (
      match Consume(Cash, s.cashLocked, s.cashAvailable, Spend(f))
      case None => Err(NegativeCash)
      case Some((l, a)) => Ok(Balances(a, l, s.assetAvailable + FillQty(f), s.assetLocked)))
    case Sell => (
      match Consume(Asset, s.assetLocked, s.assetAvailable, FillQty(f))
      case None => Err(NegativeAsset)
      case Some((l, a)) => Ok(Balances(HalfEven(s.cashAvailable as real + Proceeds(f)), s.cashLocked, a, l)))
    case Other => Err(InvalidSide)
  }

  /** A balance overdrawn by more than the tolerance blocks every fill that draws on it, however much
      is locked and however little the fill takes. */
  lemma OverdrawnBlocks(s: Balances, f: Fill)
    ensures f.side.Buy? && s.cashAvailable as real < -Tolerance(Cash, s.cashLocked, s.cashAvailable, Spend(f)) ==>
              ApplyFill(s, f) == Err(NegativeCash)
    ensures f.side.Sell? && s.assetAvailable as real < -Tolerance(Asset, s.assetLocked, s.assetAvailable,
        FillQty(f)) ==>
              ApplyFill(s, f) == Err(NegativeAsset)
  {
    ConsumeLaw(Cash, s.cashLocked, s.cashAvailable, Spend(f));
    ConsumeLaw(Asset, s.assetLocked, s.assetAvailable, FillQty(f));
  }

  // ----- Replay -----

  function Replay(s: Balances, rows: seq<Fill>): Result<Balances, LedgerError> {
    if rows == [] then Ok(s) else
      match Replay(s, rows[..|rows| - 1])
      case Err(e) => Err(e)
      case Ok(t) => ApplyFill(t, rows[|rows| - 1])
  }

  method ReplayFills(s: Balances, rows: seq<Fill>) returns (r: Result<Balances, LedgerError>)
    ensures r == Replay(s, rows)
  {
    r := Ok(s);
    for i := 0 to |rows|
      invariant r == Replay(s, rows[..i])
      invariant r.Ok?
    {
      assert rows[..i + 1][..i] == rows[..i];
      r := ApplyFill(r.value, rows[i]);
      if r.Err? {
        ReplayComposes(s, rows[..i + 1], rows[i + 1..]);
        assert rows[..i + 1] + rows[i + 1..] == rows;
        return;
      }
    }
    assert rows[..|rows|] == rows;
  }

  /** Replaying `ys` from the checkpoint that `xs` reaches is replaying `xs + ys`. */
  lemma {:induction false} ReplayComposes(s: Balances, xs: seq<Fill>, ys: seq<Fill>)
    ensures Replay(s, xs + ys) ==
            match Replay(s, xs) case Err(e) => Err(e) case Ok(t) => Replay(t, ys)
  {
    if ys == [] {
      assert xs + ys == xs;
    } else {
      var init := ys[..|ys| - 1];
      ReplayComposes(s, xs, init);
      assert (xs + ys)[..|xs + ys| - 1] == xs + init;
    }
  }

  /** The balances that the fill draws on do not suffice, or it has no side. */
  predicate Short(s: Balances, f: Fill) {
    match f.side
    case Buy => Insufficient(Cash, s.cashLocked, s.cashAvailable, Spend(f))
    case Sell => Insufficient(Asset, s.assetLocked, s.assetAvailable, FillQty(f))
    case Other => true
  }

  lemma FillFailsIff(s: Balances, f: Fill)
    ensures ApplyFill(s, f).Err? <==> Short(s, f)
    ensures ApplyFill(s, f).Err? ==>
      ApplyFill(s, f).error
          == match f.side case Buy => NegativeCash case Sell => NegativeAsset case Other => InvalidSide
  {
    match f.side
    case Buy => ConsumeLaw(Cash, s.cashLocked, s.cashAvailable, Spend(f));
    case Sell => ConsumeLaw(Asset, s.assetLocked, s.assetAvailable, FillQty(f));
    case Other =>
  }

  /** The fill at `k` finds enough in what the fills before it leave, if they leave anything. */
  predicate EnoughAt(s: Balances, rows: seq<Fill>, k: nat)
    requires k < |rows|
  {
    Replay(s, rows[..k]).Ok? ==> !Short(Replay(s, rows[..k]).value, rows[k])
  }

  /** A replay succeeds exactly when every fill finds enough in what the fills before it leave. */
  lemma {:induction false} ReplayOkIff(s: Balances, rows: seq<Fill>)
    ensures Replay(s, rows).Ok? <==> forall k :: 0 <= k < |rows| ==> EnoughAt(s, rows, k)
  {
    if rows != [] {
      var n := |rows| - 1;
      var init := rows[..n];
      ReplayOkIff(s, init);
      forall k | 0 <= k < n ensures EnoughAt(s, init, k) <==> EnoughAt(s, rows, k) {
        assert init[..k] == rows[..k];
      }
      assert EnoughAt(s, rows, n) <==> (Replay(s, init).Ok? ==> !Short(Replay(s, init).value, rows[n]));
      if Replay(s, init).Ok? {
        FillFailsIff(Replay(s, init).value, rows[n]);
      }
    }
  }

  // ----- Fills that the runtime writes -----

  /** What the live call demands of a fill before it touches any table. */
  predicate Admitted(f: Fill) {
    f.qty > 0.0 && f.price > 0.0 && (f.fee.Some? ==> f.fee.value >= 0.0) && !f.side.Other?
  }

  // ----- Drift from exact arithmetic -----

  /** The side that the fill draws on holds non-negative balances that cover it. */
  predicate Funded(s: Balances, f: Fill) {
    match f.side
    case Buy => 0 <= s.cashLocked && 0 <= s.cashAvailable && Spend(f) <= s.CashTotal()
    case Sell => 0 <= s.assetLocked && 0 <= s.assetAvailable && FillQty(f) <= s.AssetTotal()
    case Other => false
  }

  predicate FundedRun(s: Balances, rows: seq<Fill>) {
    rows == [] ||
    var init := rows[..|rows| - 1];
    && FundedRun(s, init)
    && Replay(s, init).Ok?
    && Funded(Replay(s, init).value, rows[|rows| - 1])
  }

  /** What one row does to cash without any rounding, in cash quanta: a SELL brings price times quantity less
      the fee, a BUY costs price times quantity and the fee. */
  function RowCash(f: Fill): real {
    var price, qty := NormalizeCash(f.price) as real, NormalizeAsset(f.qty) as real;
    var fee := NormalizeCash(match f.fee case None => 0.0 case Some(x) => x) as real;
    match f.side
    case Buy => -(price * qty / 1000000000000.0) - fee
    case Sell => price * qty / 1000000000000.0 - fee
    case Other => 0.0
  }

  /** What one row does to the assets, in asset quanta. */
  function RowAsset(f: Fill): int {
    match f.side
    case Buy => NormalizeAsset(f.qty)
    case Sell => -NormalizeAsset(f.qty)
    case Other => 0
  }

  function ExactCash(rows: seq<Fill>): real {
    if rows == [] then 0.0 else ExactCash(rows[..|rows| - 1]) + RowCash(rows[|rows| - 1])
  }

  function ExactAsset(rows: seq<Fill>): int {
    if rows == [] then 0 else ExactAsset(rows[..|rows| - 1]) + RowAsset(rows[|rows| - 1])
  }

  function SellCount(rows: seq<Fill>): nat {
    if rows == [] then 0 else
      SellCount(rows[..|rows| - 1]) + if rows[|rows| - 1].side.Sell? then 1 else 0
  }

  lemma FundedFillSucceeds(s: Balances, f: Fill)
    requires Funded(s, f)
    ensures ApplyFill(s, f).Ok?
    ensures
      var t := ApplyFill(s, f).value;
      match f.side
      case Buy =>
        && t.CashTotal() == s.CashTotal() - Spend(f)
        && t.AssetTotal() == s.AssetTotal() + FillQty(f)
        && t.assetLocked == s.assetLocked && 0 <= t.cashAvailable && 0 <= t.cashLocked
      case Sell =>
        && t.cashLocked == s.cashLocked
        && 0 <= t.AssetTotal() - (s.AssetTotal() - FillQty(f)) <= 1
        && 0 <= t.assetAvailable && 0 <= t.assetLocked
      case Other => false
  {
    match f.side
    case Buy => ConsumeNonNegative(Cash, s.cashLocked, s.cashAvailable, Spend(f));
    case Sell => ConsumeNonNegative(Asset, s.assetLocked, s.assetAvailable, FillQty(f));
    case Other =>
  }

  /** One funded fill moves cash by what its row says to within half a quantum, and the assets by what it
      says but for one quantum that a SELL may keep. */
  lemma FillDrift(s: Balances, f: Fill)
    requires Funded(s, f)
    ensures ApplyFill(s, f).Ok?
    ensures
      var t := ApplyFill(s, f).value;
      && -0.5 <= t.CashTotal() as real - (s.CashTotal() as real + RowCash(f)) <= 0.5
      && 0 <= t.AssetTotal() - (s.AssetTotal() + RowAsset(f)) <= if f.side.Sell? then 1 else 0
  {
    FundedFillSucceeds(s, f);
    RowFigures(f);
  }

  lemma RowFigures(f: Fill)
    ensures f.side.Buy? ==> RowCash(f) == -(FillNotional(f) + FillFee(f) as real)
    ensures f.side.Sell? ==> RowCash(f) == Proceeds(f)
  {
  }

  /** After any funded run of n fills the cash is within n half-quanta of exact arithmetic, and the
      assets exceed it by at most one quantum per SELL. The run never fails. */
  lemma {:induction false} ReplayDrift(s: Balances, rows: seq<Fill>)
    requires FundedRun(s, rows)
    ensures Replay(s, rows).Ok?
    ensures
      var t := Replay(s, rows).value;
      && -0.5 * |rows| as real
         <= t.CashTotal() as real - (s.CashTotal() as real + ExactCash(rows))
         <= 0.5 * |rows| as real
      && 0 <= t.AssetTotal() - (s.AssetTotal() + ExactAsset(rows)) <= SellCount(rows)
  {
    if rows != [] {
      var init := rows[..|rows| - 1];
      var f := rows[|rows| - 1];
      ReplayDrift(s, init);
      FillDrift(Replay(s, init).value, f);
    }
  }

  // ----- When locked balances stay at zero -----

  /** The amounts a fill takes are not negative. */
  predicate Consuming(f: Fill) {
    match f.side
    case Buy => 0 <= Spend(f)
    case Sell => 0 <= FillQty(f)
    case Other => true
  }

  predicate LockedStaysZero(s: Balances, rows: seq<Fill>) {
    forall k :: 0 <= k <= |rows| ==> UnlockedAfter(s, rows, k)
  }

  predicate UnlockedAfter(s: Balances, rows: seq<Fill>, k: nat)
    requires k <= |rows|
  {
    var r := Replay(s, rows[..k]);
    r.Ok? ==> r.value.cashLocked == 0 && r.value.assetLocked == 0
  }

  lemma NoLockFromConsuming(s: Balances, f: Fill)
    requires s.cashLocked == 0 && s.assetLocked == 0
    requires ApplyFill(s, f).Ok?
    ensures Consuming(f) <==>
            ApplyFill(s, f).value.cashLocked == 0 && ApplyFill(s, f).value.assetLocked == 0
  {
  }

  lemma LockedLast(s: Balances, rows: seq<Fill>)
    requires rows != [] && Replay(s, rows).Ok?
    ensures LockedStaysZero(s, rows) <==>
            && LockedStaysZero(s, rows[..|rows| - 1])
            && Replay(s, rows).value.cashLocked == 0 && Replay(s, rows).value.assetLocked == 0
  {
    var init := rows[..|rows| - 1];
    assert rows[..|rows|] == rows;
    forall k | 0 <= k <= |init| ensures UnlockedAfter(s, init, k) <==> UnlockedAfter(s, rows, k) {
      assert init[..k] == rows[..k];
    }
    assert UnlockedAfter(s, rows, |rows|) <==>
           Replay(s, rows).value.cashLocked == 0 && Replay(s, rows).value.assetLocked == 0;
  }

  /** A replay from unlocked balances keeps both locked balances at zero throughout exactly when no
      BUY has a negative rounded spend and no SELL a negative quantity. */
  lemma {:induction false} LockedZeroIff(s: Balances, rows: seq<Fill>)
    requires s.cashLocked == 0 && s.assetLocked == 0
    requires Replay(s, rows).Ok?
    ensures LockedStaysZero(s, rows) <==> forall f :: f in rows ==> Consuming(f)
  {
    if rows == [] {
      assert rows[..0] == [];
    } else {
      var init := rows[..|rows| - 1];
      LockedZeroIff(s, init);
      LockedLast(s, rows);
      ConsumingLast(rows);
      if LockedStaysZero(s, init) {
        assert UnlockedAfter(s, init, |init|) && init[..|init|] == init;
        NoLockFromConsuming(Replay(s, init).value, rows[|rows| - 1]);
      }
    }
  }

  lemma ConsumingLast(rows: seq<Fill>)
    requires rows != []
    ensures (forall f :: f in rows ==> Consuming(f)) <==>
            (forall f :: f in rows[..|rows| - 1] ==> Consuming(f)) && Consuming(rows[|rows| - 1])
  {
    assert rows == rows[..|rows| - 1] + [rows[|rows| - 1]];
  }

  /** It does fail for a table with a negative quantity: selling minus one unit locks one. */
  lemma NegativeQtyLocks()
    ensures
      var f := Fill(Sell, 1.0, -1.0, None);
      && !Consuming(f) && Replay(Balances(0, 0, 0, 0), [f]).Ok?
      && Replay(Balances(0, 0, 0, 0), [f]).value.assetLocked == 1000000000000
  {
    HalfEvenInteger(-1000000000000);
    HalfEvenInteger(100000000);
    HalfEvenInteger(0);
    assert [Fill(Sell, 1.0, -1.0, None)][..0] == [];
  }

  lemma NotNegative(price: int, qty: int)
    requires 0 <= price && 0 <= qty
    ensures 0.0 <= Notional(price, qty)
  {
    assert 0 <= price * qty;
    assert (price * qty) as real == (price as real) * (qty as real);
  }

  /** No admitted fill takes a negative amount. */
  lemma AdmittedConsumes(f: Fill)
    requires Admitted(f)
    ensures Consuming(f)
  {
    assert f.price * CASH_QUANTA_PER_UNIT > 0.0 && f.qty * ASSET_QUANTA_PER_UNIT > 0.0;
    assert 0 <= NormalizeCash(f.price) && 0 <= FillQty(f);
    assert f.fee.Some? ==> f.fee.value * CASH_QUANTA_PER_UNIT >= 0.0;
    assert 0 <= FillFee(f);
    NotNegative(NormalizeCash(f.price), FillQty(f));
  }

  // ----- The order of fills -----

  /** SELL fills whose proceeds fall exactly between two cash quanta. */
  predicate TieSell(f: Fill) { f.side.Sell? && Tie(Proceeds(f)) }

  function TieSells(rows: seq<Fill>): nat {
    if rows == [] then 0 else TieSells(rows[..|rows| - 1]) + if TieSell(rows[|rows| - 1]) then 1 else 0
  }

  /** The whole quanta that a fill moves from or to available cash, a tie rounded down. */
  function CashEffect(f: Fill): int {
    match f.side
    case Buy => -Spend(f)
    case Sell => if Tie(Proceeds(f)) then Proceeds(f).Floor else HalfEven(Proceeds(f))
    case Other => 0
  }

  /** A SELL of at most one quantum leaves the assets in place. */
  function AssetEffect(f: Fill): int {
    match f.side
    case Buy => FillQty(f)
    case Sell => if FillQty(f) <= 1 then 0 else -FillQty(f)
    case Other => 0
  }

  function CashEffects(rows: seq<Fill>): int {
    if rows == [] then 0 else CashEffects(rows[..|rows| - 1]) + CashEffect(rows[|rows| - 1])
  }

  function AssetEffects(rows: seq<Fill>): int {
    if rows == [] then 0 else AssetEffects(rows[..|rows| - 1]) + AssetEffect(rows[|rows| - 1])
  }

  /** The balances `s` and `t` agree but for `delta` of adjustments and at most `slack` quanta of
      available cash. */
  predicate Agree(s: Balances, t: Balances, delta: int, slack: int) {
    && s.assetAvailable == t.assetAvailable && s.assetLocked == t.assetLocked
    && s.cashLocked == t.cashLocked
    && -slack <= s.cashAvailable - (t.cashAvailable + delta) <= slack
  }

  predicate Unlocked(s: Balances) { s.cashLocked == 0 && s.assetLocked == 0 }

  /** From unlocked balances a fill has its effect, and one more quantum of cash at most on a tie. */
  lemma UnlockedFill(s: Balances, f: Fill)
    requires Unlocked(s) && Funded(s, f) && Consuming(f)
    ensures ApplyFill(s, f).Ok?
    ensures
      var t := ApplyFill(s, f).value;
      && Unlocked(t) && t.assetAvailable == s.assetAvailable + AssetEffect(f)
      && 0 <= t.cashAvailable - (s.cashAvailable + CashEffect(f)) <= if TieSell(f) then 1 else 0
  {
    match f.side
    case Buy => ConsumeNonNegative(Cash, 0, s.cashAvailable, Spend(f));
    case Sell =>
      ConsumeNonNegative(Asset, 0, s.assetAvailable, FillQty(f));
      HalfEvenShift(Proceeds(f), s.cashAvailable);
    case Other =>
  }

  /** After a funded replay from unlocked balances every fill has had its effect. */
  lemma {:induction false} UnlockedReplay(s: Balances, rows: seq<Fill>)
    requires Unlocked(s) && FundedRun(s, rows) && forall f :: f in rows ==> Consuming(f)
    ensures Replay(s, rows).Ok?
    ensures
      var t := Replay(s, rows).value;
      && Unlocked(t) && t.assetAvailable == s.assetAvailable + AssetEffects(rows)
      && 0 <= t.cashAvailable - (s.cashAvailable + CashEffects(rows)) <= TieSells(rows)
  {
    if rows != [] {
      var init, f := rows[..|rows| - 1], rows[|rows| - 1];
      ConsumingLast(rows);
      UnlockedReplay(s, init);
      UnlockedFill(Replay(s, init).value, f);
    }
  }

  lemma {:induction false} EffectsConcat(xs: seq<Fill>, ys: seq<Fill>)
    ensures CashEffects(xs + ys) == CashEffects(xs) + CashEffects(ys)
    ensures AssetEffects(xs + ys) == AssetEffects(xs) + AssetEffects(ys)
    ensures TieSells(xs + ys) == TieSells(xs) + TieSells(ys)
  {
    if ys == [] {
      assert xs + ys == xs;
    } else {
      EffectsConcat(xs, ys[..|ys| - 1]);
      assert (xs + ys)[..|xs + ys| - 1] == xs + ys[..|ys| - 1];
    }
  }

  lemma EffectsSingle(f: Fill)
    ensures CashEffects([f]) == CashEffect(f) && AssetEffects([f]) == AssetEffect(f)
    ensures TieSells([f]) == if TieSell(f) then 1 else 0
  {
    assert [f][..0] == [];
  }

  lemma EffectsAround(head: seq<Fill>, f: Fill, tail: seq<Fill>)
    ensures CashEffects(head + [f] + tail) == CashEffects(head + tail) + CashEffect(f)
    ensures AssetEffects(head + [f] + tail) == AssetEffects(head + tail) + AssetEffect(f)
    ensures TieSells(head + [f] + tail) == TieSells(head + tail) + if TieSell(f) then 1 else 0
  {
    EffectsConcat(head + [f], tail);
    EffectsConcat(head, [f]);
    EffectsConcat(head, tail);
    EffectsSingle(f);
  }

  /** The effects of a list do not depend on its order. */
  lemma {:induction false} EffectsOrderFree(xs: seq<Fill>, ys: seq<Fill>)
    requires multiset(xs) == multiset(ys)
    ensures CashEffects(xs) == CashEffects(ys) && AssetEffects(xs) == AssetEffects(ys) && TieSells(xs) == TieSells(ys)
    decreases |xs|
  {
    Picking.SameLength(xs, ys);
    if xs != [] {
      var head, tail := Picking.FindLast(xs, ys);
      EffectsOrderFree(xs[..|xs| - 1], head + tail);
      EffectsAround(head, xs[|xs| - 1], tail);
    }
  }

  lemma AllConsume(xs: seq<Fill>, ys: seq<Fill>)
    requires multiset(xs) == multiset(ys) && forall f :: f in xs ==> Admitted(f)
    ensures forall f :: f in xs ==> Consuming(f)
    ensures forall f :: f in ys ==> Admitted(f) && Consuming(f)
  {
    forall f | f in ys ensures Admitted(f) {
      assert f in multiset(ys);
    }
    forall f | f in xs || f in ys ensures Consuming(f) {
      AdmittedConsumes(f);
    }
  }

  /** Any two funded orders of the same admitted fills, from unlocked balances, end with the same assets,
      and with cash that differs by at most one quantum per SELL on a tie. */
  lemma ReplayOrderFree(s: Balances, xs: seq<Fill>, ys: seq<Fill>)
    requires Unlocked(s) && multiset(xs) == multiset(ys) && (forall f :: f in xs ==> Admitted(f))
    requires FundedRun(s, xs) && FundedRun(s, ys)
    ensures Replay(s, xs).Ok? && Replay(s, ys).Ok?
    ensures Agree(Replay(s, xs).value, Replay(s, ys).value, 0, TieSells(xs))
  {
    AllConsume(xs, ys);
    UnlockedReplay(s, xs);
    UnlockedReplay(s, ys);
    EffectsOrderFree(xs, ys);
  }
}
