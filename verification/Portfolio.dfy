/** The stored portfolio: fills and external cash adjustments applied one call at a time,
    compared with the replay that folds the fills first and the adjustments afterwards. */
module Portfolio {
  import opened Rounding
  import opened Wrappers
  import opened Ledger
  import opened Text

  datatype Adjustment = Adjustment(key: string, delta: int)

  /** The portfolio row together with the two append-only tables that explain it. */
  datatype Book = Book(balances: Balances, fills: seq<Fill>, adjustments: seq<Adjustment>)

  datatype AdjustmentRequest = AdjustmentRequest(
    currency: string, delta: real, source: string, reason: string, basis: string, key: string)

  datatype Outcome = Created | Existing | Refused

  datatype Event = FillEvent(fill: Fill) | CashEvent(request: AdjustmentRequest)

  function Keys(rows: seq<Adjustment>): set<string> {
    set i | 0 <= i < |rows| :: rows[i].key
  }

  function DeltaSum(rows: seq<Adjustment>): int {
    if rows == [] then 0 else DeltaSum(rows[..|rows| - 1]) + rows[|rows| - 1].delta
  }

  // ----- One call -----

  predicate Acceptable(r: AdjustmentRequest) {
    && Upper(Strip(r.currency)) == "KRW"
    && Strip(r.source) != [] && Strip(r.reason) != [] && Strip(r.basis) != []
  }

  function Credit(s: Balances, delta: int): Balances {
    s.(cashAvailable := s.cashAvailable + delta)
  }

  function RecordAdjustment(b: Book, r: AdjustmentRequest): (Book, Outcome) {
    var delta := NormalizeCash(r.delta);
    if !Acceptable(r) then (b, Refused)
    else if r.key in Keys(b.adjustments) then (b, Existing)
    else if b.balances.CashTotal() + delta < -1 then (b, Refused)
    else (Book(Credit(b.balances, delta), b.fills, b.adjustments + [Adjustment(r.key, delta)]), Created)
  }

  /** The live path never stores a negative component. */
  function Clamp(s: Balances): Balances {
    Balances(Max(s.cashAvailable, 0), Max(s.cashLocked, 0), Max(s.assetAvailable, 0), Max(s.assetLocked, 0))
  }

  /** An invalid fill, or one that the balances do not cover, changes nothing. */
  function LiveFill(b: Book, f: Fill): Book {
    if !Admitted(f) then b else
      match ApplyFill(b.balances, f)
      case Err(_) => b
      case Ok(t) => Book(Clamp(t), b.fills + [f], b.adjustments)
  }

  function Step(b: Book, e: Event): Book {
    match e
    case FillEvent(f) => LiveFill(b, f)
    case CashEvent(r) => RecordAdjustment(b, r).0
  }

  function Run(b: Book, events: seq<Event>): Book {
    if events == [] then b else Step(Run(b, events[..|events| - 1]), events[|events| - 1])
  }

  // ----- The stored row as an object -----

  class PortfolioStore {
    var cashKrw: int
    var assetQty: int
    var cashAvailable: int
    var cashLocked: int
    var assetAvailable: int
    var assetLocked: int
    var fills: seq<Fill>
    var adjustments: seq<Adjustment>

    /** The stored totals are the sums of the stored components. */
    ghost predicate Valid()
      reads this
    {
      cashKrw == cashAvailable + cashLocked && assetQty == assetAvailable + assetLocked
    }

    ghost function Contents(): Book
      reads this
    {
      Book(Balances(cashAvailable, cashLocked, assetAvailable, assetLocked), fills, adjustments)
    }

    constructor (start: Balances)
      ensures Valid() && Contents() == Book(start, [], [])
    {
      cashAvailable, cashLocked := start.cashAvailable, start.cashLocked;
      assetAvailable, assetLocked := start.assetAvailable, start.assetLocked;
      cashKrw, assetQty := start.CashTotal(), start.AssetTotal();
      fills, adjustments := [], [];
    }

    method SetPortfolioBreakdown(s: Balances)
      modifies `cashKrw, `assetQty, `cashAvailable, `cashLocked, `assetAvailable, `assetLocked
      ensures Valid() && Contents() == Book(s, fills, adjustments)
    {
      cashKrw, assetQty := s.CashTotal(), s.AssetTotal();
      cashAvailable, cashLocked := s.cashAvailable, s.cashLocked;
      assetAvailable, assetLocked := s.assetAvailable, s.assetLocked;
    }

    method RecordExternalCashAdjustment(r: AdjustmentRequest) returns (outcome: Outcome)
      requires Valid()
      modifies `cashKrw, `cashAvailable, `adjustments
      ensures Valid()
      ensures (Contents(), outcome) == RecordAdjustment(old(Contents()), r)
    {
      if !Acceptable(r) {
        return Refused;
      }
      var found := false;
      for i := 0 to |adjustments|
        invariant found <==> exists j :: 0 <= j < i && adjustments[j].key == r.key
        invariant unchanged(this)
      {
        found := found || adjustments[i].key == r.key;
      }
      if found {
        return Existing;
      }
      var delta := NormalizeCash(r.delta);
      var newAvailable := cashAvailable + delta;
      var newTotal := newAvailable + cashLocked;
      if newTotal < -1 {
        return Refused;
      }
      adjustments := adjustments + [Adjustment(r.key, delta)];
      cashKrw, cashAvailable := newTotal, newAvailable;
      outcome := Created;
    }

    method ApplyFillAndTrade(f: Fill) returns (applied: bool)
      requires Valid()
      modifies this
      ensures Valid()
      ensures Contents() == LiveFill(old(Contents()), f)
      ensures applied <==> Admitted(f) && ApplyFill(old(Contents()).balances, f).Ok?
    {
      if f.qty <= 0.0 || f.price <= 0.0 || (f.fee.Some? && f.fee.value < 0.0) || f.side.Other? {
        return false;
      }
      var r := ApplyFill(Balances(cashAvailable, cashLocked, assetAvailable, assetLocked), f);
      if r.Err? {
        return false;
      }
      fills := fills + [f];
      SetPortfolioBreakdown(Clamp(r.value));
      applied := true;
    }
  }

  // ----- When a call is refused -----

  /** An adjustment is refused exactly when its currency is not KRW, when source, reason or basis is blank, or
      when it is new and would take total cash below minus one quantum. */
  lemma RefusedIff(b: Book, r: AdjustmentRequest)
    ensures RecordAdjustment(b, r).1 == Refused <==>
      || Upper(Strip(r.currency)) != "KRW" || Blank(r.source) || Blank(r.reason) || Blank(r.basis)
      || (r.key !in Keys(b.adjustments) && b.balances.CashTotal() + NormalizeCash(r.delta) < -1)
    ensures RecordAdjustment(b, r).1 != Refused ==>
      (RecordAdjustment(b, r).1 == Existing <==> r.key in Keys(b.adjustments))
  {
    StripEmptyIff(r.source);
    StripEmptyIff(r.reason);
    StripEmptyIff(r.basis);
  }

  // ----- Every run -----

  ghost predicate DistinctKeys(rows: seq<Adjustment>) {
    forall i, j :: 0 <= i < j < |rows| ==> rows[i].key != rows[j].key
  }

  /** No key is recorded twice and cash is not below minus one quantum. */
  ghost predicate Sound(b: Book) {
    DistinctKeys(b.adjustments) && b.balances.CashTotal() >= -1
  }

  lemma StepKeepsDistinct(b: Book, e: Event)
    requires DistinctKeys(b.adjustments)
    ensures DistinctKeys(Step(b, e).adjustments)
  {
    var c := Step(b, e);
    if e.CashEvent? && c != b {
      forall i, j | 0 <= i < j < |c.adjustments|
        ensures c.adjustments[i].key != c.adjustments[j].key
      {
        if j == |b.adjustments| {
          assert b.adjustments[i].key in Keys(b.adjustments);
        }
      }
    }
  }

  lemma {:induction false} RunKeepsDistinct(b: Book, events: seq<Event>)
    requires DistinctKeys(b.adjustments)
    ensures DistinctKeys(Run(b, events).adjustments)
  {
    if events != [] {
      RunKeepsDistinct(b, events[..|events| - 1]);
      StepKeepsDistinct(Run(b, events[..|events| - 1]), events[|events| - 1]);
    }
  }

  lemma StepKeepsSound(b: Book, e: Event)
    requires Sound(b)
    ensures Sound(Step(b, e))
    ensures b.adjustments <= Step(b, e).adjustments && b.fills <= Step(b, e).fills
  {
    StepKeepsDistinct(b, e);
  }

  lemma {:induction false} RunKeepsSound(b: Book, events: seq<Event>)
    requires Sound(b)
    ensures Sound(Run(b, events))
    ensures b.adjustments <= Run(b, events).adjustments && b.fills <= Run(b, events).fills
  {
    if events != [] {
      RunKeepsSound(b, events[..|events| - 1]);
      StepKeepsSound(Run(b, events[..|events| - 1]), events[|events| - 1]);
    }
  }

  /** A key that is recorded stays recorded, so asking again changes nothing. */
  lemma RepeatChangesNothing(b: Book, r: AdjustmentRequest, later: seq<Event>, again: AdjustmentRequest)
    requires Sound(b) && RecordAdjustment(b, r).1 != Refused && again.key == r.key
    ensures
      var c := Run(RecordAdjustment(b, r).0, later);
      RecordAdjustment(c, again).0 == c && RecordAdjustment(c, again).1 != Created
  {
    var b1 := RecordAdjustment(b, r).0;
    StepKeepsSound(b, CashEvent(r));
    RunKeepsSound(b1, later);
    var c := Run(b1, later);
    assert r.key in Keys(b1.adjustments) by {
      if RecordAdjustment(b, r).1.Created? {
        assert b1.adjustments[|b.adjustments|].key == r.key;
      }
    }
    var i :| 0 <= i < |b1.adjustments| && b1.adjustments[i].key == r.key;
    assert c.adjustments[i].key == r.key;
  }

  predicate OnlyCash(events: seq<Event>) {
    forall i :: 0 <= i < |events| ==> events[i].CashEvent?
  }

  /** From `b` to `c` the recorded deltas, and nothing else, were added to available cash. */
  predicate Conserved(b: Book, c: Book) {
    && c.balances == Credit(b.balances, DeltaSum(c.adjustments) - DeltaSum(b.adjustments))
    && c.fills == b.fills
  }

  lemma ConservedTwice(b: Book, mid: Book, c: Book)
    requires Conserved(b, mid) && Conserved(mid, c)
    ensures Conserved(b, c)
  {
  }

  lemma CashStepConserves(b: Book, e: Event)
    requires e.CashEvent?
    ensures Conserved(b, Step(b, e))
  {
    var c := Step(b, e);
    if c != b {
      assert c.adjustments[..|c.adjustments| - 1] == b.adjustments;
    }
  }

  /** Over cash-only runs the change in total cash is the sum of the recorded deltas,
      and nothing but available cash moves. */
  lemma {:induction false} CashRunConserves(b: Book, events: seq<Event>)
    requires OnlyCash(events)
    ensures Conserved(b, Run(b, events))
  {
    if events != [] {
      var init := events[..|events| - 1];
      CashRunConserves(b, init);
      CashStepConserves(Run(b, init), events[|events| - 1]);
      ConservedTwice(b, Run(b, init), Run(b, events));
    }
  }

  // ----- Step by step against fills first -----

  predicate NonNegative(s: Balances) {
    0 <= s.cashAvailable && 0 <= s.cashLocked && 0 <= s.assetAvailable && 0 <= s.assetLocked
  }

  /** A fill that is applied is funded and leaves nothing to clamp. */
  predicate FundedStep(b: Book, e: Event) {
    e.FillEvent? && Admitted(e.fill) && ApplyFill(b.balances, e.fill).Ok? ==>
      Funded(b.balances, e.fill) && NonNegative(ApplyFill(b.balances, e.fill).value)
  }

  predicate FundedLive(b: Book, events: seq<Event>) {
    events == [] ||
    var init := events[..|events| - 1];
    FundedLive(b, init) && FundedStep(Run(b, init), events[|events| - 1])
  }

  lemma RoundedSellsAgree(x: int, y: int, p: real, delta: int, slack: int)
    requires -slack <= x - (y + delta) <= slack
    ensures
      var slack' := slack + if Tie(p) then 1 else 0;
      -slack' <= HalfEven(x as real + p) - (HalfEven(y as real + p) + delta) <= slack'
  {
    HalfEvenShift(p, x);
    HalfEvenShift(p, y);
  }

  lemma FillKeepsAgreement(s: Balances, t: Balances, f: Fill, delta: int, slack: nat)
    requires Agree(s, t, delta, slack)
    requires Funded(s, f) && Funded(t, f)
    ensures ApplyFill(s, f).Ok? && ApplyFill(t, f).Ok?
    ensures Agree(ApplyFill(s, f).value, ApplyFill(t, f).value, delta,
                  slack + if TieSell(f) then 1 else 0)
  {
    FundedFillSucceeds(s, f);
    FundedFillSucceeds(t, f);
    match f.side
    case Buy =>
      ConsumeNonNegative(Cash, s.cashLocked, s.cashAvailable, Spend(f));
      ConsumeNonNegative(Cash, t.cashLocked, t.cashAvailable, Spend(f));
    case Sell =>
      RoundedSellsAgree(s.cashAvailable, t.cashAvailable, Proceeds(f), delta, slack);
    case Other =>
  }

  /** For every interleaving of fills and cash adjustments in which no balance runs short in either
      order, the stored portfolio and the fills-first replay hold the same assets and the same locked
      cash, and their cash differs by at most one quantum per SELL that lands on a tie. */
  lemma {:induction false} LiveAgreesWithReplay(start: Balances, events: seq<Event>)
    requires FundedLive(Book(start, [], []), events)
    requires FundedRun(start, Run(Book(start, [], []), events).fills)
    ensures
      var b := Run(Book(start, [], []), events);
      && Replay(start, b.fills).Ok?
      && Agree(b.balances, Replay(start, b.fills).value, DeltaSum(b.adjustments), TieSells(b.fills))
  {
    if events != [] {
      var b0 := Book(start, [], []);
      var init := events[..|events| - 1];
      var e := events[|events| - 1];
      var mid, b := Run(b0, init), Run(b0, events);
      if e.FillEvent? && b != mid {
        assert b.fills[..|b.fills| - 1] == mid.fills;
        LiveAgreesWithReplay(start, init);
        var t := Replay(start, mid.fills).value;
        FillKeepsAgreement(mid.balances, t, e.fill, DeltaSum(mid.adjustments), TieSells(mid.fills));
      } else {
        LiveAgreesWithReplay(start, init);
        if b != mid {
          assert b.adjustments[..|b.adjustments| - 1] == mid.adjustments;
        }
      }
    }
  }

  // ----- From an unlocked start -----

  /** Every run from an unlocked start with no fills writes admitted fills only and locks nothing. */
  lemma {:induction false} RunAdmitsAndUnlocks(start: Balances, events: seq<Event>)
    requires Unlocked(start)
    ensures forall f :: f in Run(Book(start, [], []), events).fills ==> Admitted(f)
    ensures Unlocked(Run(Book(start, [], []), events).balances)
  {
    if events != [] {
      RunAdmitsAndUnlocks(start, events[..|events| - 1]);
      StepAdmitsAndUnlocks(Run(Book(start, [], []), events[..|events| - 1]), events[|events| - 1]);
    }
  }

  lemma StepAdmitsAndUnlocks(b: Book, e: Event)
    requires Unlocked(b.balances) && forall f :: f in b.fills ==> Admitted(f)
    ensures Unlocked(Step(b, e).balances) && forall f :: f in Step(b, e).fills ==> Admitted(f)
  {
    if e.FillEvent? && Admitted(e.fill) && ApplyFill(b.balances, e.fill).Ok? {
      AdmittedConsumes(e.fill);
      NoLockFromConsuming(b.balances, e.fill);
    }
  }

  /** The stored balances are the start, the effects of the fills and the recorded deltas, up to one
      quantum of cash per SELL on a tie. */
  predicate InEffect(start: Balances, b: Book) {
    && Unlocked(b.balances)
    && b.balances.assetAvailable == start.assetAvailable + AssetEffects(b.fills)
    && var exact := start.cashAvailable + CashEffects(b.fills) + DeltaSum(b.adjustments);
       0 <= b.balances.cashAvailable - exact <= TieSells(b.fills)
  }

  lemma StepInEffect(start: Balances, b: Book, e: Event)
    requires InEffect(start, b) && FundedStep(b, e)
    ensures InEffect(start, Step(b, e))
  {
    var c := Step(b, e);
    if c != b && e.FillEvent? {
      AdmittedConsumes(e.fill);
      UnlockedFill(b.balances, e.fill);
      assert c.fills[..|c.fills| - 1] == b.fills;
    } else if c != b {
      assert c.adjustments[..|c.adjustments| - 1] == b.adjustments;
    }
  }

  lemma {:induction false} RunInEffect(start: Balances, events: seq<Event>)
    requires Unlocked(start) && FundedLive(Book(start, [], []), events)
    ensures InEffect(start, Run(Book(start, [], []), events))
  {
    if events != [] {
      var init := events[..|events| - 1];
      RunInEffect(start, init);
      StepInEffect(start, Run(Book(start, [], []), init), events[|events| - 1]);
    }
  }

  // ----- Adjustments against fills -----

  /** A cash adjustment and a SELL commute exactly when the proceeds are not on a tie or the
      adjustment is an even number of quanta; otherwise the two orders are one quantum apart. */
  lemma SellCommutesIff(s: Balances, f: Fill, delta: int)
    requires f.side.Sell? && ApplyFill(s, f).Ok?
    ensures ApplyFill(Credit(s, delta), f).Ok?
    ensures
      var creditFirst := ApplyFill(Credit(s, delta), f).value;
      var fillFirst := Credit(ApplyFill(s, f).value, delta);
      && (creditFirst == fillFirst <==> !Tie(Proceeds(f)) || delta % 2 == 0)
      && -1 <= creditFirst.CashTotal() - fillFirst.CashTotal() <= 1
  {
    var x := s.cashAvailable as real + Proceeds(f);
    HalfEvenShift(x, delta);
    assert x.Floor == Proceeds(f).Floor + s.cashAvailable;
    assert (s.cashAvailable + delta) as real + Proceeds(f) == x + delta as real;
  }

  /** Ties do occur: 2e-12 of an asset at 2500. */
  lemma TieExists()
    ensures Tie(Proceeds(Fill(Sell, 2500.0, 0.000000000002, None)))
  {
    HalfEvenInteger(250000000000);
    HalfEvenInteger(2);
    HalfEvenInteger(0);
  }

  /** The guard of an adjustment looks at the total only: this one is accepted and overdraws available
      cash, after which a BUY that the total covers is refused. */
  lemma AdjustmentCanBlockFills(b: Book, r: AdjustmentRequest, f: Fill)
    requires b == Book(Balances(0, 10000, 0, 0), [], [])
    requires r == AdjustmentRequest("KRW", -0.00005, "s", "r", "b", r.key) && f == Fill(Buy, 0.00003, 1.0, None)
    ensures
      var (after, outcome) := RecordAdjustment(b, r);
      && outcome == Created && after.balances == Balances(-5000, 10000, 0, 0)
      && Spend(f) == 3000 <= after.balances.CashTotal()
      && Admitted(f) && ApplyFill(after.balances, f) == Err(NegativeCash)
  {
    assert Acceptable(r) by { SmallRequestAccepted(r.key, -0.00005); }
    assert NormalizeCash(r.delta) == -5000 by { HalfEvenInteger(-5000); }
    SmallSpend(f);
    CoveredConsumptionFails();
  }

  lemma SmallSpend(f: Fill)
    requires f == Fill(Buy, 0.00003, 1.0, None)
    ensures Spend(f) == 3000
  {
    HalfEvenInteger(3000);
    HalfEvenInteger(1000000000000);
    HalfEvenInteger(0);
  }

  lemma NewKeyCredits(b: Book, r: AdjustmentRequest, delta: int)
    requires Acceptable(r) && r.key !in Keys(b.adjustments)
    requires delta == NormalizeCash(r.delta) && b.balances.CashTotal() + delta >= -1
    ensures Step(b, CashEvent(r))
        == Book(Credit(b.balances, delta), b.fills, b.adjustments + [Adjustment(r.key, delta)])
  {
  }

  lemma SmallRequestAccepted(key: string, delta: real)
    ensures Acceptable(AdjustmentRequest("KRW", delta, "s", "r", "b", key))
  {
    StripLaw("KRW");
    StripLaw("s");
    StripLaw("r");
    StripLaw("b");
    assert Upper("KRW") == "KRW";
  }
}
