/** The fee-pending repair proposal for one order, and what recording it does to the next proposal. */
module FeeRepair {
  import opened Wrappers
  import opened Rounding
  import opened Text

  /** 0.01 of the currency, in cash quanta. */
  const ROUNDING_TOLERANCE := 1000000

  /** One observation of the order, oldest first, with what its evidence says about the order. */
  datatype Evidence = Evidence(
    fillId: Option<string>, complete: bool, fee: Option<real>, price: real, qty: real,
    completeFillSet: bool, allocatedSumMatches: bool, paidFee: Option<real>)

  datatype Repair = Repair(clientOrderId: string, fillId: string, fee: int)

  datatype Blocker =
    | PendingFillCount | AllocationUnavailable | FillSetMissing | PaidFeeMissing | ProposedFeeNotPositive
    | MismatchesPaidFee | NotionalInvalid | OutsideFeeRate | DuplicateRepair | UnresolvedOrders

  datatype Proposal = Proposal(
    observedFees: int, paidFee: Option<real>, proposedFee: Option<int>, pending: seq<string>,
    affectedFillId: Option<string>, blockers: seq<Blocker>, safe: bool)

  // ----- Reading the evidence -----

  function ObservedFeeSum(related: seq<Evidence>): real {
    if related == [] then 0.0 else
      var fee := related[|related| - 1].fee;
      ObservedFeeSum(related[..|related| - 1]) + if fee.Some? then fee.value else 0.0
  }

  function Pending(related: seq<Evidence>): seq<string> {
    if related == [] then [] else
      var e := related[|related| - 1];
      var before := Pending(related[..|related| - 1]);
      if e.fillId.Some? && Strip(e.fillId.value) != "" && !e.complete then before + [e.fillId.value] else before
  }

  /** The earliest paid fee that any evidence carries. */
  function PaidFee(related: seq<Evidence>): Option<real> {
    if related == [] then None else
      var before := PaidFee(related[..|related| - 1]);
      if before.Some? then before else related[|related| - 1].paidFee
  }

  predicate FillSetComplete(related: seq<Evidence>) {
    exists i :: 0 <= i < |related| && related[i].completeFillSet
  }

  predicate AllocationMatches(related: seq<Evidence>) {
    exists i :: 0 <= i < |related| && related[i].allocatedSumMatches
  }

  lemma OneMoreRow(related: seq<Evidence>, i: nat)
    requires i < |related|
    ensures related[..i + 1][..i] == related[..i]
    ensures FillSetComplete(related[..i + 1]) <==> FillSetComplete(related[..i]) || related[i].completeFillSet
    ensures AllocationMatches(related[..i + 1]) <==> AllocationMatches(related[..i]) || related[i].allocatedSumMatches
  {
    var now, before := related[..i + 1], related[..i];
    assert now[i] == related[i] && forall j :: 0 <= j < i ==> now[j] == before[j];
  }

  /** One pass over the order's observations. */
  method ReadEvidence(related: seq<Evidence>)
    returns (feeSum: real, pending: seq<string>, paid: Option<real>, complete: bool, sumMatches: bool)
    ensures feeSum == ObservedFeeSum(related) && pending == Pending(related) && paid == PaidFee(related)
    ensures complete == FillSetComplete(related) && sumMatches == AllocationMatches(related)
  {
    feeSum, pending, paid, complete, sumMatches := 0.0, [], None, false, false;
    for i := 0 to |related|
      invariant feeSum == ObservedFeeSum(related[..i]) && pending == Pending(related[..i])
          && paid == PaidFee(related[..i])
      invariant complete == FillSetComplete(related[..i]) && sumMatches == AllocationMatches(related[..i])
    {
      var e := related[i];
      OneMoreRow(related, i);
      if e.fee.Some? {
        feeSum := feeSum + e.fee.value;
      }
      if e.fillId.Some? && Strip(e.fillId.value) != "" && !e.complete {
        pending := pending + [e.fillId.value];
      }
      complete := complete || e.completeFillSet;
      sumMatches := sumMatches || e.allocatedSumMatches;
      if paid.None? {
        paid := e.paidFee;
      }
    }
    assert related[..|related|] == related;
  }

  /** The paid fee less the observed fees, requantised. */
  function FeeDelta(paid: real, observed: int): int {
    HalfEven(paid * CASH_QUANTA_PER_UNIT - observed as real)
  }

  function AbsInt(x: int): nat { if x < 0 then -x else x }

  /** The first observation that carries the affected fill id. */
  function PendingRow(related: seq<Evidence>, fillId: string): Option<Evidence> {
    if related == [] then None
    else if related[0].fillId == Some(fillId) then Some(related[0])
    else PendingRow(related[1..], fillId)
  }

  predicate DuplicateExists(repairs: seq<Repair>, clientOrderId: string, fillId: string, fee: int) {
    exists i :: 0 <= i < |repairs| && repairs[i].clientOrderId == clientOrderId && repairs[i].fillId == fillId
                && AbsInt(repairs[i].fee - fee) <= ROUNDING_TOLERANCE
  }

  function FillBlockers(pending: seq<string>, deterministic: bool, complete: bool, paid: Option<real>,
      proposed: Option<int>)
    : seq<Blocker>
  {
    When(|pending| != 1, PendingFillCount)
    + When(!deterministic, AllocationUnavailable)
    + When(!complete, FillSetMissing)
    + When(paid.None?, PaidFeeMissing)
    + When(proposed.None? || proposed.value <= 0, ProposedFeeNotPositive)
  }

  /** The proposed fee is checked against the paid one. */
  function PaidBlockers(paid: Option<real>, observed: int, proposed: Option<int>): seq<Blocker> {
    When(paid.Some? && proposed.Some?
        && AbsInt(observed + proposed.value - NormalizeCash(paid.value)) > ROUNDING_TOLERANCE,
         MismatchesPaidFee)
  }

  /** What the estimated rate gives for the fill. */
  function ExpectedFee(row: Evidence, feeRate: real): int { NormalizeCash(row.price * row.qty * feeRate) }

  /** Within a quarter of the expected fee, or one cent. */
  predicate NearRate(fee: int, expected: int) {
    var quarter := expected as real * 0.25;
    var tolerance := if quarter > ROUNDING_TOLERANCE as real then quarter else ROUNDING_TOLERANCE as real;
    -tolerance <= fee as real - expected as real <= tolerance
  }

  predicate WithinRate(row: Evidence, fee: int, feeRate: real) { NearRate(fee, ExpectedFee(row, feeRate)) }

  function RateBlockers(row: Option<Evidence>, proposed: Option<int>, feeRate: real): seq<Blocker> {
    if row.None? || proposed.None? then []
    else if row.value.price * row.value.qty <= 0.0 then [NotionalInvalid]
    else When(!WithinRate(row.value, proposed.value, feeRate), OutsideFeeRate)
  }

  function Blockers(
    pending: seq<string>, deterministic: bool, complete: bool, paid: Option<real>, observed: int, proposed: Option<int>,
    row: Option<Evidence>, feeRate: real, duplicate: bool, unresolved: bool): seq<Blocker>
  {
    FillBlockers(pending, deterministic, complete, paid, proposed)
    + PaidBlockers(paid, observed, proposed)
    + RateBlockers(row, proposed, feeRate)
    + When(duplicate, DuplicateRepair)
    + When(unresolved, UnresolvedOrders)
  }

  function Propose(
    clientOrderId: string, related: seq<Evidence>, repairs: seq<Repair>, unresolved: bool, feeRate: real): Proposal
  {
    var observed := NormalizeCash(ObservedFeeSum(related));
    var paid := PaidFee(related);
    var pending := Pending(related);
    var proposed := if paid.Some? then Some(FeeDelta(paid.value, observed)) else None;
    var affected := if |pending| == 1 then Some(pending[0]) else None;
    var complete := FillSetComplete(related);
    var deterministic := pending != [] && paid.Some? && complete
                         && (AllocationMatches(related) || proposed.value != 0);
    var row := if affected.Some? then PendingRow(related, affected.value) else None;
    var duplicate := affected.Some? && proposed.Some?
                     && DuplicateExists(repairs, clientOrderId, affected.value, proposed.value);
    var blockers := Blockers(pending, deterministic, complete, paid, observed, proposed, row, feeRate, duplicate,
        unresolved);
    Proposal(observed, paid, proposed, pending, affected, blockers, pending != [] && blockers == [])
  }

  // ----- The proposed fee reconciles -----

  /** Observed plus proposed fees are within one quantum of the paid fee, and equal to it unless the
      paid fee lies on a tie and the observed fees are an odd number of quanta. */
  lemma FeeReconciles(paid: real, observed: int)
    ensures AbsInt(observed + FeeDelta(paid, observed) - NormalizeCash(paid)) <= 1
    ensures observed + FeeDelta(paid, observed) == NormalizeCash(paid) <==>
            !Tie(paid * CASH_QUANTA_PER_UNIT) || observed % 2 == 0
  {
    var x := paid * CASH_QUANTA_PER_UNIT;
    HalfEvenShift(x, -observed);
    assert x + (-observed) as real == x - observed as real;
  }

  /** So, for every observation history, the check of proposed against paid fees never fires. */
  lemma MismatchNeverFires(
    clientOrderId: string, related: seq<Evidence>, repairs: seq<Repair>, unresolved: bool, feeRate: real)
    ensures MismatchesPaidFee !in Propose(clientOrderId, related, repairs, unresolved, feeRate).blockers
  {
    var observed := NormalizeCash(ObservedFeeSum(related));
    var paid := PaidFee(related);
    PaidNeverBlocks(paid, observed);
  }

  lemma PaidNeverBlocks(paid: Option<real>, observed: int)
    ensures PaidBlockers(paid, observed, if paid.Some? then Some(FeeDelta(paid.value, observed)) else None) == []
  {
    if paid.Some? {
      FeeReconciles(paid.value, observed);
    }
  }

  // ----- Recording the proposed repair -----

  /** A fee may be printed with two decimals as `printed`: whole cents, and none nearer. The binary value
      of the fee decides to which side a tie goes. */
  predicate PrintsAs(fee: int, printed: int) {
    printed % 1000000 == 0 && AbsInt(printed - fee) <= 500000
  }

  /** Records a repair unless the same one is already there. */
  function Record(repairs: seq<Repair>, r: Repair): seq<Repair> {
    if r in repairs then repairs else repairs + [r]
  }

  lemma PrintsSome(fee: int) returns (printed: int)
    ensures PrintsAs(fee, printed)
  {
    var cents := fee / 1000000;
    printed := if fee % 1000000 <= 500000 then cents * 1000000 else (cents + 1) * 1000000;
  }

  lemma PrintsTwice(fee: int, p: int, q: int)
    requires PrintsAs(fee, p) && PrintsAs(fee, q) && p < q
    ensures fee % 1000000 == 500000
  {
    var low := p / 1000000;
    assert p == low * 1000000 && q == q / 1000000 * 1000000;
    assert fee == low * 1000000 + 500000;
  }

  /** Every fee prints, in one way only unless it ends on half a cent. */
  lemma PrintsOnce(fee: int)
    ensures exists printed :: PrintsAs(fee, printed)
    ensures fee % 1000000 != 500000 ==>
      forall p, q :: PrintsAs(fee, p) && PrintsAs(fee, q) ==> p == q
  {
    var printed := PrintsSome(fee);
    forall p, q | PrintsAs(fee, p) && PrintsAs(fee, q) && p != q ensures fee % 1000000 == 500000 {
      PrintsTwice(fee, if p < q then p else q, if p < q then q else p);
    }
  }

  /** A positive fee prints as zero below half a cent, and not above. */
  lemma PrintedFeePositive(fee: int, printed: int)
    requires fee > 0 && PrintsAs(fee, printed)
    ensures 0 <= printed
    ensures fee < 500000 ==> printed == 0
    ensures fee > 500000 ==> printed > 0
  {
    assert printed == printed / 1000000 * 1000000;
  }

  /** After a safe proposal is recorded, exactly or rounded to two decimals, the next proposal over the
      same observations is not safe. */
  lemma RecordedProposalNotSafeAgain(
    clientOrderId: string, related: seq<Evidence>, repairs: seq<Repair>, unresolved: bool, feeRate: real,
    recorded: int, later: bool)
    requires Propose(clientOrderId, related, repairs, unresolved, feeRate).safe
    ensures
      var p := Propose(clientOrderId, related, repairs, unresolved, feeRate);
      && p.affectedFillId.Some? && p.proposedFee.Some?
      && (recorded == p.proposedFee.value || PrintsAs(p.proposedFee.value, recorded) ==>
            var after := Record(repairs, Repair(clientOrderId, p.affectedFillId.value, recorded));
            !Propose(clientOrderId, related, after, later, feeRate).safe)
  {
    var p := Propose(clientOrderId, related, repairs, unresolved, feeRate);
    SafeProposalComplete(clientOrderId, related, repairs, unresolved, feeRate);
    if recorded == p.proposedFee.value || PrintsAs(p.proposedFee.value, recorded) {
      var r := Repair(clientOrderId, p.affectedFillId.value, recorded);
      var after := Record(repairs, r);
      var i :| 0 <= i < |after| && after[i] == r;
      assert DuplicateExists(after, clientOrderId, p.affectedFillId.value, p.proposedFee.value);
      assert DuplicateRepair in Propose(clientOrderId, related, after, later, feeRate).blockers;
    }
  }

  lemma SafeProposalComplete(
    clientOrderId: string, related: seq<Evidence>, repairs: seq<Repair>, unresolved: bool, feeRate: real)
    requires Propose(clientOrderId, related, repairs, unresolved, feeRate).safe
    ensures
      var p := Propose(clientOrderId, related, repairs, unresolved, feeRate);
      p.affectedFillId.Some? && p.proposedFee.Some? && p.proposedFee.value > 0
  {
    var p := Propose(clientOrderId, related, repairs, unresolved, feeRate);
    assert |p.pending| != 1 ==> PendingFillCount in p.blockers;
    assert p.proposedFee.None? || p.proposedFee.value <= 0 ==> ProposedFeeNotPositive in p.blockers;
  }

  // ----- After the repair command -----

  /** The observation that the repair command appends: complete, with the recorded fee, and without any
      evidence about the order. */
  function Confirmed(fillId: string, recorded: int, price: real, qty: real): Evidence {
    Evidence(Some(fillId), true, Some(recorded as real / CASH_QUANTA_PER_UNIT), price, qty, false, false, None)
  }

  /** What is proposed next: the paid fee less the fees observed so far and the recorded one. */
  function Residue(paid: real, feeSum: real, recorded: int): int {
    FeeDelta(paid, NormalizeCash(feeSum + recorded as real / CASH_QUANTA_PER_UNIT))
  }

  lemma Requantised(feeSum: real, k: int)
    ensures NormalizeCash(feeSum + k as real / CASH_QUANTA_PER_UNIT)
        == HalfEven(feeSum * CASH_QUANTA_PER_UNIT + k as real)
  {
    assert (feeSum + k as real / CASH_QUANTA_PER_UNIT) * CASH_QUANTA_PER_UNIT
        == feeSum * CASH_QUANTA_PER_UNIT + k as real;
  }

  /** An even number of quanta may be subtracted before or after rounding. */
  lemma EvenStep(y: real, k: int)
    requires k % 2 == 0
    ensures HalfEven(y - k as real) == HalfEven(y) - k
  {
    HalfEvenShift(y, -k);
    assert y + (-k) as real == y - k as real;
  }

  lemma CentsAreEven(cents: int)
    requires cents % 1000000 == 0
    ensures cents % 2 == 0
  {
    var k := cents / 1000000;
    assert cents == 1000000 * k;
    HalvesOf(k);
  }

  lemma HalvesOf(k: int)
    ensures 1000000 * k % 2 == 0
  {
    Doubled(500000 * k);
    assert 1000000 * k == 2 * (500000 * k);
  }

  lemma Doubled(m: int)
    ensures 2 * m % 2 == 0
  {
  }

  /** After whole cents are recorded the residue is what they leave of the proposed fee. */
  lemma ResidueOfCents(paid: real, feeSum: real, recorded: int)
    requires recorded % 1000000 == 0
    ensures Residue(paid, feeSum, recorded) == FeeDelta(paid, NormalizeCash(feeSum)) - recorded
  {
    var x := feeSum * CASH_QUANTA_PER_UNIT;
    var y := paid * CASH_QUANTA_PER_UNIT - HalfEven(x) as real;
    CentsAreEven(recorded);
    Requantised(feeSum, recorded);
    HalfEvenShift(x, recorded);
    EvenStep(y, recorded);
    assert y - recorded as real == paid * CASH_QUANTA_PER_UNIT - (HalfEven(x) + recorded) as real;
  }

  /** An odd number of quanta added to a tie moves the rounded value by an even number next to it. */
  lemma OddStepOnTie(x: real, k: int)
    requires Tie(x) && k % 2 != 0
    ensures
      var step := HalfEven(x + k as real) - HalfEven(x);
      step % 2 == 0 && (step == k + 1 || step == k - 1)
  {
    HalfEvenShift(x, k);
    TieShifts(x, k);
    EvenDifference(HalfEven(x + k as real), HalfEven(x));
  }

  lemma TieShifts(x: real, k: int)
    requires Tie(x)
    ensures Tie(x + k as real)
  {
    assert (x + k as real).Floor == x.Floor + k;
  }

  lemma EvenDifference(a: int, b: int)
    requires a % 2 == 0 && b % 2 == 0
    ensures (a - b) % 2 == 0
  {
  }

  /** The observed fees lie between two quanta and the fee is an odd number of them. */
  predicate OddOnTie(feeSum: real, fee: int) {
    Tie(feeSum * CASH_QUANTA_PER_UNIT) && fee % 2 != 0
  }

  lemma ExactOnTie(paid: real, x: real, proposed: int)
    requires proposed == HalfEven(paid - HalfEven(x) as real) && Tie(x) && proposed % 2 != 0
    ensures
      var residue := HalfEven(paid - HalfEven(x + proposed as real) as real);
      residue == 1 || residue == -1
  {
    OddStepOnTie(x, proposed);
    var step := HalfEven(x + proposed as real) - HalfEven(x);
    var y := paid - HalfEven(x) as real;
    EvenStep(y, step);
    assert y - step as real == paid - HalfEven(x + proposed as real) as real;
  }

  lemma ExactOffTie(paid: real, x: real, proposed: int)
    requires proposed == HalfEven(paid - HalfEven(x) as real) && (!Tie(x) || proposed % 2 == 0)
    ensures HalfEven(paid - HalfEven(x + proposed as real) as real) == 0
  {
    var y := paid - HalfEven(x) as real;
    HalfEvenShift(x, proposed);
    NothingLeft(y);
    assert y - proposed as real == paid - HalfEven(x + proposed as real) as real;
  }

  /** After the exact fee is recorded nothing is left, unless the observed fees lie on a tie and the fee
      is an odd number of quanta: then one quantum is left over or missing. */
  lemma ResidueOfExact(paid: real, feeSum: real)
    ensures
      var proposed := FeeDelta(paid, NormalizeCash(feeSum));
      var residue := Residue(paid, feeSum, proposed);
      if OddOnTie(feeSum, proposed) then residue == 1 || residue == -1
      else residue == 0
  {
    var proposed := FeeDelta(paid, NormalizeCash(feeSum));
    ResidueInQuanta(paid, feeSum, proposed);
    ExactEitherWay(paid * CASH_QUANTA_PER_UNIT, feeSum * CASH_QUANTA_PER_UNIT, proposed);
  }

  /** The residue, with all amounts in quanta. */
  function QuantaLeft(paid: real, x: real, k: int): int {
    HalfEven(paid - HalfEven(x + k as real) as real)
  }

  lemma ResidueInQuanta(paid: real, feeSum: real, k: int)
    ensures Residue(paid, feeSum, k) == QuantaLeft(paid * CASH_QUANTA_PER_UNIT, feeSum * CASH_QUANTA_PER_UNIT, k)
  {
    Requantised(feeSum, k);
  }

  lemma ExactEitherWay(paid: real, x: real, proposed: int)
    requires proposed == HalfEven(paid - HalfEven(x) as real)
    ensures
      var residue := QuantaLeft(paid, x, proposed);
      if Tie(x) && proposed % 2 != 0 then residue == 1 || residue == -1 else residue == 0
  {
    if Tie(x) && proposed % 2 != 0 {
      ExactOnTie(paid, x, proposed);
    } else {
      ExactOffTie(paid, x, proposed);
    }
  }

  lemma NothingLeft(y: real)
    ensures HalfEven(y - HalfEven(y) as real) == 0
  {
    var k := HalfEven(y);
    HalfEvenShift(y, -k);
    assert y + (-k) as real == y - k as real;
  }

  /** The appended observation adds its fee and leaves everything else that is read as it was. */
  lemma ConfirmedRead(related: seq<Evidence>, e: Evidence)
    requires e.complete && e.fee.Some? && !e.completeFillSet && !e.allocatedSumMatches && e.paidFee.None?
    ensures ObservedFeeSum(related + [e]) == ObservedFeeSum(related) + e.fee.value
    ensures Pending(related + [e]) == Pending(related) && PaidFee(related + [e]) == PaidFee(related)
    ensures FillSetComplete(related + [e]) == FillSetComplete(related)
    ensures AllocationMatches(related + [e]) == AllocationMatches(related)
  {
    assert (related + [e])[..|related|] == related;
    OneMoreRow(related + [e], |related|);
  }

  lemma {:induction false} PendingRowKept(related: seq<Evidence>, e: Evidence, fillId: string)
    requires PendingRow(related, fillId).Some?
    ensures PendingRow(related + [e], fillId) == PendingRow(related, fillId)
  {
    assert (related + [e])[0] == related[0];
    if related[0].fillId != Some(fillId) {
      PendingRowKept(related[1..], e, fillId);
      assert (related + [e])[1..] == related[1..] + [e];
    }
  }

  lemma {:induction false} PendingHasRow(related: seq<Evidence>, fillId: string)
    requires exists i :: 0 <= i < |related| && related[i].fillId == Some(fillId)
    ensures PendingRow(related, fillId).Some? && PendingRow(related, fillId).value in related
  {
    if related[0].fillId != Some(fillId) {
      PendingHasRow(related[1..], fillId);
    }
  }

  lemma {:induction false} PendingIsObserved(related: seq<Evidence>, fillId: string)
    requires fillId in Pending(related)
    ensures exists i :: 0 <= i < |related| && related[i].fillId == Some(fillId)
  {
    var init := related[..|related| - 1];
    if fillId in Pending(init) {
      PendingIsObserved(init, fillId);
      var i :| 0 <= i < |init| && init[i].fillId == Some(fillId);
      assert related[i].fillId == Some(fillId);
    } else {
      assert related[|related| - 1].fillId == Some(fillId);
    }
  }

  lemma FillNeverBlocksIff(
    pending: seq<string>, deterministic: bool, complete: bool, paid: Option<real>, proposed: Option<int>)
    ensures FillBlockers(pending, deterministic, complete, paid, proposed) == [] <==>
      |pending| == 1 && deterministic && complete && paid.Some? && proposed.Some? && proposed.value > 0
  {
  }

  lemma NoneOf<T>(a: seq<T>, b: seq<T>, c: seq<T>, d: seq<T>, e: seq<T>)
    ensures |a + b + c + d + e| == 0 <==> |a| == 0 && |b| == 0 && |c| == 0 && |d| == 0 && |e| == 0
  {
  }

  lemma NoBlockersIff(
    pending: seq<string>, deterministic: bool, complete: bool, paid: Option<real>, observed: int, proposed: Option<int>,
    row: Option<Evidence>, feeRate: real, duplicate: bool, unresolved: bool)
    requires PaidBlockers(paid, observed, proposed) == []
    ensures Blockers(pending, deterministic, complete, paid, observed, proposed, row, feeRate, duplicate, unresolved)
        == []
      <==> && |pending| == 1 && deterministic && complete && paid.Some? && proposed.Some? && proposed.value > 0
           && (row.Some? ==> row.value.price * row.value.qty > 0.0 && WithinRate(row.value, proposed.value, feeRate))
           && !duplicate && !unresolved
  {
    FillNeverBlocksIff(pending, deterministic, complete, paid, proposed);
    NoneOf(FillBlockers(pending, deterministic, complete, paid, proposed), PaidBlockers(paid, observed, proposed),
           RateBlockers(row, proposed, feeRate), When(duplicate, DuplicateRepair), When(unresolved, UnresolvedOrders));
  }

  /** Nothing blocks exactly when every check passes. */
  lemma SafeIff(
    clientOrderId: string, related: seq<Evidence>, repairs: seq<Repair>, unresolved: bool, feeRate: real, p: Proposal)
    requires p == Propose(clientOrderId, related, repairs, unresolved, feeRate)
    ensures p.safe <==>
      && |p.pending| == 1 && p.paidFee.Some? && FillSetComplete(related) && p.proposedFee.value > 0
      && PendingRow(related, p.pending[0]).Some?
      && (var row := PendingRow(related, p.pending[0]).value;
          row.price * row.qty > 0.0 && WithinRate(row, p.proposedFee.value, feeRate))
      && !DuplicateExists(repairs, clientOrderId, p.pending[0], p.proposedFee.value) && !unresolved
  {
    var complete := FillSetComplete(related);
    var deterministic := p.pending != [] && p.paidFee.Some? && complete
                         && (AllocationMatches(related) || p.proposedFee.value != 0);
    var row := if p.affectedFillId.Some? then PendingRow(related, p.affectedFillId.value) else None;
    var duplicate := p.affectedFillId.Some? && p.proposedFee.Some?
                     && DuplicateExists(repairs, clientOrderId, p.affectedFillId.value, p.proposedFee.value);
    PaidNeverBlocks(p.paidFee, p.observedFees);
    NoBlockersIff(p.pending, deterministic, complete, p.paidFee, p.observedFees, p.proposedFee, row, feeRate,
        duplicate, unresolved);
    if |p.pending| == 1 {
      PendingIsObserved(related, p.pending[0]);
      PendingHasRow(related, p.pending[0]);
    }
  }

  // ----- A safe proposal, over the observations -----

  /** The observation has a fill id and waits for its fee. */
  predicate Waits(e: Evidence) { e.fillId.Some? && Strip(e.fillId.value) != "" && !e.complete }

  /** The one observation that waits. */
  ghost predicate OnlyWaits(related: seq<Evidence>, k: nat) {
    k < |related| && Waits(related[k]) && forall j :: 0 <= j < |related| && j != k ==> !Waits(related[j])
  }

  /** The earliest observation that carries a paid fee. */
  ghost predicate FirstPaid(related: seq<Evidence>, m: nat) {
    m < |related| && related[m].paidFee.Some? && forall j :: 0 <= j < m ==> related[j].paidFee.None?
  }

  /** The earliest observation with the fill id of another one. */
  ghost predicate FirstOfFill(related: seq<Evidence>, k: nat, j: nat) {
    && j <= k < |related| && related[j].fillId == related[k].fillId
    && forall i :: 0 <= i < j ==> related[i].fillId != related[k].fillId
  }

  lemma {:induction false} PaidFeeIs(related: seq<Evidence>, m: nat)
    requires FirstPaid(related, m)
    ensures PaidFee(related) == related[m].paidFee
  {
    var n := |related| - 1;
    if m < n {
      assert forall j :: 0 <= j < n ==> related[..n][j] == related[j];
      PaidFeeIs(related[..n], m);
    } else {
      NothingPaid(related[..n]);
    }
  }

  lemma {:induction false} NothingPaid(related: seq<Evidence>)
    requires forall j :: 0 <= j < |related| ==> related[j].paidFee.None?
    ensures PaidFee(related).None?
  {
    if related != [] {
      NothingPaid(related[..|related| - 1]);
    }
  }

  lemma {:induction false} NothingWaits(related: seq<Evidence>)
    ensures Pending(related) == [] <==> forall j :: 0 <= j < |related| ==> !Waits(related[j])
  {
    if related != [] {
      NothingWaits(related[..|related| - 1]);
    }
  }

  lemma {:induction false} PendingIs(related: seq<Evidence>, k: nat)
    requires OnlyWaits(related, k)
    ensures related[k].fillId.Some? && Pending(related) == [related[k].fillId.value]
  {
    var n := |related| - 1;
    assert forall j :: 0 <= j < n ==> related[..n][j] == related[j];
    if k < n {
      PendingIs(related[..n], k);
    } else {
      NothingWaits(related[..n]);
    }
  }

  lemma {:induction false} OnePendingWaits(related: seq<Evidence>) returns (k: nat)
    requires |Pending(related)| == 1
    ensures OnlyWaits(related, k)
  {
    var n := |related| - 1;
    assert forall j :: 0 <= j < n ==> related[..n][j] == related[j];
    if Waits(related[n]) {
      NothingWaits(related[..n]);
      k := n;
    } else {
      k := OnePendingWaits(related[..n]);
    }
  }

  lemma {:induction false} RowIs(related: seq<Evidence>, k: nat, j: nat)
    requires FirstOfFill(related, k, j) && related[k].fillId.Some?
    ensures PendingRow(related, related[k].fillId.value) == Some(related[j])
  {
    if j > 0 {
      RowIs(related[1..], k - 1, j - 1);
    }
  }

  /** Within one cent, or within a quarter, of the expected fee. */
  lemma NearRateIff(fee: int, expected: int)
    ensures NearRate(fee, expected)
      <==> -1000000 <= fee - expected <= 1000000 || -expected <= 4 * (fee - expected) <= expected
  {
  }

  /** Which is the value of the fill at the rate, to half a quantum. */
  lemma ExpectedFeeNear(row: Evidence, feeRate: real)
    ensures -0.5 <= ExpectedFee(row, feeRate) as real - row.price * row.qty * feeRate * 100000000.0 <= 0.5
  {
    QuantisedNear(row.price * row.qty * feeRate);
  }

  /** A repair of the fill within one cent of the fee is recorded. */
  ghost predicate RepairedNear(repairs: seq<Repair>, clientOrderId: string, fillId: string, fee: int) {
    exists r <- repairs :: r.clientOrderId == clientOrderId && r.fillId == fillId && -1000000 <= r.fee - fee <= 1000000
  }

  lemma DuplicateIff(repairs: seq<Repair>, clientOrderId: string, fillId: string, fee: int)
    ensures DuplicateExists(repairs, clientOrderId, fillId, fee) <==> RepairedNear(repairs, clientOrderId, fillId, fee)
  {
  }

  /** Only with one waiting observation and a paid fee can a proposal be safe. */
  lemma SafeNeeds(
    clientOrderId: string, related: seq<Evidence>, repairs: seq<Repair>, unresolved: bool, feeRate: real, p: Proposal)
    returns (k: nat, m: nat)
    requires p == Propose(clientOrderId, related, repairs, unresolved, feeRate) && p.safe
    ensures OnlyWaits(related, k) && FirstPaid(related, m)
  {
    SafeIff(clientOrderId, related, repairs, unresolved, feeRate, p);
    k := OnePendingWaits(related);
    m := PaidPlace(related);
  }

  lemma {:induction false} PaidPlace(related: seq<Evidence>) returns (m: nat)
    requires PaidFee(related).Some?
    ensures FirstPaid(related, m)
  {
    var n := |related| - 1;
    assert forall j :: 0 <= j < n ==> related[..n][j] == related[j];
    if PaidFee(related[..n]).Some? {
      m := PaidPlace(related[..n]);
    } else {
      m := n;
      forall j | 0 <= j < n ensures related[j].paidFee.None? {
        PaidShows(related[..n], j);
      }
    }
  }

  lemma {:induction false} PaidShows(related: seq<Evidence>, j: nat)
    requires j < |related| && PaidFee(related).None?
    ensures related[j].paidFee.None?
  {
    if j < |related| - 1 {
      PaidShows(related[..|related| - 1], j);
    }
  }

  /** Then the waiting fill is proposed the fee that the observed ones leave of the paid one. */
  lemma {:induction false} ProposalIs(
    clientOrderId: string, related: seq<Evidence>, repairs: seq<Repair>, unresolved: bool, feeRate: real, p: Proposal,
    k: nat, m: nat)
    requires p == Propose(clientOrderId, related, repairs, unresolved, feeRate)
    requires OnlyWaits(related, k) && FirstPaid(related, m)
    ensures p.pending == [related[k].fillId.value] && p.affectedFillId == related[k].fillId
    ensures p.paidFee == related[m].paidFee && p.observedFees == NormalizeCash(ObservedFeeSum(related))
    ensures p.proposedFee == Some(HalfEven(related[m].paidFee.value * 100000000.0 - p.observedFees as real))
  {
    PendingIs(related, k);
    PaidFeeIs(related, m);
  }

  /** And the proposal is safe exactly when the fill set is complete, the fee is positive and within the
      rate of the first observation of the fill, no repair near it is recorded, and no order is unresolved. */
  lemma {:induction false} SafeMeans(
    clientOrderId: string, related: seq<Evidence>, repairs: seq<Repair>, unresolved: bool, feeRate: real, p: Proposal,
    k: nat, m: nat, j: nat, fee: int, expected: int)
    requires p == Propose(clientOrderId, related, repairs, unresolved, feeRate) && p.proposedFee == Some(fee)
    requires OnlyWaits(related, k) && FirstPaid(related, m) && FirstOfFill(related, k, j)
    requires expected == ExpectedFee(related[j], feeRate)
    ensures p.safe <==>
      && (exists i :: 0 <= i < |related| && related[i].completeFillSet)
      && fee > 0 && related[j].price * related[j].qty > 0.0
      && (-1000000 <= fee - expected <= 1000000 || -expected <= 4 * (fee - expected) <= expected)
      && !RepairedNear(repairs, clientOrderId, related[k].fillId.value, fee)
      && !unresolved
  {
    assert p.pending == [related[k].fillId.value] && p.paidFee.Some? by {
      ProposalIs(clientOrderId, related, repairs, unresolved, feeRate, p, k, m);
    }
    RowIs(related, k, j);
    NearRateIff(fee, expected);
    DuplicateIff(repairs, clientOrderId, related[k].fillId.value, fee);
    SafeIff(clientOrderId, related, repairs, unresolved, feeRate, p);
  }

  /** After the command has recorded `recorded` for a safe proposal and appended its observation, the next
      proposal is the residue; and it is safe again exactly when the residue is positive and within the
      fee-rate tolerance, no recorded repair is within a cent of it and no order is unresolved. */
  lemma NextProposalSafeIff(
    clientOrderId: string, related: seq<Evidence>, repairs: seq<Repair>, unresolved: bool, feeRate: real,
    recorded: int, price: real, qty: real, later: bool, p: Proposal, next: Proposal)
    requires p == Propose(clientOrderId, related, repairs, unresolved, feeRate) && p.safe && |p.pending| == 1
    requires next == Propose(
      clientOrderId, related + [Confirmed(p.pending[0], recorded, price, qty)],
      Record(repairs, Repair(clientOrderId, p.pending[0], recorded)), later, feeRate)
    ensures p.paidFee.Some? && PendingRow(related, p.pending[0]).Some?
    ensures p.proposedFee == Some(FeeDelta(p.paidFee.value, NormalizeCash(ObservedFeeSum(related))))
    ensures
      var residue := Residue(p.paidFee.value, ObservedFeeSum(related), recorded);
      && next.proposedFee == Some(residue) && next.pending == p.pending
      && (next.safe <==>
            && residue > 0
            && WithinRate(PendingRow(related, p.pending[0]).value, residue, feeRate)
            && !DuplicateExists(Record(repairs, Repair(clientOrderId, p.pending[0], recorded)), clientOrderId,
                p.pending[0], residue)
            && !later)
  {
    var e := Confirmed(p.pending[0], recorded, price, qty);
    SafeIff(clientOrderId, related, repairs, unresolved, feeRate, p);
    ConfirmedRead(related, e);
    PendingRowKept(related, e, p.pending[0]);
    SafeIff(clientOrderId, related + [e], Record(repairs, Repair(clientOrderId, p.pending[0], recorded)), later,
        feeRate, next);
  }

  /** When the exact fee was recorded the next proposal is not safe, unless the observed fees lie on a tie
      and the fee is an odd number of quanta. */
  lemma ExactRepairNotSafeAgain(
    clientOrderId: string, related: seq<Evidence>, repairs: seq<Repair>, unresolved: bool, feeRate: real,
    price: real, qty: real, later: bool, p: Proposal, next: Proposal)
    requires p == Propose(clientOrderId, related, repairs, unresolved, feeRate) && p.safe && |p.pending| == 1
    requires p.proposedFee.Some? && next == Propose(
      clientOrderId, related + [Confirmed(p.pending[0], p.proposedFee.value, price, qty)],
      Record(repairs, Repair(clientOrderId, p.pending[0], p.proposedFee.value)), later, feeRate)
    ensures next.safe ==> OddOnTie(ObservedFeeSum(related), p.proposedFee.value)
  {
    NextProposalSafeIff(
      clientOrderId, related, repairs, unresolved, feeRate, p.proposedFee.value, price, qty, later, p, next);
    ExactResidueNotPositive(p.paidFee.value, ObservedFeeSum(related), p.proposedFee.value);
  }

  lemma ExactResidueNotPositive(paid: real, feeSum: real, proposed: int)
    requires proposed == FeeDelta(paid, NormalizeCash(feeSum))
    ensures Residue(paid, feeSum, proposed) > 0 ==> OddOnTie(feeSum, proposed)
  {
    ResidueOfExact(paid, feeSum);
  }

  // ----- Proposals that are safe again -----

  /** One pending observation of a fill at price `price`, which carries the paid fee. */
  function OnePending(price: real, paid: real): Evidence {
    Evidence(Some("f"), false, None, price, 1.0, true, false, Some(paid))
  }

  lemma OnePendingRead(price: real, paid: real)
    ensures
      var related := [OnePending(price, paid)];
      && ObservedFeeSum(related) == 0.0 && Pending(related) == ["f"] && PaidFee(related) == Some(paid)
      && FillSetComplete(related) && PendingRow(related, "f") == Some(related[0])
  {
    var f := OnePending(price, paid);
    ReadStep([], f);
    FNotBlank();
    assert [] + [f] == [f] && [f][0].completeFillSet;
    assert Pending([f]) == [] + ["f"];
  }

  lemma FNotBlank()
    ensures Strip("f") == "f"
  {
    StripLaw("f");
    assert Stripped("f");
  }

  lemma ReadStep(related: seq<Evidence>, e: Evidence)
    ensures ObservedFeeSum(related + [e]) == ObservedFeeSum(related) + if e.fee.Some? then e.fee.value else 0.0
    ensures Pending(related + [e]) == Pending(related)
      + if e.fillId.Some? && Strip(e.fillId.value) != "" && !e.complete then [e.fillId.value] else []
    ensures PaidFee(related + [e]) == if PaidFee(related).Some? then PaidFee(related) else e.paidFee
  {
    assert (related + [e])[..|related|] == related;
  }

  /** A single proposal at the rate 0.0005 without repairs is safe when it is positive and within the rate. */
  lemma SafeAtRate(related: seq<Evidence>, row: Evidence, fee: int, p: Proposal)
    requires p == Propose("o", related, [], false, 0.0005) && p.pending == ["f"] && p.proposedFee == Some(fee)
        && fee > 0
    requires FillSetComplete(related) && PendingRow(related, "f") == Some(row)
    requires row.price * row.qty > 0.0 && WithinRate(row, fee, 0.0005)
    ensures p.safe
  {
    SafeIff("o", related, [], false, 0.0005, p);
  }

  lemma {:induction false} SafeAfterRepair(
    related: seq<Evidence>, row: Evidence, recorded: int, residue: int, price: real, qty: real, p: Proposal,
        next: Proposal)
    requires p == Propose("o", related, [], false, 0.0005) && p.pending == ["f"] && p.safe && p.paidFee.Some?
    requires next == Propose(
      "o", related + [Confirmed("f", recorded, price, qty)], [Repair("o", "f", recorded)], false, 0.0005)
    requires PendingRow(related, "f") == Some(row)
        && residue == Residue(p.paidFee.value, ObservedFeeSum(related), recorded)
    requires residue > 0 && WithinRate(row, residue, 0.0005) && AbsInt(recorded - residue) > ROUNDING_TOLERANCE
    ensures next.safe && next.proposedFee == Some(residue)
  {
    assert Record([], Repair("o", "f", recorded)) == [Repair("o", "f", recorded)];
    NextProposalSafeIff("o", related, [], false, 0.0005, recorded, price, qty, false, p, next);
  }

  lemma RateAt29(fee: int, paid: real)
    requires 450000 <= fee <= 2450000
    ensures WithinRate(OnePending(29.0, paid), fee, 0.0005)
  {
    HalfEvenInteger(1450000);
    assert 29.0 * 1.0 * 0.0005 * CASH_QUANTA_PER_UNIT == 1450000.0;
  }

  lemma {:induction false} Proposal29(related: seq<Evidence>, p: Proposal)
    requires related == [OnePending(29.0, 0.0245)] && p == Propose("o", related, [], false, 0.0005)
    ensures p.pending == ["f"] && p.paidFee == Some(0.0245) && p.proposedFee == Some(2450000)
  {
    OnePendingRead(29.0, 0.0245);
    HalfEvenInteger(0);
    HalfEvenInteger(2450000);
  }

  /** A proposal of 0.0245 is recorded as 0.02, which leaves 0.0045: the next proposal is safe again. */
  lemma {:induction false} CentsCanBeSafeAgain(
    related: seq<Evidence>, price: real, qty: real, p: Proposal, next: Proposal)
    requires related == [OnePending(29.0, 0.0245)] && p == Propose("o", related, [], false, 0.0005)
    requires next == Propose(
      "o", related + [Confirmed("f", 2000000, price, qty)], [Repair("o", "f", 2000000)], false, 0.0005)
    ensures p.safe && p.proposedFee == Some(2450000) && PrintsAs(2450000, 2000000)
    ensures next.safe && next.proposedFee == Some(450000)
  {
    OnePendingRead(29.0, 0.0245);
    Proposal29(related, p);
    FirstIsSafe(related, p);
    Residue29();
    RateAt29(450000, 0.0245);
    SafeAfterRepair(related, related[0], 2000000, 450000, price, qty, p, next);
  }

  lemma {:induction false} FirstIsSafe(related: seq<Evidence>, p: Proposal)
    requires related == [OnePending(29.0, 0.0245)] && p == Propose("o", related, [], false, 0.0005)
    ensures p.safe
  {
    OnePendingRead(29.0, 0.0245);
    Proposal29(related, p);
    RateAt29(2450000, 0.0245);
    SafeAtRate(related, related[0], 2450000, p);
  }

  lemma Residue29()
    ensures Residue(0.0245, 0.0, 2000000) == 450000
  {
    ResidueOfCents(0.0245, 0.0, 2000000);
    HalfEvenInteger(0);
    HalfEvenInteger(2450000);
  }

  /** An earlier fill with a fee of one and a half quanta, and a pending one as above. */
  function AfterTie(price: real, paid: real): seq<Evidence> {
    [Evidence(Some("e"), true, Some(0.000000015), 1.0, 1.0, false, false, None), OnePending(price, paid)]
  }

  lemma AfterTieRead(price: real, paid: real)
    ensures
      var related := AfterTie(price, paid);
      && ObservedFeeSum(related) == 0.000000015 && Pending(related) == ["f"] && PaidFee(related) == Some(paid)
      && FillSetComplete(related) && PendingRow(related, "f") == Some(related[1])
  {
    var e, f := AfterTie(price, paid)[0], AfterTie(price, paid)[1];
    ReadStep([], e);
    ReadStep([e], f);
    assert [] + [e] == [e] && [e] + [f] == AfterTie(price, paid) && AfterTie(price, paid)[1..] == [f];
    assert AfterTie(price, paid)[1].completeFillSet;
    FNotBlank();
    assert Pending(AfterTie(price, paid)) == [] + ["f"];
    assert "e"[0] != "f"[0];
  }

  lemma RateAt20(fee: int, paid: real)
    requires 0 <= fee <= 2000000
    ensures WithinRate(OnePending(20.0, paid), fee, 0.0005)
  {
    HalfEvenInteger(1000000);
    assert 20.0 * 1.0 * 0.0005 * CASH_QUANTA_PER_UNIT == 1000000.0;
  }

  lemma {:induction false} Proposal20(related: seq<Evidence>, p: Proposal)
    requires related == AfterTie(20.0, 0.01500003) && p == Propose("o", related, [], false, 0.0005)
    ensures p.pending == ["f"] && p.paidFee == Some(0.01500003) && p.proposedFee == Some(1500001)
  {
    AfterTieRead(20.0, 0.01500003);
    HalfEvenUnique(1.5, 2);
    HalfEvenInteger(1500001);
    assert p.observedFees == 2;
  }

  lemma Residue20()
    ensures Residue(0.01500003, 0.000000015, 1500001) == 1
  {
    Requantised(0.000000015, 1500001);
    HalfEvenUnique(1500002.5, 1500002);
    HalfEvenInteger(1);
  }

  /** Even an exactly recorded fee can leave a safe quantum when the observed fees lie on a tie. */
  lemma {:induction false} ExactCanBeSafeAgain(
    related: seq<Evidence>, price: real, qty: real, p: Proposal, next: Proposal)
    requires related == AfterTie(20.0, 0.01500003) && p == Propose("o", related, [], false, 0.0005)
    requires next == Propose(
      "o", related + [Confirmed("f", 1500001, price, qty)], [Repair("o", "f", 1500001)], false, 0.0005)
    ensures p.safe && p.proposedFee == Some(1500001)
    ensures next.safe && next.proposedFee == Some(1)
  {
    AfterTieRead(20.0, 0.01500003);
    Proposal20(related, p);
    RateAt20(1500001, 0.01500003);
    SafeAtRate(related, related[1], 1500001, p);
    Residue20();
    RateAt20(1, 0.01500003);
    SafeAfterRepair(related, related[1], 1500001, 1, price, qty, p, next);
  }
}
