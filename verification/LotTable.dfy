/** The open-position lot table: the row rule that its triggers enforce, and the schema backfill
    that runs under those triggers. */
module LotTable {
  import opened Wrappers
  import opened Rounding

  const LOT_NATIVE := "lot-native"

  datatype LotState = OpenExposure | DustTracking

  datatype Lot = Lot(
    qtyOpen: real, executableLots: int, dustLots: int, lotSize: Option<real>, basis: string, state: LotState)

  datatype Rejection = NegativeCounts | StateCountMismatch | ExecutableQtyMismatch | DustQtyExceeds | ZeroQtyKeepsLots

  predicate Blank(s: string) {
    forall i :: 0 <= i < |s| ==> s[i] == ' '
  }

  function Size(lot: Lot): real { if lot.lotSize.Some? then lot.lotSize.value else 0.0 }

  function Abs(x: real): real { if x < 0.0 then -x else x }

  /** The trigger: the first clause that a new row breaks. */
  function Check(lot: Lot): Option<Rejection> {
    var native := lot.basis == LOT_NATIVE && lot.qtyOpen > EPS;
    if lot.executableLots < 0 || lot.dustLots < 0 then Some(NegativeCounts)
    else if native && (match lot.state
                       case OpenExposure => lot.executableLots <= 0 || lot.dustLots != 0
                       case DustTracking => lot.executableLots != 0 || lot.dustLots <= 0)
    then Some(StateCountMismatch)
    else if native && Size(lot) > EPS && lot.state.OpenExposure?
            && Abs(lot.qtyOpen - lot.executableLots as real * Size(lot)) > EPS
    then Some(ExecutableQtyMismatch)
    else if native && Size(lot) > EPS && lot.state.DustTracking?
            && lot.qtyOpen - lot.dustLots as real * Size(lot) > EPS
    then Some(DustQtyExceeds)
    else if lot.qtyOpen <= EPS && (lot.executableLots != 0 || lot.dustLots != 0) then Some(ZeroQtyKeepsLots)
    else None
  }

  predicate Accepted(lot: Lot) { Check(lot).None? }

  predicate AllAccepted(rows: seq<Lot>) {
    forall i :: 0 <= i < |rows| ==> Accepted(rows[i])
  }

  // ----- What the trigger admits -----

  predicate LotNative(lot: Lot) { lot.basis == "lot-native" && lot.qtyOpen > 0.000000000001 }

  /** The lot size, when it is one. */
  predicate HasSize(lot: Lot, size: real) { lot.lotSize == Some(size) && size > 0.000000000001 }

  predicate OpenOff(lot: Lot, size: real) {
    && HasSize(lot, size)
    && !(-0.000000000001 <= lot.qtyOpen - lot.executableLots as real * size <= 0.000000000001)
  }

  predicate DustOver(lot: Lot, size: real) {
    HasSize(lot, size) && lot.qtyOpen > lot.dustLots as real * size + 0.000000000001
  }

  /** The row breaks this clause of the trigger. */
  ghost predicate Breaks(lot: Lot, r: Rejection) {
    match r
    case NegativeCounts => lot.executableLots < 0 || lot.dustLots < 0
    case StateCountMismatch =>
      LotNative(lot) && !(if lot.state.OpenExposure? then lot.executableLots > 0 && lot.dustLots == 0
                          else lot.executableLots == 0 && lot.dustLots > 0)
    case ExecutableQtyMismatch => LotNative(lot) && lot.state.OpenExposure? && exists size :: OpenOff(lot, size)
    case DustQtyExceeds => LotNative(lot) && lot.state.DustTracking? && exists size :: DustOver(lot, size)
    case ZeroQtyKeepsLots => lot.qtyOpen <= 0.000000000001 && !(lot.executableLots == 0 && lot.dustLots == 0)
  }

  lemma SizeIs(lot: Lot)
    ensures Size(lot) > EPS <==> HasSize(lot, Size(lot))
    ensures forall size :: HasSize(lot, size) ==> size == Size(lot)
  {
  }

  lemma OpenOffIff(lot: Lot)
    ensures (exists size :: OpenOff(lot, size))
      <==> (Size(lot) > EPS && Abs(lot.qtyOpen - lot.executableLots as real * Size(lot)) > EPS)
  {
    SizeIs(lot);
    if Size(lot) > EPS && Abs(lot.qtyOpen - lot.executableLots as real * Size(lot)) > EPS {
      assert OpenOff(lot, Size(lot));
    }
  }

  lemma DustOverIff(lot: Lot)
    ensures (exists size :: DustOver(lot, size))
      <==> (Size(lot) > EPS && lot.qtyOpen - lot.dustLots as real * Size(lot) > EPS)
  {
    SizeIs(lot);
    if Size(lot) > EPS && lot.qtyOpen - lot.dustLots as real * Size(lot) > EPS {
      assert DustOver(lot, Size(lot));
    }
  }

  /** The clauses in the order in which the trigger tries them. */
  function Clause(r: Rejection): nat {
    match r
    case NegativeCounts => 0
    case StateCountMismatch => 1
    case ExecutableQtyMismatch => 2
    case DustQtyExceeds => 3
    case ZeroQtyKeepsLots => 4
  }

  /** A row is rejected for the first clause that it breaks, and accepted exactly when it breaks none. */
  lemma CheckIff(lot: Lot, r: Rejection)
    ensures Check(lot) == Some(r) <==> Breaks(lot, r) && forall s :: Clause(s) < Clause(r) ==> !Breaks(lot, s)
    ensures Accepted(lot) <==> forall s :: !Breaks(lot, s)
  {
    OpenOffIff(lot);
    DustOverIff(lot);
    assert Accepted(lot) || Breaks(lot, Check(lot).value);
  }

  // ----- Backfill -----

  /** First statement: a blank semantic basis becomes lot-native. */
  function Relabel(lot: Lot): Lot {
    if Blank(lot.basis) then lot.(basis := LOT_NATIVE) else lot
  }

  /** Last statement: an open row of positive quantity gets at least one lot of its kind. */
  function FillCounts(lot: Lot): Lot {
    lot.(executableLots := if lot.state.OpenExposure? && lot.qtyOpen > EPS && lot.executableLots <= 0 then 1
        else lot.executableLots,
         dustLots := if lot.state.DustTracking? && lot.qtyOpen > EPS && lot.dustLots <= 0 then 1 else lot.dustLots)
  }

  function Relabelled(rows: seq<Lot>): (r: seq<Lot>)
    ensures |r| == |rows| && forall i :: 0 <= i < |r| ==> r[i] == Relabel(rows[i])
  {
    seq(|rows|, i requires 0 <= i < |rows| => Relabel(rows[i]))
  }

  function Filled(rows: seq<Lot>): (r: seq<Lot>)
    ensures |r| == |rows| && forall i :: 0 <= i < |r| ==> r[i] == FillCounts(rows[i])
  {
    seq(|rows|, i requires 0 <= i < |rows| => FillCounts(rows[i]))
  }

  /** A blank-basis row may be relabelled: it already satisfies the lot-native clauses. */
  predicate Relabellable(lot: Lot) {
    Blank(lot.basis) && lot.qtyOpen > EPS ==>
      match lot.state
      case OpenExposure =>
        && lot.executableLots > 0 && lot.dustLots == 0
        && (Size(lot) > EPS ==> -EPS <= lot.qtyOpen - lot.executableLots as real * Size(lot) <= EPS)
      case DustTracking =>
        && lot.executableLots == 0 && lot.dustLots > 0
        && (Size(lot) > EPS ==> lot.qtyOpen - lot.dustLots as real * Size(lot) <= EPS)
  }

  class OpenPositionLots {
    var rows: seq<Lot>

    /** Every stored row passed the trigger. */
    ghost predicate Valid()
      reads this
    {
      AllAccepted(rows)
    }

    constructor ()
      ensures Valid() && rows == []
    {
      rows := [];
    }

    method Insert(lot: Lot) returns (rejected: Option<Rejection>)
      requires Valid()
      modifies this
      ensures Valid() && rejected == Check(lot)
      ensures rows == if rejected.None? then old(rows) + [lot] else old(rows)
    {
      rejected := Check(lot);
      if rejected.None? {
        rows := rows + [lot];
      }
    }

    method Update(i: nat, lot: Lot) returns (rejected: Option<Rejection>)
      requires Valid() && i < |rows|
      modifies this
      ensures Valid() && rejected == Check(lot)
      ensures rows == if rejected.None? then old(rows)[i := lot] else old(rows)
    {
      rejected := Check(lot);
      if rejected.None? {
        rows := rows[i := lot];
      }
    }

    /** The backfill as the schema routine runs it: relabel, then fill, each row under the trigger. A
        rejected row aborts its statement. It succeeds exactly when every row is relabellable. */
    method Backfill() returns (ok: bool)
      requires Valid()
      modifies this
      ensures Valid()
      ensures ok <==> forall i :: 0 <= i < |old(rows)| ==> Relabellable(old(rows)[i])
      ensures rows == if ok then Filled(Relabelled(old(rows))) else old(rows)
    {
      var relabelled := Relabelled(rows);
      for i := 0 to |rows|
        invariant rows == old(rows)
        invariant forall j :: 0 <= j < i ==> Accepted(relabelled[j]) && Relabellable(rows[j])
      {
        RelabelAcceptedIff(rows[i]);
        if Check(relabelled[i]).Some? {
          assert !Relabellable(old(rows)[i]);
          return false;
        }
      }
      rows := relabelled;
      var filled := Filled(rows);
      for i := 0 to |rows|
        invariant rows == relabelled
        invariant forall j :: 0 <= j < i ==> Accepted(filled[j])
      {
        FillAccepted(rows[i]);
        assert Check(filled[i]).None?;
      }
      rows := filled;
      ok := true;
    }
  }

  // ----- The row rule through the backfill -----

  lemma RelabelAcceptedIff(lot: Lot)
    requires Accepted(lot)
    ensures Accepted(Relabel(lot)) <==> Relabellable(lot)
  {
    if Blank(lot.basis) {
      assert lot.basis != LOT_NATIVE by {
        assert LOT_NATIVE[0] == 'l';
      }
    }
  }

  /** Filling counts is never rejected, changes only rows that are not lot-native, and is idempotent. */
  lemma FillAccepted(lot: Lot)
    requires Accepted(lot)
    ensures Accepted(FillCounts(lot))
    ensures FillCounts(lot) != lot ==> lot.basis != LOT_NATIVE
    ensures FillCounts(FillCounts(lot)) == FillCounts(lot)
  {
  }

  /** The backfill of a row: a blank basis becomes lot-native, and a count changes exactly when it is the
      one of the row's state, not positive, and the quantity is open; it becomes one. */
  lemma BackfillChanges(lot: Lot, after: Lot)
    requires after == FillCounts(Relabel(lot))
    ensures after.basis
      == if forall i :: 0 <= i < |lot.basis| ==> lot.basis[i] == ' ' then "lot-native" else lot.basis
    ensures after.executableLots != lot.executableLots
      <==> lot.state.OpenExposure? && lot.qtyOpen > 0.000000000001 && lot.executableLots <= 0
    ensures after.dustLots != lot.dustLots
      <==> lot.state.DustTracking? && lot.qtyOpen > 0.000000000001 && lot.dustLots <= 0
    ensures after.executableLots in {1, lot.executableLots} && after.dustLots in {1, lot.dustLots}
    ensures after.qtyOpen == lot.qtyOpen && after.lotSize == lot.lotSize && after.state == lot.state
  {
  }

  /** On every table the triggers admit: a successful backfill leaves no blank basis, changes only rows
      that were not lot-native, and succeeds again without changing anything. */
  lemma BackfillLaw(rows: seq<Lot>)
    requires AllAccepted(rows) && forall i :: 0 <= i < |rows| ==> Relabellable(rows[i])
    ensures
      var after := Filled(Relabelled(rows));
      && AllAccepted(after)
      && (forall i :: 0 <= i < |rows| ==> !Blank(after[i].basis) && Relabellable(after[i]))
      && (forall i :: 0 <= i < |rows| && after[i] != rows[i] ==> rows[i].basis != LOT_NATIVE)
      && Filled(Relabelled(after)) == after
  {
    assert LOT_NATIVE[0] == 'l';
    forall i | 0 <= i < |rows|
      ensures
        var lot := FillCounts(Relabel(rows[i]));
        && Accepted(lot) && !Blank(lot.basis) && FillCounts(Relabel(lot)) == lot
        && (lot != rows[i] ==> rows[i].basis != LOT_NATIVE)
    {
      RelabelAcceptedIff(rows[i]);
      FillAccepted(Relabel(rows[i]));
    }
  }

  /** The backfill can be refused: a row without a basis or lots is admitted, but not as lot-native. */
  lemma BackfillCanFail()
    ensures
      var lot := Lot(1.0, 0, 0, None, "", OpenExposure);
      Accepted(lot) && !Relabellable(lot) && Check(Relabel(lot)) == Some(StateCountMismatch)
  {
    assert LOT_NATIVE[0] == 'l';
  }

  // ----- Every reachable table -----

  datatype Operation = InsertRow(lot: Lot) | UpdateRow(index: nat, lot: Lot) | RunBackfill

  function Step(rows: seq<Lot>, op: Operation): seq<Lot> {
    match op
    case InsertRow(lot) => if Accepted(lot) then rows + [lot] else rows
    case UpdateRow(i, lot) => if Accepted(lot) && i < |rows| then rows[i := lot] else rows
    case RunBackfill => if AllAccepted(Relabelled(rows)) then Filled(Relabelled(rows)) else rows
  }

  function Run(ops: seq<Operation>): seq<Lot> {
    if ops == [] then [] else Step(Run(ops[..|ops| - 1]), ops[|ops| - 1])
  }

  lemma {:induction false} ReachableAccepted(ops: seq<Operation>)
    ensures AllAccepted(Run(ops))
  {
    if ops != [] {
      ReachableAccepted(ops[..|ops| - 1]);
      var rows := Run(ops[..|ops| - 1]);
      if ops[|ops| - 1].RunBackfill? && AllAccepted(Relabelled(rows)) {
        forall i | 0 <= i < |rows| ensures Accepted(FillCounts(Relabel(rows[i]))) {
          assert Accepted(Relabelled(rows)[i]);
          FillAccepted(Relabel(rows[i]));
        }
      }
    }
  }

  /** Rows whose quantity is tied to lot authority: lot-native ones with a lot size, open or dust. */
  predicate Governed(lot: Lot) {
    lot.basis == LOT_NATIVE && Size(lot) > EPS
  }

  /** All lots of a row, and the executable ones, times the lot size. */
  function Authority(lot: Lot): real { (lot.executableLots + lot.dustLots) as real * Size(lot) }

  function ExecutableAuthority(lot: Lot): real { lot.executableLots as real * Size(lot) }

  function QtySum(rows: seq<Lot>): real {
    if rows == [] then 0.0 else
      QtySum(rows[..|rows| - 1]) + if Governed(rows[|rows| - 1]) then rows[|rows| - 1].qtyOpen else 0.0
  }

  function AuthoritySum(rows: seq<Lot>): real {
    if rows == [] then 0.0 else
      AuthoritySum(rows[..|rows| - 1]) + if Governed(rows[|rows| - 1]) then Authority(rows[|rows| - 1]) else 0.0
  }

  function ExecutableSum(rows: seq<Lot>): real {
    if rows == [] then 0.0 else
      ExecutableSum(rows[..|rows| - 1])
      + if Governed(rows[|rows| - 1]) then ExecutableAuthority(rows[|rows| - 1]) else 0.0
  }

  /** An admitted governed row exceeds its authority by at most 1e-12. It falls short of its executable
      part by at most 1e-12 exactly when its quantity is not below -1e-12: the trigger puts no lower
      bound on the quantity. Without dust lots the two parts are the same. */
  lemma RowMatchesIff(lot: Lot)
    requires Accepted(lot) && Governed(lot)
    ensures lot.qtyOpen - Authority(lot) <= EPS
    ensures -EPS <= lot.qtyOpen - ExecutableAuthority(lot) <==> lot.qtyOpen >= -EPS
    ensures lot.state.OpenExposure? || lot.dustLots == 0 ==> Authority(lot) == ExecutableAuthority(lot)
  {
    if lot.qtyOpen <= EPS {
      assert lot.executableLots == 0 && lot.dustLots == 0;
      assert Authority(lot) == ExecutableAuthority(lot) == 0.0;
    }
  }

  /** No governed quantity is below -1e-12. */
  ghost predicate NotBelowZero(rows: seq<Lot>) {
    forall i :: 0 <= i < |rows| && Governed(rows[i]) ==> rows[i].qtyOpen >= -EPS
  }

  ghost predicate NoDust(rows: seq<Lot>) {
    forall i :: 0 <= i < |rows| && Governed(rows[i]) ==> rows[i].state.OpenExposure? || rows[i].dustLots == 0
  }

  lemma {:induction false} SumsMatch(rows: seq<Lot>)
    requires AllAccepted(rows)
    ensures QtySum(rows) <= AuthoritySum(rows) + |rows| as real * EPS
    ensures NotBelowZero(rows) ==> ExecutableSum(rows) - |rows| as real * EPS <= QtySum(rows)
    ensures NoDust(rows) ==> AuthoritySum(rows) == ExecutableSum(rows)
  {
    if rows != [] {
      SumsMatch(rows[..|rows| - 1]);
      var last := rows[|rows| - 1];
      if Governed(last) {
        RowMatchesIff(last);
      }
    }
  }

  /** In every table reachable through guarded inserts, updates and backfills no lot count is negative,
      and the summed open quantity of all lot-native rows with a lot size lies, to within 1e-12 a row,
      at most at the summed authority of all lots, and at least at that of the executable lots when no
      such quantity is below -1e-12; the two sums are equal when no such row tracks dust. */
  lemma ReachableTableLaw(ops: seq<Operation>)
    ensures
      var rows := Run(ops);
      && (forall i :: 0 <= i < |rows| ==> rows[i].executableLots >= 0 && rows[i].dustLots >= 0)
      && QtySum(rows) <= AuthoritySum(rows) + |rows| as real * EPS
      && (NotBelowZero(rows) ==> ExecutableSum(rows) - |rows| as real * EPS <= QtySum(rows))
      && (NoDust(rows) ==> AuthoritySum(rows) == ExecutableSum(rows))
  {
    ReachableAccepted(ops);
    SumsMatch(Run(ops));
    forall i | 0 <= i < |Run(ops)| ensures Run(ops)[i].executableLots >= 0 && Run(ops)[i].dustLots >= 0 {
      assert Accepted(Run(ops)[i]);
    }
  }

  /** The lower half does fail: a negative quantity is admitted. */
  lemma NegativeQtyAdmitted(qty: real)
    requires qty < 0.0
    ensures
      var lot := Lot(qty, 0, 0, Some(1.0), LOT_NATIVE, OpenExposure);
      Accepted(lot) && Governed(lot) && Authority(lot) == 0.0
  {
  }

  /** A dust row may hold any part of its lots: its authority bounds the quantity from above only. */
  lemma DustBelowAuthority(lots: nat, qty: real)
    requires lots > 0 && EPS < qty <= lots as real
    ensures
      var lot := Lot(qty, 0, lots, Some(1.0), LOT_NATIVE, DustTracking);
      Accepted(lot) && Governed(lot) && Authority(lot) == lots as real && ExecutableAuthority(lot) == 0.0
  {
  }
}
