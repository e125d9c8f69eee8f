/** When a fill is an active incident, and what the repair command writes, stated over the rows of the tables. */
module IncidentMeaning {
  import opened Wrappers
  import opened Rounding
  import opened Text
  import opened Picking
  import opened Grouping
  import opened Incidents
  import opened RepairCommand

  // ----- The fill of an observation -----

  predicate Close(x: real, y: real) { -0.000000000001 < x - y < 0.000000000001 }

  /** The observation carries a fill id, and this is it, trimmed. */
  predicate CarriesId(o: Observation, id: string) {
    o.fillId.Some? && Strip(o.fillId.value) == id && id != ""
  }

  /** The fill table holds the fill under the order and the fill id of the observation. */
  predicate SameId(f: FillRow, o: Observation) {
    f.clientOrderId == Strip(o.clientOrderId) && f.fillId.Some? && CarriesId(o, f.fillId.value)
  }

  predicate InTerms(f: FillRow, o: Observation) {
    && f.clientOrderId == Strip(o.clientOrderId)
    && f.fillTs == o.fillTs && Close(f.price, o.price) && Close(f.qty, o.qty)
  }

  /** The first row with the id, or without any such row the first one in the same terms. */
  ghost predicate FillAt(fills: seq<FillRow>, o: Observation, i: nat) {
    && i < |fills|
    && if SameId(fills[i], o) then forall j :: 0 <= j < i ==> !SameId(fills[j], o)
       else && InTerms(fills[i], o)
            && (forall j :: 0 <= j < |fills| ==> !SameId(fills[j], o))
            && (forall j :: 0 <= j < i ==> !InTerms(fills[j], o))
  }

  ghost predicate NoFill(fills: seq<FillRow>, o: Observation) {
    forall j :: 0 <= j < |fills| ==> !SameId(fills[j], o) && !InTerms(fills[j], o)
  }

  lemma MatchesIff(f: FillRow, o: Observation)
    ensures TextOr(o.fillId) != "" ==> (Matches(f, o, true) <==> SameId(f, o))
    ensures TextOr(o.fillId) == "" ==> !SameId(f, o)
    ensures Matches(f, o, false) <==> InTerms(f, o)
  {
  }

  lemma {:induction false} FirstFillAt(fills: seq<FillRow>, o: Observation, byId: bool) returns (i: nat)
    ensures i <= |fills|
    ensures FirstFill(fills, o, byId) == if i < |fills| then Some(fills[i]) else None
    ensures i < |fills| ==> Matches(fills[i], o, byId)
    ensures forall j :: 0 <= j < i ==> !Matches(fills[j], o, byId)
  {
    if fills == [] || Matches(fills[0], o, byId) {
      i := 0;
    } else {
      var k := FirstFillAt(fills[1..], o, byId);
      i := k + 1;
      forall j | 0 <= j < i ensures !Matches(fills[j], o, byId) {
        assert j > 0 ==> fills[j] == fills[1..][j - 1];
      }
    }
  }

  /** The fill that an observation is matched with, and its place. */
  lemma MatchingFillAt(fills: seq<FillRow>, o: Observation) returns (i: nat)
    ensures MatchingFill(fills, o).None? <==> NoFill(fills, o)
    ensures MatchingFill(fills, o).Some? ==> FillAt(fills, o, i) && MatchingFill(fills, o) == Some(fills[i])
  {
    forall j | 0 <= j < |fills|
      ensures TextOr(o.fillId) != "" ==> (Matches(fills[j], o, true) <==> SameId(fills[j], o))
      ensures TextOr(o.fillId) == "" ==> !SameId(fills[j], o)
      ensures Matches(fills[j], o, false) <==> InTerms(fills[j], o)
    {
      MatchesIff(fills[j], o);
    }
    i := FirstFillAt(fills, o, true);
    if TextOr(o.fillId) == "" || i == |fills| {
      i := FirstFillAt(fills, o, false);
    }
  }

  lemma OneFillAt(fills: seq<FillRow>, o: Observation, i: nat, j: nat)
    requires FillAt(fills, o, i) && FillAt(fills, o, j)
    ensures i == j
  {
  }

  // ----- Repairs and states -----

  /** Some repair row with a fee has the order and the terms of the observation. */
  ghost predicate HasRepair(repairs: seq<RepairRow>, o: Observation) {
    exists i :: 0 <= i < |repairs| && RepairsIt(repairs[i], o)
  }

  predicate RepairsIt(r: RepairRow, o: Observation) {
    && r.clientOrderId == Strip(o.clientOrderId) && r.fillTs == o.fillTs
    && Close(r.price, o.price) && Close(r.qty, o.qty) && r.fee > 0.000000000001
  }

  lemma RepairPresentIff(repairs: seq<RepairRow>, o: Observation)
    ensures RepairPresent(repairs, o) <==> HasRepair(repairs, o)
  {
    forall r ensures RepairMatches(r, o) <==> RepairsIt(r, o) {
    }
    if i :| 0 <= i < |repairs| && RepairMatches(repairs[i], o) {
      assert RepairsIt(repairs[i], o);
    }
    if i :| 0 <= i < |repairs| && RepairsIt(repairs[i], o) {
      assert RepairMatches(repairs[i], o);
    }
  }

  /** The fee of the fill is final: it says so, or says nothing and carries a fee. */
  predicate Final(f: FillRow) { f.status.Finalized? || (f.status.Unset? && f.fee > 0.000000000001) }

  /** The fill waits for its fee: it says so, or says nothing and carries none. */
  predicate Waiting(f: FillRow) { f.status.PrincipalApplied? || (f.status.Unset? && f.fee <= 0.000000000001) }

  /** The observation is an active issue: it waits for a fee without a repair and without any fill, or its
      fill failed validation and is not a pending one that was repaired. */
  ghost predicate ActiveIssue(t: Tables, o: Observation) {
    var repairedWhilePending := o.status.FeePending? && HasRepair(t.repairs, o);
    && !repairedWhilePending
    && ((o.status.FeePending? && NoFill(t.fills, o))
        || exists i: nat :: FillAt(t.fills, o, i) && t.fills[i].status.ValidationBlocked?)
  }

  /** This is the fill of the observation, or there is none. */
  ghost predicate FillIs(fills: seq<FillRow>, o: Observation, fill: Option<FillRow>) {
    match fill
    case None => NoFill(fills, o)
    case Some(f) => exists i: nat :: FillAt(fills, o, i) && fills[i] == f
  }

  predicate Open(fill: Option<FillRow>) {
    fill.Some? && (Waiting(fill.value) || fill.value.status.ValidationBlocked?)
  }

  predicate InState(status: ObservationStatus, repaired: bool, fill: Option<FillRow>, s: State) {
    var settled := status.FeePending? && repaired;
    match s
    case Repaired => settled || (status.AccountingComplete? && repaired && !Open(fill))
    case UnappliedPrincipal => status.FeePending? && !repaired && fill.None?
    case PrincipalPending => !settled && fill.Some? && Waiting(fill.value)
    case Blocked => !settled && fill.Some? && fill.value.status.ValidationBlocked?
    case Stale => status.FeePending? && !repaired && fill.Some? && Final(fill.value)
    case NoIncident =>
      && !Open(fill)
      && match status
         case FeePending => !repaired && fill.Some? && !Final(fill.value)
         case AccountingComplete => !repaired
         case OtherStatus => true
  }

  lemma StatusIs(f: FillRow)
    ensures StatusOf(f).PrincipalApplied? <==> Waiting(f)
    ensures StatusOf(f).ValidationBlocked? <==> f.status.ValidationBlocked?
    ensures FeeComplete(Some(f)) <==> Final(f)
  {
  }

  lemma FillFound(fills: seq<FillRow>, o: Observation, fill: Option<FillRow>)
    ensures FillIs(fills, o, fill) <==> MatchingFill(fills, o) == fill
  {
    var i := MatchingFillAt(fills, o);
    if fill.Some? {
      if j: nat :| FillAt(fills, o, j) && fills[j] == fill.value {
        assert MatchingFill(fills, o).Some?;
        OneFillAt(fills, o, i, j);
      }
    }
  }

  /** The state in which an observation is found, for every table and every state. */
  lemma StateIff(t: Tables, o: Observation, fill: Option<FillRow>, s: State)
    requires FillIs(t.fills, o, fill)
    ensures Judge(t, o).state == s <==> InState(o.status, HasRepair(t.repairs, o), fill, s)
  {
    FillFound(t.fills, o, fill);
    RepairPresentIff(t.repairs, o);
    if fill.Some? {
      StatusIs(fill.value);
    }
  }

  /** An observation is found active exactly when it is an active issue. */
  lemma ActiveIff(t: Tables, o: Observation)
    ensures Judge(t, o).active <==> ActiveIssue(t, o)
  {
    var fill := MatchingFill(t.fills, o);
    FillFound(t.fills, o, fill);
    StateIff(t, o, fill, UnappliedPrincipal);
    StateIff(t, o, fill, Blocked);
    JudgedActiveIff(t, o);
    if i: nat :| FillAt(t.fills, o, i) && t.fills[i].status.ValidationBlocked? {
      FillFound(t.fills, o, Some(t.fills[i]));
    }
  }

  // ----- The projection -----

  /** The latest observation of an identity. */
  ghost predicate LatestAt(observations: seq<Observation>, k: nat) {
    && k < |observations|
    && forall j :: k < j < |observations| ==> !SameIncident(observations[j], observations[k])
  }

  /** Observations of one incident: the same order, and the same fill id, or none and the same terms. */
  predicate SameIncident(o: Observation, o': Observation) {
    && Strip(o.clientOrderId) == Strip(o'.clientOrderId)
    && if Unnamed(o) then Unnamed(o') && o.fillTs == o'.fillTs && o.price == o'.price && o.qty == o'.qty
       else CarriesId(o', Strip(o.fillId.value))
  }

  predicate Unnamed(o: Observation) { o.fillId.None? || Strip(o.fillId.value) == "" }

  lemma SameIncidentIff(o: Observation, o': Observation)
    ensures IdentityOf(o) == IdentityOf(o') <==> SameIncident(o, o')
  {
  }

  lemma LatestIsLast(observations: seq<Observation>, k: nat)
    requires k < |observations|
    ensures LatestAt(observations, k) <==> LastOf(IdentityOf, observations, IdentityOf(observations[k]), k)
  {
    forall j | k < j < |observations|
      ensures IdentityOf(observations[j]) == IdentityOf(observations[k])
        <==> SameIncident(observations[j], observations[k])
    {
      SameIncidentIff(observations[j], observations[k]);
    }
  }

  /** The latest observation of an incident decides about it. */
  ghost predicate IssueAt(t: Tables, k: nat, id: Identity) {
    LatestAt(t.observations, k) && IdentityOf(t.observations[k]) == id && ActiveIssue(t, t.observations[k])
  }

  lemma IssueReported(t: Tables, k: nat)
    requires LatestAt(t.observations, k) && ActiveIssue(t, t.observations[k])
    ensures exists v <- Projection(t) :: v.identity == IdentityOf(t.observations[k]) && v.active
  {
    LatestIsLast(t.observations, k);
    var i := LatestIs(IdentityOf, t.observations, k);
    ActiveIff(t, t.observations[k]);
    assert Projection(t)[i].active;
  }

  /** An incident is reported active exactly when its latest observation is an active issue. */
  lemma ReportedActiveIff(t: Tables, id: Identity)
    ensures (exists v <- Projection(t) :: v.identity == id && v.active) <==> exists k: nat :: IssueAt(t, k, id)
  {
    if v :| v in Projection(t) && v.identity == id && v.active {
      var i :| 0 <= i < |Projection(t)| && Projection(t)[i] == v;
      var k := JudgedLast(IdentityOf, t.observations, i);
      LatestIsLast(t.observations, k);
      ActiveIff(t, t.observations[k]);
      assert IssueAt(t, k, id);
    }
    if k: nat :| IssueAt(t, k, id) {
      IssueReported(t, k);
    }
  }

  // ----- What an event changes -----

  /** A recorded fill changes only when its fee is finalised: it was not final, and the fee is not negative. */
  lemma FillChangesIff(t: Tables, e: Event, after: Tables, i: nat)
    requires i < |t.fills| && after == Step(t, e)
    ensures i < |after.fills|
    ensures
      if e.FinalizeFee? && e.index == i && e.fee >= 0.0 && !Final(t.fills[i])
      then after.fills[i] == t.fills[i].(fee := e.fee, status := Finalized)
      else after.fills[i] == t.fills[i]
  {
    StatusIs(t.fills[i]);
  }

  /** Another fill of the order has the same id, or the same terms. */
  ghost predicate Taken(fills: seq<FillRow>, f: FillRow) {
    exists i :: 0 <= i < |fills| && SameFillAs(fills[i], f)
  }

  predicate SameFillAs(g: FillRow, f: FillRow) {
    && g.clientOrderId == f.clientOrderId
    && ((f.fillId.Some? && g.fillId == f.fillId)
        || (g.fillTs == f.fillTs && Close(g.price, f.price) && Close(g.qty, f.qty)))
  }

  /** A fill is added exactly when it is not taken, and a repair exactly with a fee of zero or more and a new
      key; nothing else makes the tables longer, and nothing is ever removed. */
  lemma TablesGrowIff(t: Tables, e: Event, after: Tables)
    requires after == Step(t, e)
    ensures
      if e.AddFill? && !Taken(t.fills, e.fill) then after.fills == t.fills + [e.fill]
      else |after.fills| == |t.fills|
    ensures after.repairs ==
      if e.RecordRepair? && e.repair.fee >= 0.0 && forall r <- t.repairs :: r.key != e.repair.key
      then t.repairs + [e.repair] else t.repairs
    ensures after.observations ==
      if e.Observe? && e.at <= |t.observations|
      then t.observations[..e.at] + [e.observation] + t.observations[e.at..] else t.observations
  {
    if e.AddFill? {
      ClashIff(t.fills, e.fill);
    }
  }

  lemma ClashIff(fills: seq<FillRow>, f: FillRow)
    ensures Clashes(fills, f) <==> Taken(fills, f)
  {
    if Clashes(fills, f) {
      var i :| 0 <= i < |fills| && fills[i].clientOrderId == f.clientOrderId
        && ((f.fillId.Some? && fills[i].fillId == f.fillId)
            || (fills[i].fillTs == f.fillTs && Near(fills[i].price, f.price) && Near(fills[i].qty, f.qty)));
      assert SameFillAs(fills[i], f);
    }
    if i :| 0 <= i < |fills| && SameFillAs(fills[i], f) {
      assert fills[i].clientOrderId == f.clientOrderId;
    }
  }

  // ----- What the repair command writes -----

  /** A pending observation of the order that the call names, with its fill id when it gives one. */
  predicate Asked(r: Request, o: Observation) {
    && o.status.FeePending? && o.clientOrderId == Strip(r.clientOrderId)
    && (r.fillId.Some? && Strip(r.fillId.value) != "" ==> o.fillId == Some(Strip(r.fillId.value)))
  }

  lemma AskedIff(r: Request, o: Observation)
    ensures PendingIn(r)(o) == if Asked(r, o) then Some(o) else None
  {
  }

  ghost predicate LastAsked(r: Request, observations: seq<Observation>, k: nat) {
    && k < |observations| && Asked(r, observations[k])
    && forall j :: k < j < |observations| ==> !Asked(r, observations[j])
  }

  lemma NoneAskedIff(r: Request, observations: seq<Observation>)
    ensures Selected(r, observations) == [] <==> forall j :: 0 <= j < |observations| ==> !Asked(r, observations[j])
  {
    PickedNothingIff(PendingIn(r), observations);
    forall j | 0 <= j < |observations|
      ensures PendingIn(r)(observations[j]).None? <==> !Asked(r, observations[j])
    {
      AskedIff(r, observations[j]);
    }
  }

  /** The command repairs the last of them. */
  lemma {:induction false} TargetIs(r: Request, observations: seq<Observation>, k: nat)
    requires LastAsked(r, observations, k)
    ensures Selected(r, observations) != [] && Target(r, observations) == observations[k]
  {
    var n := |observations| - 1;
    AskedIff(r, observations[n]);
    if k < n {
      assert forall j :: k < j < n ==> observations[..n][j] == observations[j];
      TargetIs(r, observations[..n], k);
    }
  }

  lemma {:induction false} IndexIsFirst(fills: seq<FillRow>, f: FillRow, i: nat)
    requires i < |fills| && fills[i] == f && forall j :: 0 <= j < i ==> fills[j] != f
    ensures IndexOf(fills, f) == i
  {
    if i > 0 {
      IndexIsFirst(fills[1..], f, i - 1);
    }
  }

  lemma FillIndex(fills: seq<FillRow>, o: Observation, i: nat)
    requires FillAt(fills, o, i)
    ensures MatchingFill(fills, o) == Some(fills[i]) && IndexOf(fills, fills[i]) == i
  {
    FillFound(fills, o, Some(fills[i]));
    IndexIsFirst(fills, fills[i], i);
  }

  function IdIn(o: Observation): Option<string> { if Unnamed(o) then None else Some(Strip(o.fillId.value)) }

  /** The call and the observation it repairs. */
  ghost predicate Repairs(t: Tables, r: Request, after: Tables, k: nat) {
    Apply(t, r) == Some(after) && LastAsked(r, t.observations, k)
  }

  /** The repair row is recorded under its key, once, with the terms of the observation and the fee in full. */
  lemma RepairRecorded(t: Tables, r: Request, after: Tables, k: nat)
    requires Repairs(t, r, after, k)
    ensures
      var o := t.observations[k];
      after.repairs ==
        if exists i :: 0 <= i < |t.repairs| && t.repairs[i].key == r.key then t.repairs
        else t.repairs + [RepairRow(r.key, Strip(r.clientOrderId), IdIn(o), o.fillTs, o.price, o.qty,
                                    r.fee as real / 100000000.0)]
  {
    TargetIs(r, t.observations, k);
    RepairRowIs(r, t.observations[k]);
    RepairsAfter(t, r, t.observations[k], after);
  }

  lemma RepairRowIs(r: Request, o: Observation)
    requires Asked(r, o)
    ensures RepairFor(r, o)
      == RepairRow(r.key, Strip(r.clientOrderId), IdIn(o), o.fillTs, o.price, o.qty, r.fee as real / 100000000.0)
  {
  }

  /** One completed observation with the same terms is appended. */
  lemma ObservationAppended(t: Tables, r: Request, after: Tables, k: nat)
    requires Repairs(t, r, after, k)
    ensures
      var o := t.observations[k];
      after.observations == t.observations
        + [Observation(Strip(r.clientOrderId), IdIn(o), o.fillTs, o.price, o.qty, AccountingComplete)]
  {
    TargetIs(r, t.observations, k);
    Applied(t, r, t.observations[k], after);
  }

  /** The fill of the observation becomes final with the fee, and no other row changes. */
  lemma FillFinalised(t: Tables, r: Request, after: Tables, k: nat, i: nat)
    requires Repairs(t, r, after, k) && FillAt(t.fills, t.observations[k], i)
    ensures after.fills == t.fills[i := t.fills[i].(fee := r.fee as real / 100000000.0, status := Finalized)]
  {
    TargetIs(r, t.observations, k);
    var o := t.observations[k];
    Applied(t, r, o, after);
    FillIndex(t.fills, o, i);
    FinalisedAt(t, o, FeeOf(r), Counted(r, o), i);
  }

  lemma FinalisedAt(t: Tables, o: Observation, fee: real, counted: bool, i: nat)
    requires i < |t.fills| && MatchingFill(t.fills, o) == Some(t.fills[i]) && IndexOf(t.fills, t.fills[i]) == i
    requires fee >= 0.0 && !FeeComplete(Some(t.fills[i]))
    ensures Settle(t, o, fee, counted).fills == t.fills[i := t.fills[i].(fee := fee, status := Finalized)]
  {
    NotComplete(t.fills[i]);
  }

  /** Without a fill a final one is added, unless its quantity is counted in the order under its id. */
  lemma FillAdded(t: Tables, r: Request, after: Tables, k: nat)
    requires Repairs(t, r, after, k) && NoFill(t.fills, t.observations[k])
    ensures
      var o := t.observations[k];
      after.fills ==
        if r.counted && !Unnamed(o) then t.fills
        else t.fills + [FillRow(Strip(r.clientOrderId), IdIn(o), o.fillTs, o.price, o.qty,
                                r.fee as real / 100000000.0, Finalized)]
  {
    TargetIs(r, t.observations, k);
    var o := t.observations[k];
    Applied(t, r, o, after);
    FillFound(t.fills, o, None);
    NoMatchNoClash(t.fills, o, FeeOf(r));
    FillRowIs(r, o);
  }

  lemma FillRowIs(r: Request, o: Observation)
    requires Asked(r, o)
    ensures FillFor(o, FeeOf(r))
      == FillRow(Strip(r.clientOrderId), IdIn(o), o.fillTs, o.price, o.qty, r.fee as real / 100000000.0, Finalized)
    ensures Counted(r, o) <==> r.counted && !Unnamed(o)
  {
  }

  /** The command is refused exactly without an order, a clearance or a fee of zero or more; without a
      pending observation, or with several and no fill id; for a price or a quantity that is not
      positive, a fill whose fee is final, and a missing fee that the size of the fill demands. */
  lemma RefusedIff(t: Tables, r: Request, k: nat)
    requires LastAsked(r, t.observations, k)
    ensures
      var o := t.observations[k];
      Apply(t, r).None? <==>
        || Strip(r.clientOrderId) == "" || !r.cleared || r.fee < 0
        || ((r.fillId.None? || Strip(r.fillId.value) == "") && exists j :: 0 <= j < k && Asked(r, t.observations[j]))
        || o.price <= 0.0 || o.qty <= 0.0
        || (exists i: nat :: FillAt(t.fills, o, i) && Final(t.fills[i]))
        || (r.material && r.fee == 0)
  {
    TargetIs(r, t.observations, k);
    var o := t.observations[k];
    SeveralIff(r, t.observations, k);
    var i := MatchingFillAt(t.fills, o);
    if j: nat :| FillAt(t.fills, o, j) && Final(t.fills[j]) {
      FillIndex(t.fills, o, j);
      StatusIs(t.fills[j]);
    }
    if MatchingFill(t.fills, o).Some? {
      StatusIs(t.fills[i]);
    }
  }

  lemma NothingAskedRefused(t: Tables, r: Request)
    requires forall j :: 0 <= j < |t.observations| ==> !Asked(r, t.observations[j])
    ensures Apply(t, r).None?
  {
    NoneAskedIff(r, t.observations);
  }

  /** Several are selected exactly when another one is asked for before the last. */
  lemma {:induction false} SeveralIff(r: Request, observations: seq<Observation>, k: nat)
    requires LastAsked(r, observations, k)
    ensures |Selected(r, observations)| > 1 <==> exists j :: 0 <= j < k && Asked(r, observations[j])
  {
    var n := |observations| - 1;
    AskedIff(r, observations[n]);
    if k < n {
      assert forall j :: 0 <= j < n ==> observations[..n][j] == observations[j];
      SeveralIff(r, observations[..n], k);
    } else {
      NoneAskedIff(r, observations[..n]);
    }
  }
}
