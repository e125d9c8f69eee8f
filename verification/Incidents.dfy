/** Fill-fee incidents: broker observations grouped by fill, each group judged against the fill table
    and the recorded repairs. */
module Incidents {
  import opened Wrappers
  import opened Rounding
  import opened Text
  import opened Grouping

  datatype ObservationStatus = FeePending | AccountingComplete | OtherStatus

  datatype FeeStatus = Finalized | PrincipalApplied | ValidationBlocked | Unknown | Unset

  datatype Observation = Observation(
    clientOrderId: string, fillId: Option<string>, fillTs: int, price: real, qty: real, status: ObservationStatus)

  datatype FillRow = FillRow(
    clientOrderId: string, fillId: Option<string>, fillTs: int, price: real, qty: real, fee: real, status: FeeStatus)

  datatype RepairRow = RepairRow(
    key: string, clientOrderId: string, fillId: Option<string>, fillTs: int, price: real, qty: real, fee: real)

  /** The three tables, observations in event order. */
  datatype Tables = Tables(observations: seq<Observation>, fills: seq<FillRow>, repairs: seq<RepairRow>)

  datatype Identity =
    | ByFillId(clientOrderId: string, fillId: string)
    | ByTerms(clientOrderId: string, fillTs: int, price: real, qty: real)

  datatype State = Repaired | UnappliedPrincipal | PrincipalPending | Blocked | Stale | NoIncident

  // ----- Matching -----

  function TextOr(value: Option<string>): string { if value.Some? then Strip(value.value) else "" }

  function IdentityOf(o: Observation): Identity {
    if TextOr(o.fillId) != "" then ByFillId(Strip(o.clientOrderId), TextOr(o.fillId))
    else ByTerms(Strip(o.clientOrderId), o.fillTs, o.price, o.qty)
  }

  predicate Near(x: real, y: real) { -EPS < x - y < EPS }

  predicate FillById(f: FillRow, o: Observation) {
    f.clientOrderId == Strip(o.clientOrderId) && f.fillId == Some(TextOr(o.fillId))
  }

  predicate FillByTerms(f: FillRow, o: Observation) {
    f.clientOrderId == Strip(o.clientOrderId) && f.fillTs == o.fillTs && Near(f.price, o.price) && Near(f.qty, o.qty)
  }

  predicate Matches(f: FillRow, o: Observation, byId: bool) { if byId then FillById(f, o) else FillByTerms(f, o) }

  function FirstFill(fills: seq<FillRow>, o: Observation, byId: bool): (r: Option<FillRow>)
    ensures r.Some? ==> r.value in fills && Matches(r.value, o, byId)
    ensures r.None? ==> forall f :: f in fills ==> !Matches(f, o, byId)
  {
    if fills == [] then None
    else if Matches(fills[0], o, byId) then Some(fills[0])
    else FirstFill(fills[1..], o, byId)
  }

  /** By fill id first, by the terms of the fill otherwise. */
  function MatchingFill(fills: seq<FillRow>, o: Observation): Option<FillRow> {
    if TextOr(o.fillId) != "" && FirstFill(fills, o, true).Some? then FirstFill(fills, o, true)
    else FirstFill(fills, o, false)
  }

  predicate FeeComplete(f: Option<FillRow>) {
    f.Some? && (if f.value.status.Unset? then f.value.fee > EPS else f.value.status.Finalized?)
  }

  /** The fee status of a matched fill, with the status of an old row inferred from its fee. */
  function StatusOf(f: FillRow): FeeStatus {
    if !f.status.Unset? then f.status else if FeeComplete(Some(f)) then Finalized else PrincipalApplied
  }

  predicate RepairMatches(r: RepairRow, o: Observation) {
    && r.clientOrderId == Strip(o.clientOrderId) && r.fillTs == o.fillTs
    && Near(r.price, o.price) && Near(r.qty, o.qty) && r.fee > EPS
  }

  /** Repairs matched by fill id are preferred, but any match on the terms is enough. */
  predicate RepairPresent(repairs: seq<RepairRow>, o: Observation) {
    if TextOr(o.fillId) != ""
       && exists r :: r in repairs && RepairMatches(r, o) && r.fillId == Some(TextOr(o.fillId))
    then true
    else exists i :: 0 <= i < |repairs| && RepairMatches(repairs[i], o)
  }

  /** The finding on a group whose latest observation is `latest`. */
  function Judge(t: Tables, latest: Observation): Finding<State> {
    var fill := MatchingFill(t.fills, latest);
    var repaired := RepairPresent(t.repairs, latest);
    if latest.status.FeePending? && repaired then Finding(Repaired, false)
    else if fill.None? && latest.status.FeePending? then Finding(UnappliedPrincipal, true)
    else if fill.Some? && StatusOf(fill.value).PrincipalApplied? then Finding(PrincipalPending, false)
    else if fill.Some? && StatusOf(fill.value).ValidationBlocked? then Finding(Blocked, true)
    else if latest.status.FeePending? && FeeComplete(fill) then Finding(Stale, false)
    else if latest.status.AccountingComplete? && repaired then Finding(Repaired, false)
    else Finding(NoIncident, false)
  }

  // ----- The projection -----

  function Judgement(t: Tables): Observation -> Finding<State> { o => Judge(t, o) }

  /** One verdict for each identity, on the latest observation of its group. */
  function Projection(t: Tables): seq<Verdict<Identity, State>> {
    Verdicts(IdentityOf, Judgement(t), t.observations)
  }

  method BuildProjection(t: Tables) returns (verdicts: seq<Verdict<Identity, State>>)
    ensures verdicts == Projection(t)
  {
    verdicts := BuildVerdicts(IdentityOf, Judgement(t), t.observations);
  }

  /** Every observation is judged in exactly one verdict: one verdict for each identity, and the
      verdicts count every observation once. */
  lemma ProjectionPartitions(t: Tables)
    ensures
      var verdicts := Projection(t);
      && CountSum(verdicts) == |t.observations|
      && (forall o :: o in t.observations ==> exists i :: 0 <= i < |verdicts| && verdicts[i].identity == IdentityOf(o))
      && (forall i, j :: 0 <= i < j < |verdicts| ==> verdicts[i].identity != verdicts[j].identity)
  {
    VerdictsPartition(IdentityOf, Judgement(t), t.observations);
  }

  lemma JudgedActiveIff(t: Tables, latest: Observation)
    ensures
      var finding := Judge(t, latest);
      finding.active <==> finding.state == UnappliedPrincipal || finding.state == Blocked
  {
  }

  // ----- Runs -----

  /** What the runtime does to the tables. A late observation takes its place in event order. */
  datatype Event =
    | Observe(at: nat, observation: Observation)
    | AddFill(fill: FillRow)
    | FinalizeFee(index: nat, fee: real)
    | RecordRepair(repair: RepairRow)

  /** A fill table obeys the unique index over order and fill id. */
  ghost predicate UniqueFills(fills: seq<FillRow>) {
    forall i, j :: 0 <= i < j < |fills| && fills[i].fillId.Some? ==>
      !(fills[i].clientOrderId == fills[j].clientOrderId && fills[i].fillId == fills[j].fillId)
  }

  /** A fill of the order with the same fill id, or with the same terms, is already there. */
  predicate Clashes(fills: seq<FillRow>, f: FillRow) {
    exists i :: 0 <= i < |fills| && fills[i].clientOrderId == f.clientOrderId
      && ((f.fillId.Some? && fills[i].fillId == f.fillId)
          || (fills[i].fillTs == f.fillTs && Near(fills[i].price, f.price) && Near(fills[i].qty, f.qty)))
  }

  /** Refused calls leave the tables alone: a clashing fill, a fee already final or negative, a repair
      with a negative fee or a key that is already recorded. */
  function Step(t: Tables, e: Event): Tables {
    match e
    case Observe(at, o) =>
      if at > |t.observations| then t
      else t.(observations := t.observations[..at] + [o] + t.observations[at..])
    case AddFill(f) => if Clashes(t.fills, f) then t else t.(fills := t.fills + [f])
    case FinalizeFee(i, fee) =>
      if i >= |t.fills| || fee < 0.0 || StatusOf(t.fills[i]).Finalized? then t
      else t.(fills := t.fills[i := t.fills[i].(fee := fee, status := Finalized)])
    case RecordRepair(r) =>
      if r.fee < 0.0 || (exists i :: 0 <= i < |t.repairs| && t.repairs[i].key == r.key) then t
      else t.(repairs := t.repairs + [r])
  }

  function Run(t: Tables, events: seq<Event>): Tables {
    if events == [] then t else Step(Run(t, events[..|events| - 1]), events[|events| - 1])
  }

  /** After every run the active issues are the unapplied principals and the blocked validations. */
  lemma ActiveSplits(t: Tables, events: seq<Event>)
    ensures
      var verdicts := Projection(Run(t, events));
      CountActive(verdicts) == CountState(verdicts, UnappliedPrincipal) + CountState(verdicts, Blocked)
  {
    var after := Run(t, events);
    var verdicts := Projection(after);
    forall i | 0 <= i < |verdicts|
      ensures verdicts[i].active <==> verdicts[i].state == UnappliedPrincipal || verdicts[i].state == Blocked
    {
      JudgedActiveIff(after, Latest(IdentityOf, after.observations, i));
    }
    ActiveCounts(verdicts, UnappliedPrincipal, Blocked);
  }

  /** The fill table holds a finalised row for this order and fill id. */
  ghost predicate FinalizedFill(t: Tables, client: string, fillId: string) {
    && UniqueFills(t.fills)
    && exists i :: 0 <= i < |t.fills| && t.fills[i].clientOrderId == client && t.fills[i].fillId == Some(fillId)
                   && StatusOf(t.fills[i]).Finalized?
  }

  lemma StepKeepsFinalized(t: Tables, e: Event, client: string, fillId: string)
    requires FinalizedFill(t, client, fillId)
    ensures FinalizedFill(Step(t, e), client, fillId)
  {
    var i :| 0 <= i < |t.fills| && t.fills[i].clientOrderId == client && t.fills[i].fillId == Some(fillId)
             && StatusOf(t.fills[i]).Finalized?;
    var after := Step(t, e);
    assert after.fills[i] == t.fills[i];
  }

  lemma FinalizedIsInactive(t: Tables, client: string, fillId: string, latest: Observation)
    requires FinalizedFill(t, client, fillId) && IdentityOf(latest) == ByFillId(client, fillId)
    ensures !Judge(t, latest).active
  {
    var i :| 0 <= i < |t.fills| && t.fills[i].clientOrderId == client && t.fills[i].fillId == Some(fillId)
             && StatusOf(t.fills[i]).Finalized?;
    assert Matches(t.fills[i], latest, true);
    var found := FirstFill(t.fills, latest, true).value;
    var j :| 0 <= j < |t.fills| && t.fills[j] == found;
    assert i == j;
  }

  lemma {:induction false} RunKeepsFinalized(t: Tables, events: seq<Event>, client: string, fillId: string)
    requires FinalizedFill(t, client, fillId)
    ensures FinalizedFill(Run(t, events), client, fillId)
  {
    if events != [] {
      RunKeepsFinalized(t, events[..|events| - 1], client, fillId);
      StepKeepsFinalized(Run(t, events[..|events| - 1]), events[|events| - 1], client, fillId);
    }
  }

  /** Once the fee of a fill with a fill id is final, no later run makes its incident active again. */
  lemma FinalizedNeverActive(t: Tables, events: seq<Event>, client: string, fillId: string)
    requires FinalizedFill(t, client, fillId)
    ensures
      forall v :: v in Projection(Run(t, events)) && v.identity == ByFillId(client, fillId) ==> !v.active
  {
    var after := Run(t, events);
    var verdicts := Projection(after);
    RunKeepsFinalized(t, events, client, fillId);
    forall i | 0 <= i < |verdicts| && verdicts[i].identity == ByFillId(client, fillId) ensures !verdicts[i].active {
      FinalizedIsInactive(after, client, fillId, Latest(IdentityOf, after.observations, i));
    }
  }

  // ----- Repairs -----

  /** A recorded repair never turns an inactive incident active. */
  lemma RepairCalms(t: Tables, r: RepairRow, latest: Observation)
    ensures Judge(Step(t, RecordRepair(r)), latest).active ==> Judge(t, latest).active
  {
    var after := Step(t, RecordRepair(r));
    if RepairPresent(t.repairs, latest) {
      var i :| 0 <= i < |t.repairs| && RepairMatches(t.repairs[i], latest);
      assert after.repairs[i] == t.repairs[i];
    }
  }

  /** Tables over the same observations that judge no observation active that was not, count no more. */
  lemma CalmerTables(t: Tables, after: Tables)
    requires after.observations == t.observations
    requires forall o :: Judge(after, o).active ==> Judge(t, o).active
    ensures CountActive(Projection(after)) <= CountActive(Projection(t))
  {
    forall o ensures Judgement(after)(o).active ==> Judgement(t)(o).active {
      assert Judge(after, o).active ==> Judge(t, o).active;
    }
    CalmerJudgement(IdentityOf, Judgement(t), Judgement(after), t.observations);
  }

  /** Recording a repair never raises the number of active issues. */
  lemma RepairNeverRaisesActive(t: Tables, r: RepairRow)
    ensures CountActive(Projection(Step(t, RecordRepair(r)))) <= CountActive(Projection(t))
  {
    var after := Step(t, RecordRepair(r));
    forall o ensures Judge(after, o).active ==> Judge(t, o).active {
      RepairCalms(t, r, o);
    }
    CalmerTables(t, after);
  }

  /** Finalising one row changes what is found only in that row. */
  lemma {:induction false} FirstFillFinalized(fills: seq<FillRow>, i: nat, f: FillRow, o: Observation, byId: bool)
    requires i < |fills| && f == fills[i].(fee := f.fee, status := f.status)
    ensures
      var before, after := FirstFill(fills, o, byId), FirstFill(fills[i := f], o, byId);
      after == before || (before.Some? && after == Some(f))
  {
    if i == 0 {
      assert fills[i := f][1..] == fills[1..];
    } else {
      assert fills[i := f][1..] == fills[1..][i - 1 := f];
      FirstFillFinalized(fills[1..], i - 1, f, o, byId);
    }
  }

  lemma MatchFinalized(fills: seq<FillRow>, i: nat, f: FillRow, o: Observation)
    requires i < |fills| && f == fills[i].(fee := f.fee, status := f.status)
    ensures
      var before, after := MatchingFill(fills, o), MatchingFill(fills[i := f], o);
      after == before || (before.Some? && after == Some(f))
  {
    FirstFillFinalized(fills, i, f, o, true);
    FirstFillFinalized(fills, i, f, o, false);
  }

  lemma FinalizeCalms(t: Tables, i: nat, fee: real, latest: Observation)
    requires i < |t.fills|
    ensures
      var f := t.fills[i].(fee := fee, status := Finalized);
      Judge(t.(fills := t.fills[i := f]), latest).active ==> Judge(t, latest).active
  {
    MatchFinalized(t.fills, i, t.fills[i].(fee := fee, status := Finalized), latest);
  }

  /** Finalising a fee never raises the number of active issues either. */
  lemma FinalizeNeverRaisesActive(t: Tables, i: nat, fee: real)
    ensures CountActive(Projection(Step(t, FinalizeFee(i, fee)))) <= CountActive(Projection(t))
  {
    var after := Step(t, FinalizeFee(i, fee));
    if after != t {
      forall o ensures Judge(after, o).active ==> Judge(t, o).active {
        FinalizeCalms(t, i, fee, o);
      }
      CalmerTables(t, after);
    }
  }
}
